/**
 * The notifications panel of the care-home header: the unread count, one card per
 * notification styled by its type, a mark-as-read button on unread cards and a
 * dismiss button on every card.
 */
module Notifications {

  datatype Notification = Notification(id: string, message: string, time: string, kind: string, isRead: bool)

  const DefaultNotifications: seq<Notification> := [
    Notification("1", "New shift request from John Doe", "2 mins ago", "info", false),
    Notification("2", "Urgent: Staff shortage in evening shift", "10 mins ago", "warning", false),
    Notification("3", "Monthly schedule published", "1 hour ago", "success", true)]

  /** `getTypeStyles` */
  function TypeStyles(kind: string): (style: string)
    ensures style in {"bg-yellow-100 text-yellow-800 border-yellow-200", "bg-green-100 text-green-800 border-green-200", "bg-blue-100 text-blue-800 border-blue-200"}
  {
    match kind
    case "warning" => "bg-yellow-100 text-yellow-800 border-yellow-200"
    case "success" => "bg-green-100 text-green-800 border-green-200"
    case _ => "bg-blue-100 text-blue-800 border-blue-200"
  }

  /** Warnings are yellow and successes green; every other type, "info" included, is blue. */
  lemma TypeStyleCases(kind: string)
    ensures TypeStyles("warning") == "bg-yellow-100 text-yellow-800 border-yellow-200"
    ensures TypeStyles("success") == "bg-green-100 text-green-800 border-green-200"
    ensures TypeStyles("info") == "bg-blue-100 text-blue-800 border-blue-200"
    ensures TypeStyles(kind) == "bg-blue-100 text-blue-800 border-blue-200" <==> kind != "warning" && kind != "success"
  {
  }

  /** `notifications.filter((n) => !n.isRead).length` */
  function UnreadCount(ns: seq<Notification>): (n: nat)
    ensures n <= |ns|
    ensures n == 0 <==> forall i :: 0 <= i < |ns| ==> ns[i].isRead
    ensures n == |ns| <==> forall i :: 0 <= i < |ns| ==> !ns[i].isRead
  {
    if ns == [] then 0
    else
      assert forall i :: 1 <= i < |ns| ==> ns[i] == ns[1..][i - 1];
      (if ns[0].isRead then 0 else 1) + UnreadCount(ns[1..])
  }

  /** The count of a longer list is the sum of the counts of its parts. */
  lemma {:induction false} UnreadCountAppend(a: seq<Notification>, b: seq<Notification>)
    ensures UnreadCount(a + b) == UnreadCount(a) + UnreadCount(b)
  {
    if a == [] {
      assert a + b == b;
    } else {
      assert (a + b)[1..] == a[1..] + b;
      UnreadCountAppend(a[1..], b);
    }
  }

  /** The buttons drawn on one card. */
  datatype CardButtons = CardButtons(markAsRead: bool, dismiss: bool)

  function Buttons(n: Notification): (b: CardButtons)
    ensures b.markAsRead <==> !n.isRead
    ensures b.dismiss
  {
    CardButtons(!n.isRead, true)
  }

  /** The number of cards that show a mark-as-read button. */
  function MarkButtonCount(ns: seq<Notification>): nat {
    if ns == [] then 0 else (if Buttons(ns[0]).markAsRead then 1 else 0) + MarkButtonCount(ns[1..])
  }

  /** The header's count is exactly the number of mark-as-read buttons on the cards. */
  lemma {:induction false} UnreadMatchesButtons(ns: seq<Notification>)
    ensures UnreadCount(ns) == MarkButtonCount(ns)
  {
    if ns != [] {
      UnreadMatchesButtons(ns[1..]);
    }
  }

  /** Unread cards are emphasised, read ones dimmed. */
  function CardEmphasis(n: Notification): (cls: string)
    ensures cls == "font-medium" <==> !n.isRead
  {
    if !n.isRead then "font-medium" else "opacity-75"
  }

  /** Without a list from the caller, two of the three sample notifications are unread. */
  lemma DefaultUnread()
    ensures UnreadCount(DefaultNotifications) == 2
    ensures TypeStyles(DefaultNotifications[1].kind) == "bg-yellow-100 text-yellow-800 border-yellow-200"
  {
    assert DefaultNotifications[1..][1..][1..] == [];
  }
}
