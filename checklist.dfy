/**
 * The checkbox lists of the incident form (witnesses) and the report form (metrics):
 * checking appends the item, unchecking filters out every copy of it.
 */
module Checklist {

  /** `list.filter((x) => x !== item)` */
  function RemoveAll(list: seq<string>, item: string): (r: seq<string>)
    ensures item !in r
    ensures |r| <= |list|
    ensures forall x :: x in r ==> x in list
    ensures forall x :: x != item ==> multiset(r)[x] == multiset(list)[x]
  {
    if list == [] then []
    else
      assert list == [list[0]] + list[1..];
      (if list[0] == item then [] else [list[0]]) + RemoveAll(list[1..], item)
  }

  /** Filtering distributes over concatenation, so the kept items stay in their order. */
  lemma {:induction false} RemoveAllAppend(a: seq<string>, b: seq<string>, item: string)
    ensures RemoveAll(a + b, item) == RemoveAll(a, item) + RemoveAll(b, item)
  {
    if a == [] {
      assert a + b == b;
    } else {
      assert (a + b)[0] == a[0];
      assert (a + b)[1..] == a[1..] + b;
      RemoveAllAppend(a[1..], b, item);
    }
  }

  /** A list without the item is left exactly as it is. */
  lemma {:induction false} RemoveAbsent(list: seq<string>, item: string)
    requires item !in list
    ensures RemoveAll(list, item) == list
  {
    if list != [] {
      assert item !in list[1..];
      RemoveAbsent(list[1..], item);
    }
  }

  /** `onCheckedChange(checked)` */
  function Toggle(list: seq<string>, item: string, checked: bool): (r: seq<string>)
    ensures checked <==> item in r
    ensures checked ==> r == list + [item]
    ensures !checked ==> forall x :: x != item ==> multiset(r)[x] == multiset(list)[x]
  {
    if checked then list + [item] else RemoveAll(list, item)
  }

  /** Checking then unchecking an item that was not listed gives the list back. */
  lemma CheckUncheck(list: seq<string>, item: string)
    requires item !in list
    ensures Toggle(Toggle(list, item, true), item, false) == list
  {
    RemoveAllAppend(list, [item], item);
    RemoveAbsent(list, item);
    assert RemoveAll([item], item) == [] + RemoveAll([item][1..], item);
  }

  /** Unchecking one item keeps every other item's checkbox as it was. */
  lemma UncheckKeepsOthers(list: seq<string>, item: string, other: string)
    requires other != item
    ensures other in Toggle(list, item, false) <==> other in list
  {
    assert other in RemoveAll(list, item) <==> multiset(RemoveAll(list, item))[other] > 0;
    assert other in list <==> multiset(list)[other] > 0;
  }
}
