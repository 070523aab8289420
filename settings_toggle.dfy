/**
 * The notification and security switches of both Settings screens, and their
 * shared `toggleSetting`, which maps over the list flipping the entry with the
 * given id.
 */
module SettingsToggle {

  datatype Setting = Setting(id: string, title: string, description: string, enabled: bool)

  /** `settings.map(s => s.id === id ? { ...s, enabled: !s.enabled } : s)` */
  function ToggleSetting(settings: seq<Setting>, id: string): (r: seq<Setting>)
    ensures |r| == |settings|
    ensures forall i :: 0 <= i < |settings| && settings[i].id != id ==> r[i] == settings[i]
    ensures forall i :: 0 <= i < |settings| && settings[i].id == id ==>
      r[i].enabled == !settings[i].enabled && r[i].(enabled := settings[i].enabled) == settings[i]
  {
    seq(|settings|, i requires 0 <= i < |settings| =>
      if settings[i].id == id then settings[i].(enabled := !settings[i].enabled) else settings[i])
  }

  /** Flipping the same switch twice restores the list. */
  lemma ToggleTwice(settings: seq<Setting>, id: string)
    ensures ToggleSetting(ToggleSetting(settings, id), id) == settings
  {
    var r := ToggleSetting(ToggleSetting(settings, id), id);
    assert forall i :: 0 <= i < |settings| ==> r[i] == settings[i];
  }

  /** An id no entry carries leaves the list unchanged. */
  lemma ToggleUnknownId(settings: seq<Setting>, id: string)
    requires forall i :: 0 <= i < |settings| ==> settings[i].id != id
    ensures ToggleSetting(settings, id) == settings
  {
  }

  /** Flipping two different switches gives the same list in either order. */
  lemma ToggleCommutes(settings: seq<Setting>, a: string, b: string)
    ensures ToggleSetting(ToggleSetting(settings, a), b) == ToggleSetting(ToggleSetting(settings, b), a)
  {
    var x, y := ToggleSetting(ToggleSetting(settings, a), b), ToggleSetting(ToggleSetting(settings, b), a);
    assert forall i :: 0 <= i < |settings| ==> x[i] == y[i];
  }

  /** Whether the (first) entry with this id is on; an unknown id reads as off. */
  function IsEnabled(settings: seq<Setting>, id: string): bool {
    if settings == [] then false
    else if settings[0].id == id then settings[0].enabled
    else IsEnabled(settings[1..], id)
  }

  /** Toggling `id` flips what `id` reads as, when `id` is present, and no other id's reading. */
  lemma {:induction false} ToggleFlipsReading(settings: seq<Setting>, id: string, other: string)
    requires exists i :: 0 <= i < |settings| && settings[i].id == id
    ensures IsEnabled(ToggleSetting(settings, id), id) == !IsEnabled(settings, id)
    ensures other != id ==> IsEnabled(ToggleSetting(settings, id), other) == IsEnabled(settings, other)
  {
    var r := ToggleSetting(settings, id);
    assert r[1..] == ToggleSetting(settings[1..], id);
    if settings[0].id != id {
      var i :| 0 <= i < |settings| && settings[i].id == id;
      assert settings[1..][i - 1].id == id;
      ToggleFlipsReading(settings[1..], id, other);
    } else if other != id {
      ToggleKeepsOther(settings[1..], id, other);
    }
  }

  lemma {:induction false} ToggleKeepsOther(settings: seq<Setting>, id: string, other: string)
    requires other != id
    ensures IsEnabled(ToggleSetting(settings, id), other) == IsEnabled(settings, other)
  {
    if settings != [] {
      var r := ToggleSetting(settings, id);
      assert r[1..] == ToggleSetting(settings[1..], id);
      ToggleKeepsOther(settings[1..], id, other);
    }
  }
}
