/**
 * The `reduce` that the shift screens use to sort fetched rows into status buckets:
 *
 *   data.reduce((acc, row) => keep(status) ? { ...acc, [status]: [...(acc[status] || []), view(row)] } : acc, seed)
 *
 * ManageShifts keeps every row; MyShifts keeps three statuses only.  Both are this
 * fold with a different `keep`, `view` and seed.
 */
module Grouping {

  type Buckets<V> = map<string, seq<V>>

  /** `acc[key] || []` */
  function Bucket<V>(m: Buckets<V>, key: string): seq<V> {
    if key in m then m[key] else []
  }

  /** The fold, left to right as `reduce` runs. */
  function GroupBy<R, V>(data: seq<R>, seed: Buckets<V>, keyOf: R -> string, keep: string -> bool, view: R -> V): (r: Buckets<V>)
    ensures seed.Keys <= r.Keys
    ensures forall k :: !keep(k) ==> Bucket(r, k) == Bucket(seed, k)
  {
    if data == [] then seed
    else
      var acc := GroupBy(data[..|data| - 1], seed, keyOf, keep, view);
      var row := data[|data| - 1];
      var k := keyOf(row);
      if keep(k) then acc[k := Bucket(acc, k) + [view(row)]] else acc
  }

  /** Reference: the views of the rows whose key is `k`, in their original order. */
  function Selected<R, V>(data: seq<R>, keyOf: R -> string, k: string, view: R -> V): (s: seq<V>)
    ensures |s| <= |data|
  {
    if data == [] then []
    else (if keyOf(data[0]) == k then [view(data[0])] else []) + Selected(data[1..], keyOf, k, view)
  }

  /** The keys of kept rows. */
  function KeptKeys<R>(data: seq<R>, keyOf: R -> string, keep: string -> bool): set<string> {
    set i | 0 <= i < |data| && keep(keyOf(data[i])) :: keyOf(data[i])
  }

  lemma {:induction false} SelectedAppend<R, V>(a: seq<R>, b: seq<R>, keyOf: R -> string, k: string, view: R -> V)
    ensures Selected(a + b, keyOf, k, view) == Selected(a, keyOf, k, view) + Selected(b, keyOf, k, view)
  {
    if a == [] {
      assert a + b == b;
    } else {
      var head := if keyOf(a[0]) == k then [view(a[0])] else [];
      assert (a + b)[0] == a[0];
      assert (a + b)[1..] == a[1..] + b;
      assert Selected(a + b, keyOf, k, view) == head + Selected(a[1..] + b, keyOf, k, view);
      SelectedAppend(a[1..], b, keyOf, k, view);
      assert Selected(a, keyOf, k, view) == head + Selected(a[1..], keyOf, k, view);
    }
  }

  /**
   * Every bucket of the result is its seed plus, when the key is kept, the views of
   * exactly the rows carrying that key, in fetch order.
   */
  lemma {:induction false} GroupByBucket<R, V>(data: seq<R>, seed: Buckets<V>, keyOf: R -> string, keep: string -> bool, view: R -> V, k: string)
    ensures Bucket(GroupBy(data, seed, keyOf, keep, view), k)
         == Bucket(seed, k) + (if keep(k) then Selected(data, keyOf, k, view) else [])
  {
    if data != [] {
      var init, row := data[..|data| - 1], data[|data| - 1];
      var acc := GroupBy(init, seed, keyOf, keep, view);
      GroupByBucket(init, seed, keyOf, keep, view, k);
      SelectedAppend(init, [row], keyOf, k, view);
      assert init + [row] == data;
      var last := if keyOf(row) == k then [view(row)] else [];
      assert Selected([row], keyOf, k, view) == last + Selected([row][1..], keyOf, k, view);
      assert Selected([row], keyOf, k, view) == last;
      var g := GroupBy(data, seed, keyOf, keep, view);
      if keep(keyOf(row)) {
        assert g == acc[keyOf(row) := Bucket(acc, keyOf(row)) + [view(row)]];
        if keyOf(row) == k {
          assert Bucket(g, k) == Bucket(acc, k) + [view(row)];
        } else {
          assert Bucket(g, k) == Bucket(acc, k);
        }
      } else {
        assert g == acc;
      }
    }
  }

  /** The buckets present are those of the seed and those of the kept rows. */
  lemma {:induction false} GroupByKeys<R, V>(data: seq<R>, seed: Buckets<V>, keyOf: R -> string, keep: string -> bool, view: R -> V)
    ensures GroupBy(data, seed, keyOf, keep, view).Keys == seed.Keys + KeptKeys(data, keyOf, keep)
  {
    if data != [] {
      var init, row := data[..|data| - 1], data[|data| - 1];
      GroupByKeys(init, seed, keyOf, keep, view);
      assert init + [row] == data;
      KeptKeysSnoc(init, row, keyOf, keep);
    }
  }

  lemma KeptKeysSnoc<R>(init: seq<R>, row: R, keyOf: R -> string, keep: string -> bool)
    ensures KeptKeys(init + [row], keyOf, keep)
         == KeptKeys(init, keyOf, keep) + (if keep(keyOf(row)) then {keyOf(row)} else {})
  {
    var data := init + [row];
    forall x | x in KeptKeys(data, keyOf, keep)
      ensures x in KeptKeys(init, keyOf, keep) + (if keep(keyOf(row)) then {keyOf(row)} else {})
    {
      var i :| 0 <= i < |data| && keep(keyOf(data[i])) && keyOf(data[i]) == x;
      if i < |init| {
        assert data[i] == init[i];
      }
    }
    forall x | x in KeptKeys(init, keyOf, keep)
      ensures x in KeptKeys(data, keyOf, keep)
    {
      var i :| 0 <= i < |init| && keep(keyOf(init[i])) && keyOf(init[i]) == x;
      assert data[i] == init[i];
    }
    if keep(keyOf(row)) {
      assert data[|init|] == row;
    }
  }

  /** How many of `keys` equal `k`. */
  function Occurrences(keys: seq<string>, k: string): nat {
    if keys == [] then 0 else (if keys[0] == k then 1 else 0) + Occurrences(keys[1..], k)
  }

  /** Sum over `keys` of the number of rows carrying each key. */
  function TotalSelected<R, V>(data: seq<R>, keyOf: R -> string, view: R -> V, keys: seq<string>): nat {
    if keys == [] then 0
    else |Selected(data, keyOf, keys[0], view)| + TotalSelected(data, keyOf, view, keys[1..])
  }

  lemma {:induction false} OccurrencesDistinct(keys: seq<string>, k: string)
    requires forall i, j :: 0 <= i < j < |keys| ==> keys[i] != keys[j]
    ensures Occurrences(keys, k) == if k in keys then 1 else 0
  {
    if keys != [] {
      OccurrencesDistinct(keys[1..], k);
      assert k in keys <==> k == keys[0] || k in keys[1..];
      if k == keys[0] {
        assert forall j :: 0 <= j < |keys[1..]| ==> keys[1..][j] == keys[j + 1] != keys[0];
      }
    }
  }

  lemma {:induction false} TotalSelectedCons<R, V>(data: seq<R>, keyOf: R -> string, view: R -> V, keys: seq<string>)
    requires data != []
    ensures TotalSelected(data, keyOf, view, keys)
         == Occurrences(keys, keyOf(data[0])) + TotalSelected(data[1..], keyOf, view, keys)
  {
    if keys != [] {
      TotalSelectedCons(data, keyOf, view, keys[1..]);
    }
  }

  /**
   * When the keys are distinct and every row's key is among them, the selections for
   * those keys together hold exactly as many entries as there are rows.
   */
  lemma {:induction false} SelectionsPartition<R, V>(data: seq<R>, keyOf: R -> string, view: R -> V, keys: seq<string>)
    requires forall i, j :: 0 <= i < j < |keys| ==> keys[i] != keys[j]
    requires forall i :: 0 <= i < |data| ==> keyOf(data[i]) in keys
    ensures TotalSelected(data, keyOf, view, keys) == |data|
  {
    if data == [] {
      TotalSelectedNil(keyOf, view, keys);
    } else {
      TotalSelectedCons(data, keyOf, view, keys);
      OccurrencesDistinct(keys, keyOf(data[0]));
      assert forall i :: 0 <= i < |data[1..]| ==> data[1..][i] == data[i + 1];
      SelectionsPartition(data[1..], keyOf, view, keys);
    }
  }

  lemma {:induction false} TotalSelectedNil<R, V>(keyOf: R -> string, view: R -> V, keys: seq<string>)
    ensures TotalSelected([], keyOf, view, keys) == 0
  {
    if keys != [] {
      TotalSelectedNil(keyOf, view, keys[1..]);
    }
  }
}
