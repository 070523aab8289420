/**
 * Loosely typed rows, as the registration and profile screens build them with object
 * spreads (`{ ...prev, [field]: value }`), and the remote tables that hold such rows
 * (`careworkers`, `carehomes`).  A table is a sequence of rows; `insert` appends and
 * `update(...).eq(key, v)` patches every row whose `key` field equals `v`.
 */
module Records {

  /** The JavaScript values that appear in form state and rows. */
  datatype Value =
    | Undefined
    | Null
    | Text(text: string)
    | Flag(flag: bool)
    | Number(number: real)
    | FileRef(fileName: string)
    | FileList(fileNames: seq<string>)

  type Record = map<string, Value>

  /** `r[field]`: a missing property reads as `undefined`. */
  function Get(r: Record, field: string): Value {
    if field in r then r[field] else Undefined
  }

  /** JavaScript truthiness; a file or file list is an object and so always truthy. */
  predicate Truthy(v: Value) {
    match v
    case Undefined => false
    case Null => false
    case Text(t) => t != ""
    case Flag(b) => b
    case Number(x) => x != 0.0
    case FileRef(_) => true
    case FileList(_) => true
  }

  /** `{ ...r, [field]: v }`: only the named property changes (and is added when missing). */
  function SetField(r: Record, field: string, v: Value): (r': Record)
    ensures r'.Keys == r.Keys + {field}
    ensures Get(r', field) == v
    ensures forall k :: k != field ==> Get(r', k) == Get(r, k)
  {
    r[field := v]
  }

  /** `{ ...r, ...patch }`: properties of the patch win. */
  function Spread(r: Record, patch: Record): (r': Record)
    ensures r'.Keys == r.Keys + patch.Keys
    ensures forall k :: k in patch ==> Get(r', k) == patch[k]
    ensures forall k :: k !in patch ==> Get(r', k) == Get(r, k)
  {
    r + patch
  }

  /** `update(patch).eq(key, v)` on a table: every matching row takes the patch, the rest stay. */
  function UpdateWhere(rows: seq<Record>, key: string, v: Value, patch: Record): (r: seq<Record>)
    ensures |r| == |rows|
    ensures forall i :: 0 <= i < |rows| && Get(rows[i], key) != v ==> r[i] == rows[i]
    ensures forall i, k :: 0 <= i < |rows| && Get(rows[i], key) == v ==>
      Get(r[i], k) == if k in patch then patch[k] else Get(rows[i], k)
  {
    seq(|rows|, i requires 0 <= i < |rows| => if Get(rows[i], key) == v then Spread(rows[i], patch) else rows[i])
  }

  /** Number of rows whose `key` field equals `v` and whose `key2` field equals `v2`. */
  function CountWhere2(rows: seq<Record>, key: string, v: Value, key2: string, v2: Value): (n: nat)
    ensures n <= |rows|
    ensures n == 0 <==> forall i :: 0 <= i < |rows| ==> !(Get(rows[i], key) == v && Get(rows[i], key2) == v2)
  {
    if rows == [] then 0
    else (if Get(rows[0], key) == v && Get(rows[0], key2) == v2 then 1 else 0)
         + CountWhere2(rows[1..], key, v, key2, v2)
  }

  /** At most one row carries `v` in its `key` field. */
  predicate KeyUnique(rows: seq<Record>, key: string, v: Value) {
    forall i, j :: 0 <= i < j < |rows| && Get(rows[i], key) == v ==> Get(rows[j], key) != v
  }

  /** When the first column is unique, a two-column match can hold for one row at most. */
  lemma {:induction false} CountWhere2Unique(rows: seq<Record>, key: string, v: Value, key2: string, v2: Value)
    requires KeyUnique(rows, key, v)
    ensures CountWhere2(rows, key, v, key2, v2) <= 1
  {
    if rows != [] {
      var tail := rows[1..];
      assert forall i :: 0 <= i < |tail| ==> tail[i] == rows[i + 1];
      if Get(rows[0], key) == v {
        assert forall i :: 0 <= i < |tail| ==> Get(tail[i], key) != v;
      } else {
        CountWhere2Unique(tail, key, v, key2, v2);
      }
    }
  }

  /** A remote table of loosely typed rows. */
  class RecordTable {
    var rows: seq<Record>

    constructor (initial: seq<Record>)
      ensures rows == initial
    {
      rows := initial;
    }

    /** `insert([row])`; a failing request leaves the table as it was. */
    method Insert(row: Record, fails: bool) returns (ok: bool)
      modifies this
      ensures ok == !fails
      ensures rows == if fails then old(rows) else old(rows) + [row]
    {
      ok := !fails;
      if ok {
        rows := rows + [row];
      }
    }

    /** `update(patch).eq(key, v)`; a failing request leaves the table as it was. */
    method Update(key: string, v: Value, patch: Record, fails: bool) returns (ok: bool)
      modifies this
      ensures ok == !fails
      ensures rows == if fails then old(rows) else UpdateWhere(old(rows), key, v, patch)
    {
      ok := !fails;
      if ok {
        rows := UpdateWhere(rows, key, v, patch);
      }
    }
  }
}
