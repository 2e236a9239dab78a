/**
 * The Python values that flow through the backend: decoded JSON bodies,
 * database row cells and token claims.  `Timestamp` stands for a
 * `datetime` cell read from the database, carrying the text `isoformat()`
 * would give.
 */
module Values {
  import opened Wrappers

  datatype Value =
    | Null
    | Bool(b: bool)
    | Num(n: real)
    | Str(s: string)
    | List(items: seq<Value>)
    | Dict(entries: map<string, Value>)
    | Timestamp(iso: string)

  /** Python's truth value of a value (`bool(v)`, `if v:`, `not v`). */
  predicate Truthy(v: Value) {
    match v
    case Null => false
    case Bool(b) => b
    case Num(n) => n != 0.0
    case Str(s) => s != ""
    case List(items) => items != []
    case Dict(entries) => entries != map[]
    case Timestamp(_) => true
  }

  /** `d.get(k)`: the value stored under `k`, or `None` when the key is absent. */
  function Get(d: map<string, Value>, k: string): (v: Value)
    ensures k !in d ==> v == Null
    ensures k in d ==> v == d[k]
  {
    if k in d then d[k] else Null
  }

  /**
   * `cell.isoformat() if cell else None`: a false-y cell becomes None, a
   * datetime its ISO text; any other truthy cell has no `isoformat` and
   * raises (None here).
   */
  function IsoFormat(cell: Value): (r: Option<Value>)
    ensures !Truthy(cell) ==> r == Some(Null)
    ensures cell.Timestamp? ==> r == Some(Str(cell.iso))
    ensures r.None? <==> Truthy(cell) && !cell.Timestamp?
  {
    if !Truthy(cell) then Some(Null)
    else if cell.Timestamp? then Some(Str(cell.iso))
    else None
  }

  /** `v.get(k)` on a dict; any other value has no fields. */
  function Field(v: Value, k: string): (r: Value)
    ensures v.Dict? ==> r == Get(v.entries, k)
    ensures !v.Dict? ==> r == Null
  {
    if v.Dict? then Get(v.entries, k) else Null
  }

  /**
   * The entries of `cols` that are keys of `d`, in the order of `cols`:
   * what `[c for c in cols if c in d]` gives.
   */
  function KeysPresent(cols: seq<string>, d: map<string, Value>): (r: seq<string>)
    ensures |r| <= |cols|
    ensures forall k :: 0 <= k < |r| ==> r[k] in d
    ensures r == [] <==> forall k :: 0 <= k < |cols| ==> cols[k] !in d
  {
    if cols == [] then []
    else
      var init := cols[..|cols| - 1];
      var last := cols[|cols| - 1];
      assert forall k :: 0 <= k < |init| ==> init[k] == cols[k];
      KeysPresent(init, d) + (if last in d then [last] else [])
  }

  /** The selection holds exactly the columns of `cols` that are keys of `d`. */
  lemma {:induction false} KeysPresentMembers(cols: seq<string>, d: map<string, Value>)
    ensures forall c :: c in KeysPresent(cols, d) <==> c in cols && c in d
    decreases |cols|
  {
    if cols != [] {
      var init, last := cols[..|cols| - 1], cols[|cols| - 1];
      KeysPresentMembers(init, d);
      InitLast(cols);
    }
  }

  /** One more column: the selection grows by that column exactly when it is present. */
  lemma KeysPresentStep(cols: seq<string>, i: nat, d: map<string, Value>)
    requires i < |cols|
    ensures KeysPresent(cols[..i + 1], d) == KeysPresent(cols[..i], d) + (if cols[i] in d then [cols[i]] else [])
  {
    assert cols[..i + 1][..i] == cols[..i];
  }

  /** Selecting keys respects concatenation: the selection keeps the order of `cols`. */
  lemma {:induction false} KeysPresentAppend(a: seq<string>, b: seq<string>, d: map<string, Value>)
    ensures KeysPresent(a + b, d) == KeysPresent(a, d) + KeysPresent(b, d)
    decreases |b|
  {
    if b == [] {
      assert a + b == a;
    } else {
      var b' := b[..|b| - 1];
      assert (a + b)[..|a + b| - 1] == a + b';
      KeysPresentAppend(a, b', d);
    }
  }

  /** When every column is present, the selection is the whole list. */
  lemma {:induction false} KeysPresentAll(cols: seq<string>, d: map<string, Value>)
    requires forall k :: 0 <= k < |cols| ==> cols[k] in d
    ensures KeysPresent(cols, d) == cols
    decreases |cols|
  {
    if cols != [] {
      var init, last := cols[..|cols| - 1], cols[|cols| - 1];
      assert forall k :: 0 <= k < |init| ==> init[k] == cols[k];
      KeysPresentAll(init, d);
      assert last in d;
      InitLast(cols);
    }
  }

  /** Only the keys named in `cols` influence the selection. */
  lemma {:induction false} KeysPresentIgnoresOthers(cols: seq<string>, d: map<string, Value>, e: map<string, Value>)
    requires forall k :: 0 <= k < |cols| ==> (cols[k] in d <==> cols[k] in e)
    ensures KeysPresent(cols, d) == KeysPresent(cols, e)
    decreases |cols|
  {
    if cols != [] {
      KeysPresentIgnoresOthers(cols[..|cols| - 1], d, e);
    }
  }
}
