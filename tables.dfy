/**
  A Python `dict` from strings to strings, as the application declares its
  lookup tables: a literal whose insertion order is the iteration order.
  A table is modelled as its sequence of (key, value) pairs in that order;
  the tables of the application never repeat a key, so the first pair with
  a key is the one `dict` lookup finds.
 */
module Tables {
  import opened Wrappers
  import opened Text

  type Table = seq<(string, string)>

  /** The position of `k` in `t`: what `k in t` and `t[k]` look for. */
  function KeyIndex(t: Table, k: string): (r: Option<nat>)
    ensures r.Some? ==> r.value < |t| && t[r.value].0 == k
    ensures r.Some? ==> forall j :: 0 <= j < r.value ==> t[j].0 != k
    ensures r.None? <==> forall j :: 0 <= j < |t| ==> t[j].0 != k
  {
    if t == [] then None
    else if t[0].0 == k then Some(0)
    else match KeyIndex(t[1..], k)
      case Some(i) => Some(i + 1)
      case None => None
  }

  /** `t.get(k, d)`. */
  function GetOr(t: Table, k: string, d: string): string
  {
    match KeyIndex(t, k)
    case Some(i) => t[i].1
    case None => d
  }

  /** The first position, in iteration order, whose value is `v`: the loop
      `for key, value in t.items(): if value == v: return key`. */
  function ValueIndex(t: Table, v: string): (r: Option<nat>)
    ensures r.Some? ==> r.value < |t| && t[r.value].1 == v
    ensures r.Some? ==> forall j :: 0 <= j < r.value ==> t[j].1 != v
    ensures r.None? <==> forall j :: 0 <= j < |t| ==> t[j].1 != v
  {
    if t == [] then None
    else if t[0].1 == v then Some(0)
    else match ValueIndex(t[1..], v)
      case Some(i) => Some(i + 1)
      case None => None
  }

  /** The first position, in iteration order, whose key occurs in `text`:
      the loop `for key in t: if key in text: ... break`. */
  function ContainedKeyIndex(t: Table, text: string): (r: Option<nat>)
    ensures r.Some? ==> r.value < |t| && Contains(text, t[r.value].0)
    ensures r.Some? ==> forall j :: 0 <= j < r.value ==> !Contains(text, t[j].0)
    ensures r.None? <==> forall j :: 0 <= j < |t| ==> !Contains(text, t[j].0)
  {
    if t == [] then None
    else if Contains(text, t[0].0) then Some(0)
    else match ContainedKeyIndex(t[1..], text)
      case Some(i) => Some(i + 1)
      case None => None
  }

  /** `i` is the first position of `t` holding key `k`. */
  predicate FirstKeyAt(t: Table, k: string, i: nat)
  {
    i < |t| && t[i].0 == k && forall j :: 0 <= j < i ==> t[j].0 != k
  }

  /** `i` is the first position of `t` holding value `v`. */
  predicate FirstValueAt(t: Table, v: string, i: nat)
  {
    i < |t| && t[i].1 == v && forall j :: 0 <= j < i ==> t[j].1 != v
  }

  /** Python's `k in t`. */
  predicate HasKey(t: Table, k: string)
  {
    exists i :: 0 <= i < |t| && t[i].0 == k
  }

  /** Some entry of `t` has value `v`. */
  predicate HasValue(t: Table, v: string)
  {
    exists i :: 0 <= i < |t| && t[i].1 == v
  }

  /** `t.get(k, d)` is the value stored under the key when there is one, and
      `d` exactly when the key is absent. */
  lemma GetOrSpec(t: Table, k: string, d: string)
    ensures forall i: nat :: FirstKeyAt(t, k, i) ==> GetOr(t, k, d) == t[i].1
    ensures !HasKey(t, k) ==> GetOr(t, k, d) == d
  {
    forall i: nat | FirstKeyAt(t, k, i) ensures KeyIndex(t, k) == Some(i) {
      FirstKeyUnique(t, k, i);
    }
  }

  /** The first position of a key is the one `KeyIndex` finds. */
  lemma FirstKeyUnique(t: Table, k: string, i: nat)
    requires FirstKeyAt(t, k, i)
    ensures KeyIndex(t, k) == Some(i)
  {
    var r := KeyIndex(t, k);
    assert t[i].0 == k;
  }

  /** The first position of a value is the one `ValueIndex` finds. */
  lemma FirstValueUnique(t: Table, v: string, i: nat)
    requires FirstValueAt(t, v, i)
    ensures ValueIndex(t, v) == Some(i)
  {
    var r := ValueIndex(t, v);
    assert t[i].1 == v;
  }

  /** The reverse lookup `for key, value in t.items(): if value == v: return key`,
      falling back to `d`: the key of the first entry holding `v`, and `d`
      exactly when no entry holds it. */
  function ReverseGetOr(t: Table, v: string, d: string): (r: string)
    ensures forall i: nat :: FirstValueAt(t, v, i) ==> r == t[i].0
    ensures !HasValue(t, v) ==> r == d
  {
    forall i: nat | FirstValueAt(t, v, i) ensures ValueIndex(t, v) == Some(i) {
      FirstValueUnique(t, v, i);
    }
    match ValueIndex(t, v)
    case Some(i) => t[i].0
    case None => d
  }

  /** Looking a key up and then looking its value up in reverse gives the key
      back, provided no earlier entry has the same value. */
  lemma NameRoundTrip(t: Table, i: nat)
    requires i < |t|
    requires FirstKeyAt(t, t[i].0, i)
    requires forall j :: 0 <= j < i ==> t[j].1 != t[i].1
    ensures var v := GetOr(t, t[i].0, t[i].0); ReverseGetOr(t, v, v) == t[i].0
  {
    GetOrSpec(t, t[i].0, t[i].0);
    assert FirstValueAt(t, t[i].1, i);
  }
}
