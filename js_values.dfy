/** The JavaScript value conventions the confirmation container relies on:
    absent fields, truthiness of strings, `||`, plain objects enumerated in
    key order, and `Object.keys(o).reduce((acc, k) => ({...acc, [f(k)]: o[k]}), {})`. */
module JsValues {

  /** A field that may be absent (`undefined`). */
  datatype Option<+T> = None | Some(value: T) {
    function GetOr(default: T): T {
      if Some? then value else default
    }
  }

  /** An outcome that may be a thrown error. */
  datatype Result<+T, +E> = Success(value: T) | Failure(error: E)

  /** A string field is truthy when it is present and not empty. */
  predicate Truthy(s: Option<string>) {
    s.Some? && s.value != ""
  }

  /** `a || b` on string fields. */
  function Or(a: Option<string>, b: Option<string>): Option<string> {
    if Truthy(a) then a else b
  }

  /** A plain object, as its own enumerable entries in enumeration order. */
  type Entries<V> = seq<(string, V)>

  predicate DistinctKeys<V>(obj: Entries<V>) {
    forall i, j :: 0 <= i < j < |obj| ==> obj[i].0 != obj[j].0
  }

  /** An object with distinct keys has as many distinct entries as entries. */
  lemma {:induction false} DistinctEntriesCount<V>(obj: Entries<V>)
    requires DistinctKeys(obj)
    ensures |set e | e in obj| == |obj|
  {
    if obj != [] {
      var rest := obj[1..];
      DistinctEntriesCount(rest);
      assert (set e | e in obj) == {obj[0]} + (set e | e in rest);
      assert obj[0] !in rest by {
        forall j | 0 <= j < |rest| ensures rest[j] != obj[0] {
          assert rest[j] == obj[j + 1];
        }
      }
    }
  }

  /** `Object.values(obj)`, in the same order. */
  function Values<V>(obj: Entries<V>): (r: seq<V>)
    ensures |r| == |obj|
    ensures forall i :: 0 <= i < |obj| ==> r[i] == obj[i].1
  {
    seq(|obj|, i requires 0 <= i < |obj| => obj[i].1)
  }

  /** `String.prototype.toLowerCase` on the ASCII letters. */
  function LowerChar(c: char): char {
    if 'A' <= c <= 'Z' then (c as int + 32) as char else c
  }

  function Lower(s: string): (r: string)
    ensures |r| == |s|
    ensures forall i :: 0 <= i < |s| ==> r[i] == LowerChar(s[i])
  {
    seq(|s|, i requires 0 <= i < |s| => LowerChar(s[i]))
  }

  lemma LowerIdempotent(s: string)
    ensures Lower(Lower(s)) == Lower(s)
  {
    assert forall i :: 0 <= i < |s| ==> LowerChar(LowerChar(s[i])) == LowerChar(s[i]);
  }

  function SameKey(k: string): string { k }

  /** Entry `i` is the last one of `obj` whose key `key` sends to `k`. */
  predicate LastWrite<V>(obj: Entries<V>, key: string -> string, k: string, i: int) {
    && 0 <= i < |obj|
    && key(obj[i].0) == k
    && forall j :: i < j < |obj| ==> key(obj[j].0) != k
  }

  /** The object built by folding over the entries of `obj` and storing each
      value under `key` of its key; a later entry overwrites an earlier one. */
  function Rekey<V>(obj: Entries<V>, key: string -> string): (r: map<string, V>)
    ensures forall i :: 0 <= i < |obj| ==> key(obj[i].0) in r
  {
    if obj == [] then map[]
    else
      var last := obj[|obj| - 1];
      Rekey(obj[..|obj| - 1], key)[key(last.0) := last.1]
  }

  /** The re-keyed object has no key that no entry was written to. */
  lemma {:induction false} RekeyOnlyWrittenKeys<V>(obj: Entries<V>, key: string -> string, k: string)
    requires k in Rekey(obj, key)
    ensures exists i :: 0 <= i < |obj| && key(obj[i].0) == k
  {
    var n := |obj| - 1;
    if key(obj[n].0) != k {
      RekeyOnlyWrittenKeys(obj[..n], key, k);
      var i :| 0 <= i < n && key(obj[..n][i].0) == k;
      assert obj[..n][i] == obj[i];
    }
  }

  /** A key no entry was written to is not in the re-keyed object. */
  lemma {:induction false} RekeyMisses<V>(obj: Entries<V>, key: string -> string, k: string)
    requires forall i :: 0 <= i < |obj| ==> key(obj[i].0) != k
    ensures k !in Rekey(obj, key)
  {
    if obj != [] {
      var prefix := obj[..|obj| - 1];
      assert forall i :: 0 <= i < |prefix| ==> prefix[i] == obj[i];
      RekeyMisses(prefix, key, k);
    }
  }

  /** Every key of the re-keyed object holds the value of the last entry written to it. */
  lemma {:induction false} RekeyLastWrite<V>(obj: Entries<V>, key: string -> string, i: int)
    requires 0 <= i < |obj| && LastWrite(obj, key, key(obj[i].0), i)
    ensures Rekey(obj, key)[key(obj[i].0)] == obj[i].1
  {
    var n := |obj| - 1;
    if i < n {
      var prefix := obj[..n];
      assert key(obj[n].0) != key(obj[i].0);
      assert LastWrite(prefix, key, key(prefix[i].0), i) by {
        forall j | i < j < |prefix| ensures key(prefix[j].0) != key(obj[i].0) {
          assert prefix[j] == obj[j];
        }
      }
      RekeyLastWrite(prefix, key, i);
    }
  }

  /** When no two keys collide under `key`, every entry survives under its new key. */
  lemma RekeyInjective<V>(obj: Entries<V>, key: string -> string, i: int)
    requires 0 <= i < |obj|
    requires forall a, b :: 0 <= a < b < |obj| ==> key(obj[a].0) != key(obj[b].0)
    ensures key(obj[i].0) in Rekey(obj, key)
    ensures Rekey(obj, key)[key(obj[i].0)] == obj[i].1
  {
    RekeyLastWrite(obj, key, i);
  }

  /** With the identity key and distinct keys, the re-keyed object is the object itself. */
  lemma RekeyIdentity<V>(obj: Entries<V>, k: string, v: V)
    requires DistinctKeys(obj)
    ensures k in Rekey(obj, SameKey) <==> exists i :: 0 <= i < |obj| && obj[i].0 == k
    ensures (k, v) in obj ==> k in Rekey(obj, SameKey) && Rekey(obj, SameKey)[k] == v
  {
    if k in Rekey(obj, SameKey) {
      RekeyOnlyWrittenKeys(obj, SameKey, k);
    }
    if (k, v) in obj {
      var i :| 0 <= i < |obj| && obj[i] == (k, v);
      RekeyInjective(obj, SameKey, i);
    }
  }
}
