/**
 * A JavaScript `Map<string, string>`: entries in insertion order, one per key.
 * `set` on a present key replaces its value where it stands; on a new key it
 * appends.  Used for the wizard's character assignments and a story's
 * character-to-player mapping.
 */
module OrderedMap {
  import opened Wrappers

  type Entries = seq<(string, string)>

  /** Every key occurs once, as in any JavaScript Map. */
  predicate DistinctKeys(m: Entries) {
    forall i, j :: 0 <= i < j < |m| ==> m[i].0 != m[j].0
  }

  /** `Array.from(m.keys())`: the keys in insertion order. */
  function Keys(m: Entries): (ks: seq<string>)
    ensures |ks| == |m| && forall i :: 0 <= i < |m| ==> ks[i] == m[i].0
  {
    if m == [] then [] else [m[0].0] + Keys(m[1..])
  }

  /** `m.get(k)`. */
  function Get(m: Entries, k: string): (r: Option<string>)
    ensures r.None? <==> k !in Keys(m)
    ensures r.Some? ==> (k, r.value) in m
  {
    if m == [] then None
    else if m[0].0 == k then Some(m[0].1)
    else Get(m[1..], k)
  }

  /** `m.set(k, v)`. */
  function Set(m: Entries, k: string, v: string): Entries {
    if m == [] then [(k, v)]
    else if m[0].0 == k then [(k, v)] + m[1..]
    else [m[0]] + Set(m[1..], k, v)
  }

  /** After `set`, the key reads back the new value and every other key its old one. */
  lemma {:induction false} GetAfterSet(m: Entries, k: string, v: string, q: string)
    ensures Get(Set(m, k, v), q) == if q == k then Some(v) else Get(m, q)
  {
    if m != [] && m[0].0 != k {
      GetAfterSet(m[1..], k, v, q);
    }
  }

  /** `set` keeps the order of the keys and appends a key it has not seen. */
  lemma {:induction false} KeysAfterSet(m: Entries, k: string, v: string)
    ensures Keys(Set(m, k, v)) == if k in Keys(m) then Keys(m) else Keys(m) + [k]
  {
    if m != [] && m[0].0 != k {
      KeysAfterSet(m[1..], k, v);
      assert Keys(m) == [m[0].0] + Keys(m[1..]);
    }
  }

  /** `set` keeps keys distinct. */
  lemma SetKeepsDistinct(m: Entries, k: string, v: string)
    requires DistinctKeys(m)
    ensures DistinctKeys(Set(m, k, v))
  {
    KeysAfterSet(m, k, v);
    var r := Set(m, k, v);
    assert Keys(r) == if k in Keys(m) then Keys(m) else Keys(m) + [k];
    forall i, j | 0 <= i < j < |r| ensures r[i].0 != r[j].0 {
      assert Keys(r)[i] == r[i].0 && Keys(r)[j] == r[j].0;
      if k !in Keys(m) && j == |m| {
        assert Keys(m)[i] == m[i].0;
      } else {
        assert Keys(m)[i] == m[i].0 && Keys(m)[j] == m[j].0;
      }
    }
  }

  /** Setting a new key appends its entry. */
  lemma {:induction false} SetNewKeyAppends(m: Entries, k: string, v: string)
    requires k !in Keys(m)
    ensures Set(m, k, v) == m + [(k, v)]
  {
    if m != [] {
      assert Keys(m) == [m[0].0] + Keys(m[1..]);
      SetNewKeyAppends(m[1..], k, v);
      assert [m[0]] + (m[1..] + [(k, v)]) == m + [(k, v)];
    }
  }
}
