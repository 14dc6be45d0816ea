/** Searches over sequences and filters over maps, shared by the entities and
    the in-memory repositories. */
module Collections {
  import opened Outcomes

  /** Index of the first element of `s` satisfying `p`: what the source's
      `for i, x := range s { if p(x) { ...; return } }` search loops find. */
  function FirstIndex<T>(s: seq<T>, p: T -> bool): (r: Option<nat>)
    ensures r.Some? ==> r.value < |s| && p(s[r.value])
    ensures r.Some? ==> forall j :: 0 <= j < r.value ==> !p(s[j])
    ensures r.None? <==> forall j :: 0 <= j < |s| ==> !p(s[j])
    decreases |s|
  {
    if |s| == 0 then None
    else if p(s[0]) then Some(0)
    else match FirstIndex(s[1..], p)
      case None => None
      case Some(i) => Some(i + 1)
  }

  /** An index whose element satisfies `p` and has none before it is the one
      FirstIndex finds. */
  lemma FirstIndexIs<T>(s: seq<T>, p: T -> bool, i: nat)
    requires i < |s| && p(s[i])
    requires forall j :: 0 <= j < i ==> !p(s[j])
    ensures FirstIndex(s, p) == Some(i)
  {
  }

  /** The keys of `m` whose entry satisfies `p`. */
  ghost function KeysWhere<T>(m: map<string, T>, p: T -> bool): set<string>
  {
    set k | k in m && p(m[k])
  }

  /** The entries of `m` satisfying `p`, each exactly once, in an unspecified
      order: what the repositories' `for _, x := range m { if p(x) { append } }`
      loops return (Go iterates over a map in no fixed order). `keys[i]` is the
      key under which `r[i]` is stored. */
  method Select<T>(m: map<string, T>, p: T -> bool) returns (r: seq<T>, ghost keys: seq<string>)
    ensures |keys| == |r|
    ensures forall i :: 0 <= i < |r| ==> keys[i] in m && m[keys[i]] == r[i] && p(r[i])
    ensures forall i, j :: 0 <= i < j < |keys| ==> keys[i] != keys[j]
    ensures forall k :: k in m && p(m[k]) ==> k in keys
    ensures |r| == |KeysWhere(m, p)|
  {
    r, keys := [], [];
    var rest := m.Keys;
    while rest != {}
      invariant rest <= m.Keys
      invariant |keys| == |r|
      invariant forall i :: 0 <= i < |r| ==> keys[i] in m && m[keys[i]] == r[i] && p(r[i])
      invariant forall i :: 0 <= i < |keys| ==> keys[i] !in rest
      invariant forall i, j :: 0 <= i < j < |keys| ==> keys[i] != keys[j]
      invariant forall k :: k in m && k !in rest && p(m[k]) ==> k in keys
      decreases |rest|
    {
      var k :| k in rest;
      if p(m[k]) {
        r, keys := r + [m[k]], keys + [k];
      }
      rest := rest - {k};
    }
    assert (set x | x in keys) == KeysWhere(m, p);
    DistinctCardinality(keys);
  }

  /** A sequence without repetitions has as many elements as the set of them. */
  lemma {:induction false} DistinctCardinality<T>(s: seq<T>)
    requires forall i, j :: 0 <= i < j < |s| ==> s[i] != s[j]
    ensures |set x | x in s| == |s|
  {
    if |s| > 0 {
      var t := s[..|s| - 1];
      DistinctCardinality(t);
      assert (set x | x in s) == (set x | x in t) + {s[|s| - 1]};
      assert s[|s| - 1] !in (set x | x in t);
    }
  }
}
