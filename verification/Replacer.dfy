/** strings.Replacer: all keys at once, in one pass over the text. */
module Replacer {
  import opened Text

  datatype Pair = Pair(key: string, value: string)

  /** The first pair in argument order whose key the text starts with. */
  function FirstMatch(pairs: seq<Pair>, s: string): Option<Pair> {
    if pairs == [] then None
    else if pairs[0].key <= s then Some(pairs[0])
    else FirstMatch(pairs[1..], s)
  }

  predicate Keyed(pairs: seq<Pair>) { forall i :: 0 <= i < |pairs| ==> pairs[i].key != "" }

  lemma {:induction false} FirstMatchMember(pairs: seq<Pair>, s: string)
    ensures FirstMatch(pairs, s).Some? ==> FirstMatch(pairs, s).value in pairs && FirstMatch(pairs, s).value.key <= s
    ensures FirstMatch(pairs, s).None? ==> forall p :: p in pairs ==> !(p.key <= s)
  {
    if pairs != [] {
      FirstMatchMember(pairs[1..], s);
      assert forall p :: p in pairs ==> p == pairs[0] || p in pairs[1..];
    }
  }

  /** The first key in argument order wins. */
  lemma {:induction false} FirstMatchEarliest(pairs: seq<Pair>, s: string, i: nat)
    requires i < |pairs| && pairs[i].key <= s && forall j :: 0 <= j < i ==> !(pairs[j].key <= s)
    ensures FirstMatch(pairs, s) == Some(pairs[i])
    decreases i
  {
    if i > 0 {
      assert pairs[1..][i - 1] == pairs[i] && forall j :: 0 <= j < i - 1 ==> pairs[1..][j] == pairs[j + 1];
      FirstMatchEarliest(pairs[1..], s, i - 1);
    }
  }

  function Matched(pairs: seq<Pair>, s: string): (m: Option<Pair>)
    requires Keyed(pairs)
    ensures m == FirstMatch(pairs, s)
    ensures m.Some? ==> 0 < |m.value.key| <= |s|
  {
    FirstMatchMember(pairs, s);
    FirstMatch(pairs, s)
  }

  /** Leftmost matches, never overlapping; what a value puts in is not looked at again. */
  function Replace(pairs: seq<Pair>, s: string): string
    requires Keyed(pairs)
    decreases |s|
  {
    if s == "" then ""
    else
      match Matched(pairs, s)
      case None => [s[0]] + Replace(pairs, s[1..])
      case Some(p) => p.value + Replace(pairs, s[|p.key|..])
  }

  /** No key begins another. */
  ghost predicate PrefixFree(pairs: seq<Pair>) {
    forall p, q :: p in pairs && q in pairs && p.key <= q.key ==> p == q
  }

  /** At most one key of a prefix-free list matches. */
  lemma {:induction false} MatchUnique(pairs: seq<Pair>, s: string, p: Pair)
    requires PrefixFree(pairs) && p in pairs && p.key <= s
    ensures FirstMatch(pairs, s) == Some(p)
  {
    FirstMatchMember(pairs, s);
    var q := FirstMatch(pairs, s).value;
    assert p.key <= q.key || q.key <= p.key;
  }

  /** With prefix-free keys the result does not depend on the order the pairs are given in. */
  lemma {:induction false} OrderIndependent(ps: seq<Pair>, qs: seq<Pair>, s: string)
    requires Keyed(ps) && Keyed(qs) && PrefixFree(ps)
    requires forall p :: p in ps <==> p in qs
    ensures Replace(ps, s) == Replace(qs, s)
    decreases |s|
  {
    if s != "" {
      FirstMatchMember(ps, s);
      FirstMatchMember(qs, s);
      match FirstMatch(qs, s)
      case Some(p) =>
        MatchUnique(ps, s, p);
        OrderIndependent(ps, qs, s[|p.key|..]);
      case None =>
        assert FirstMatch(ps, s) == None;
        OrderIndependent(ps, qs, s[1..]);
    }
  }
}
