/** Sequence helpers shared by every store: the optional value, the
    `Array.prototype.filter`, `findIndex` and `find` of the stores, and the
    subsequence relation that a filter establishes. */
module Seqs {

  datatype Option<+T> = None | Some(value: T)

  /** `s` is obtained from `t` by deleting elements, keeping the order of the rest. */
  ghost predicate IsSubseq<T>(s: seq<T>, t: seq<T>)
  {
    if s == [] then true
    else if t == [] then false
    else (s[0] == t[0] && IsSubseq(s[1..], t[1..])) || IsSubseq(s, t[1..])
  }

  lemma {:induction false} SubseqReflexive<T>(s: seq<T>)
    ensures IsSubseq(s, s)
  {
    if s != [] {
      SubseqReflexive(s[1..]);
    }
  }

  /** A prefix of a subsequence of `t` is a subsequence of `t`. */
  lemma {:induction false} SubseqPrefix<T>(s: seq<T>, t: seq<T>, k: nat)
    requires IsSubseq(s, t) && k <= |s|
    ensures IsSubseq(s[..k], t)
  {
    if k > 0 {
      assert s != [] && t != [];
      if s[0] == t[0] && IsSubseq(s[1..], t[1..]) {
        SubseqPrefix(s[1..], t[1..], k - 1);
        assert s[..k][1..] == s[1..][..k - 1];
      } else {
        SubseqPrefix(s, t[1..], k);
      }
    }
  }

  /** The elements of `s` that satisfy `p`, in their order in `s`. */
  function Filter<T>(s: seq<T>, p: T -> bool): (r: seq<T>)
    ensures |r| <= |s|
    ensures forall i :: 0 <= i < |r| ==> r[i] in s && p(r[i])
    ensures forall i :: 0 <= i < |s| && p(s[i]) ==> s[i] in r
    ensures IsSubseq(r, s)
  {
    if s == [] then []
    else
      var rest := Filter(s[1..], p);
      assert s == [s[0]] + s[1..];
      if p(s[0]) then
        assert ([s[0]] + rest)[1..] == rest;
        [s[0]] + rest
      else
        rest
  }

  /** Filtering keeps every element exactly when `p` holds of all of them. */
  lemma {:induction false} FilterAll<T>(s: seq<T>, p: T -> bool)
    requires forall i :: 0 <= i < |s| ==> p(s[i])
    ensures Filter(s, p) == s
  {
    if s != [] {
      FilterAll(s[1..], p);
    }
  }

  /** Filtering distributes over concatenation. */
  lemma {:induction false} FilterAppend<T>(s: seq<T>, t: seq<T>, p: T -> bool)
    ensures Filter(s + t, p) == Filter(s, p) + Filter(t, p)
  {
    if s == [] {
      assert s + t == t;
    } else {
      assert (s + t)[1..] == s[1..] + t;
      FilterAppend(s[1..], t, p);
    }
  }

  /** The index of the first element of `s` satisfying `p` (`findIndex`), or None (-1). */
  function FirstIndex<T>(s: seq<T>, p: T -> bool): (r: Option<nat>)
    ensures r.Some? ==> r.value < |s| && p(s[r.value])
    ensures r.Some? ==> forall j :: 0 <= j < r.value ==> !p(s[j])
    ensures r.None? <==> forall j :: 0 <= j < |s| ==> !p(s[j])
  {
    if s == [] then None
    else if p(s[0]) then Some(0)
    else
      match FirstIndex(s[1..], p)
      case None => None
      case Some(k) => Some(k + 1)
  }
}
