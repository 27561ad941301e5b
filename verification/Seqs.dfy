/** Filters and sums over sequences. */
module Seqs {
  /** The elements that satisfy f, in order. */
  function Keep<T(!new)>(s: seq<T>, f: T -> bool): (r: seq<T>)
    ensures |r| <= |s|
    ensures forall x :: x in r <==> x in s && f(x)
  {
    if s == [] then []
    else
      var last := s[|s| - 1];
      var rest := Keep(s[..|s| - 1], f);
      assert s == s[..|s| - 1] + [last];
      if f(last) then rest + [last] else rest
  }

  lemma {:induction false} KeepSame<T(!new)>(s: seq<T>, f: T -> bool, g: T -> bool)
    requires forall x :: x in s ==> f(x) == g(x)
    ensures Keep(s, f) == Keep(s, g)
  {
    if s != [] {
      assert s == s[..|s| - 1] + [s[|s| - 1]];
      KeepSame(s[..|s| - 1], f, g);
    }
  }

  lemma {:induction false} KeepAll<T(!new)>(s: seq<T>, f: T -> bool)
    requires forall x :: x in s ==> f(x)
    ensures Keep(s, f) == s
  {
    if s != [] {
      assert s == s[..|s| - 1] + [s[|s| - 1]];
      KeepAll(s[..|s| - 1], f);
    }
  }

  lemma {:induction false} KeepNone<T(!new)>(s: seq<T>, f: T -> bool)
    requires forall x :: x in s ==> !f(x)
    ensures Keep(s, f) == []
  {
    if s != [] {
      assert s == s[..|s| - 1] + [s[|s| - 1]];
      KeepNone(s[..|s| - 1], f);
    }
  }

  lemma {:induction false} KeepTwice<T(!new)>(s: seq<T>, f: T -> bool, g: T -> bool, both: T -> bool)
    requires forall x :: x in s ==> both(x) == (f(x) && g(x))
    ensures Keep(Keep(s, f), g) == Keep(s, both)
  {
    if s != [] {
      var rest, last := s[..|s| - 1], s[|s| - 1];
      assert s == rest + [last];
      KeepTwice(rest, f, g, both);
      if f(last) {
        assert (Keep(rest, f) + [last])[..|Keep(rest, f)|] == Keep(rest, f);
      }
    }
  }

  /** Splitting by a condition loses and repeats nothing. */
  lemma {:induction false} KeepSplit<T(!new)>(s: seq<T>, f: T -> bool, g: T -> bool, h: T -> bool)
    requires forall x :: x in s ==> h(x) == (f(x) || g(x)) && !(f(x) && g(x))
    ensures |Keep(s, h)| == |Keep(s, f)| + |Keep(s, g)|
  {
    if s != [] {
      assert s == s[..|s| - 1] + [s[|s| - 1]];
      KeepSplit(s[..|s| - 1], f, g, h);
    }
  }

  /** Filtering two sequences at the same places keeps their elements related. */
  lemma {:induction false} KeepPairs<A(!new), B(!new)>(s: seq<A>, t: seq<B>, f: A -> bool, g: B -> bool, r: (A, B) -> bool)
    requires |s| == |t| && forall i :: 0 <= i < |s| ==> f(s[i]) == g(t[i]) && r(s[i], t[i])
    ensures |Keep(s, f)| == |Keep(t, g)|
    ensures forall i :: 0 <= i < |Keep(s, f)| ==> r(Keep(s, f)[i], Keep(t, g)[i])
  {
    if s != [] {
      var n := |s| - 1;
      KeepPairs(s[..n], t[..n], f, g, r);
      assert f(s[n]) == g(t[n]) && r(s[n], t[n]);
    }
  }

  ghost predicate Distinct<T>(s: seq<T>) {
    forall i, j :: 0 <= i < j < |s| ==> s[i] != s[j]
  }

  /** Sum of the counts of the given keys. */
  function SumAt<K>(keys: seq<K>, counts: map<K, nat>): nat
    requires forall k :: k in keys ==> k in counts
  {
    if keys == [] then 0
    else
      assert keys[|keys| - 1] in keys;
      assert forall k :: k in keys[..|keys| - 1] ==> k in keys;
      SumAt(keys[..|keys| - 1], counts) + counts[keys[|keys| - 1]]
  }
}
