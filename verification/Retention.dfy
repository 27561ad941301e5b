/**
 Backup retention: newest first by embedded timestamp, keep the first keep_n.

 `ts` is extract_timestamp; everything holds for any way of reading a timestamp off a
 name. The sort is Python's: stable, also with reverse=True.
 */
module Retention {
  import opened Seqs
  import opened Strings

  /** Where an entry goes: after every entry at least as new. */
  function Position(ordered: seq<string>, e: string, ts: string -> string): nat
    ensures Position(ordered, e, ts) <= |ordered|
  {
    if ordered == [] || LexLe(ts(e), ts(ordered[|ordered| - 1])) then |ordered|
    else Position(ordered[..|ordered| - 1], e, ts)
  }

  function Place(ordered: seq<string>, e: string, ts: string -> string): seq<string> {
    InsertAt(ordered, Position(ordered, e, ts), e)
  }

  function InsertAt(s: seq<string>, p: nat, e: string): seq<string>
    requires p <= |s|
  {
    s[..p] + [e] + s[p..]
  }

  /** Places the entries one after another into an ordered list. */
  function PlaceAll(ordered: seq<string>, entries: seq<string>, ts: string -> string): seq<string> {
    if entries == [] then ordered
    else Place(PlaceAll(ordered, entries[..|entries| - 1], ts), entries[|entries| - 1], ts)
  }

  /** sorted(entries, key=ts, reverse=True) */
  function NewestFirst(entries: seq<string>, ts: string -> string): seq<string> {
    PlaceAll([], entries, ts)
  }

  /** Python's s[:n] and s[n:], negative n counting from the end. */
  function Cut(length: nat, n: int): nat
    ensures Cut(length, n) <= length
  {
    if n >= 0 then (if n <= length then n else length)
    else if length + n >= 0 then length + n else 0
  }

  function Kept(entries: seq<string>, n: int, ts: string -> string): seq<string> {
    var ordered := NewestFirst(entries, ts);
    ordered[..Cut(|ordered|, n)]
  }

  function Deleted(entries: seq<string>, n: int, ts: string -> string): seq<string> {
    var ordered := NewestFirst(entries, ts);
    ordered[Cut(|ordered|, n)..]
  }

  // ------------------------------------------------------------ the sort

  ghost predicate Descending(s: seq<string>, ts: string -> string) {
    forall i, j :: 0 <= i < j < |s| ==> LexLe(ts(s[j]), ts(s[i]))
  }

  /** The entries of one timestamp, in order. */
  function Of(s: seq<string>, t: string, ts: string -> string): seq<string> {
    Keep(s, (e: string) => ts(e) == t)
  }

  lemma {:induction false} PositionSplits(s: seq<string>, e: string, ts: string -> string)
    requires Descending(s, ts)
    ensures var p := Position(s, e, ts);
      && (forall i :: 0 <= i < p ==> LexLe(ts(e), ts(s[i])))
      && (forall i :: p <= i < |s| ==> !LexLe(ts(e), ts(s[i])))
  {
    if s != [] {
      var last := |s| - 1;
      if LexLe(ts(e), ts(s[last])) {
        forall i | 0 <= i < last ensures LexLe(ts(e), ts(s[i])) {
          LexTransitive(ts(e), ts(s[last]), ts(s[i]));
        }
      } else {
        PositionSplits(s[..last], e, ts);
        assert forall i :: 0 <= i < last ==> s[..last][i] == s[i];
      }
    }
  }

  lemma PositionUnique(s: seq<string>, e: string, ts: string -> string, p: nat)
    requires Descending(s, ts) && p <= |s|
    requires forall i :: 0 <= i < p ==> LexLe(ts(e), ts(s[i]))
    requires p < |s| ==> !LexLe(ts(e), ts(s[p]))
    ensures Position(s, e, ts) == p
  {
    var q := Position(s, e, ts);
    PositionSplits(s, e, ts);
    assert q < |s| ==> !LexLe(ts(e), ts(s[q]));
  }

  lemma PlaceDescends(s: seq<string>, e: string, ts: string -> string)
    requires Descending(s, ts)
    ensures Descending(Place(s, e, ts), ts)
    ensures multiset(Place(s, e, ts)) == multiset(s) + multiset{e}
  {
    var p := Position(s, e, ts);
    PositionSplits(s, e, ts);
    var placed := Place(s, e, ts);
    forall i | 0 <= i < |s| ensures LexLe(ts(e), ts(s[i])) || LexLe(ts(s[i]), ts(e)) {
      LexTotal(ts(e), ts(s[i]));
    }
    forall i, j | 0 <= i < j < |placed| ensures LexLe(ts(placed[j]), ts(placed[i])) {
      assert placed[i] == if i < p then s[i] else if i == p then e else s[i - 1];
      assert placed[j] == if j < p then s[j] else if j == p then e else s[j - 1];
    }
    assert s == s[..p] + s[p..];
  }

  lemma {:induction false} KeepConcat(a: seq<string>, b: seq<string>, f: string -> bool)
    ensures Keep(a + b, f) == Keep(a, f) + Keep(b, f)
  {
    if b == [] {
      assert a + b == a;
    } else {
      var last := |b| - 1;
      assert (a + b)[..|a + b| - 1] == a + b[..last];
      KeepConcat(a, b[..last], f);
    }
  }

  lemma OfConcat(a: seq<string>, b: seq<string>, t: string, ts: string -> string)
    ensures Of(a + b, t, ts) == Of(a, t, ts) + Of(b, t, ts)
  {
    var f := (e: string) => ts(e) == t;
    KeepConcat(a, b, f);
    KeepSame(a + b, f, (e: string) => ts(e) == t);
    KeepSame(a, f, (e: string) => ts(e) == t);
    KeepSame(b, f, (e: string) => ts(e) == t);
  }

  lemma OfNone(s: seq<string>, t: string, ts: string -> string)
    requires forall e :: e in s ==> ts(e) != t
    ensures Of(s, t, ts) == []
  {
    KeepNone(s, (e: string) => ts(e) == t);
  }

  /** No entry after its place has the timestamp of the entry placed. */
  lemma NoneAfterPlace(s: seq<string>, e: string, ts: string -> string)
    requires Descending(s, ts)
    ensures Of(s[Position(s, e, ts)..], ts(e), ts) == []
  {
    PositionSplits(s, e, ts);
    LexTotal(ts(e), ts(e));
    OfNone(s[Position(s, e, ts)..], ts(e), ts);
  }

  /** Placing keeps every group of equal timestamps in order, the new entry last in its own. */
  lemma PlaceIsStable(s: seq<string>, e: string, ts: string -> string, t: string)
    requires Descending(s, ts)
    ensures Of(Place(s, e, ts), t, ts) == Of(s, t, ts) + Of([e], t, ts)
  {
    var p := Position(s, e, ts);
    var before, after := s[..p], s[p..];
    assert s == before + after;
    OfConcat(before + [e], after, t, ts);
    OfConcat(before, [e], t, ts);
    OfConcat(before, after, t, ts);
    if ts(e) == t {
      NoneAfterPlace(s, e, ts);
    } else {
      OfNone([e], t, ts);
    }
  }

  lemma {:induction false} NewestFirstDescends(entries: seq<string>, ts: string -> string)
    ensures var s := NewestFirst(entries, ts);
      Descending(s, ts) && multiset(s) == multiset(entries) && |s| == |entries|
  {
    if entries != [] {
      var rest, e := entries[..|entries| - 1], entries[|entries| - 1];
      assert entries == rest + [e];
      NewestFirstDescends(rest, ts);
      PlaceDescends(NewestFirst(rest, ts), e, ts);
    }
  }

  lemma {:induction false} NewestFirstIsStable(entries: seq<string>, ts: string -> string, t: string)
    ensures Of(NewestFirst(entries, ts), t, ts) == Of(entries, t, ts)
  {
    if entries != [] {
      var rest, e := entries[..|entries| - 1], entries[|entries| - 1];
      assert entries == rest + [e];
      NewestFirstIsStable(rest, ts, t);
      NewestFirstDescends(rest, ts);
      PlaceIsStable(NewestFirst(rest, ts), e, ts, t);
      OfConcat(rest, [e], t, ts);
    }
  }

  /**
   NewestFirst is the stable descending sort: same entries, ordered, and each group of
   equal timestamps in its original order.
   */
  lemma NewestFirstSorts(entries: seq<string>, ts: string -> string)
    ensures var s := NewestFirst(entries, ts);
      && Descending(s, ts) && multiset(s) == multiset(entries) && |s| == |entries|
      && forall t :: Of(s, t, ts) == Of(entries, t, ts)
  {
    NewestFirstDescends(entries, ts);
    forall t ensures Of(NewestFirst(entries, ts), t, ts) == Of(entries, t, ts) {
      NewestFirstIsStable(entries, ts, t);
    }
  }

  /** keep ++ delete is the whole set reordered, nothing deleted is newer than anything kept, and keep is as long as asked. */
  lemma SelectionPartitions(entries: seq<string>, n: nat, ts: string -> string)
    ensures var keep, delete := Kept(entries, n, ts), Deleted(entries, n, ts);
      && multiset(keep + delete) == multiset(entries)
      && |keep| == (if n <= |entries| then n else |entries|)
      && (forall k, d :: k in keep && d in delete ==> LexLe(ts(d), ts(k)))
      && Descending(keep, ts) && Descending(delete, ts)
  {
    NewestFirstSorts(entries, ts);
    var ordered := NewestFirst(entries, ts);
    assert ordered == Kept(entries, n, ts) + Deleted(entries, n, ts);
  }

  /** For any keep_n, negative too: keep is the newest part of the sorted list, delete the rest; a negative one spares the oldest -keep_n. */
  lemma SelectionCuts(entries: seq<string>, n: int, ts: string -> string)
    ensures Kept(entries, n, ts) + Deleted(entries, n, ts) == NewestFirst(entries, ts)
    ensures n >= 0 ==> |Kept(entries, n, ts)| == if n <= |entries| then n else |entries|
    ensures n < 0 ==> |Deleted(entries, n, ts)| == if -n <= |entries| then -n else |entries|
  {
    NewestFirstDescends(entries, ts);
  }

  // ----------------------------------------------------- rotating early

  function Take(s: seq<string>, n: nat): seq<string> {
    if n <= |s| then s[..n] else s
  }

  lemma PositionInCut(s: seq<string>, e: string, ts: string -> string, n: nat)
    requires Descending(s, ts) && n <= |s|
    ensures Position(s[..n], e, ts) == if Position(s, e, ts) <= n then Position(s, e, ts) else n
  {
    var p := Position(s, e, ts);
    PositionSplits(s, e, ts);
    PositionUnique(s[..n], e, ts, if p <= n then p else n);
  }

  /** Inserting at p and cutting at n, against cutting at n first. */
  lemma InsertThenCut(s: seq<string>, e: string, p: nat, n: nat)
    requires p <= |s| && n < |s|
    ensures Take(InsertAt(s, p, e), n) == Take(InsertAt(s[..n], if p <= n then p else n, e), n)
  {
    var q := if p <= n then p else n;
    var whole, cut := InsertAt(s, p, e), InsertAt(s[..n], q, e);
    assert |whole| == |s| + 1 && |cut| == n + 1;
    forall i | 0 <= i < n ensures whole[i] == cut[i] {
      assert whole[i] == if i < p then s[i] else if i == p then e else s[i - 1];
      assert cut[i] == if i < q then s[i] else if i == q then e else s[i - 1];
    }
  }

  /** What is cut off before placing would be cut off after. */
  lemma PlaceTake(s: seq<string>, e: string, ts: string -> string, n: nat)
    requires Descending(s, ts)
    ensures Take(Place(s, e, ts), n) == Take(Place(Take(s, n), e, ts), n)
  {
    if n < |s| {
      PositionInCut(s, e, ts, n);
      InsertThenCut(s, e, Position(s, e, ts), n);
    } else {
      assert Take(s, n) == s;
    }
  }

  lemma {:induction false} PlaceAllDescends(s: seq<string>, entries: seq<string>, ts: string -> string)
    requires Descending(s, ts)
    ensures Descending(PlaceAll(s, entries, ts), ts)
  {
    if entries != [] {
      PlaceAllDescends(s, entries[..|entries| - 1], ts);
      PlaceDescends(PlaceAll(s, entries[..|entries| - 1], ts), entries[|entries| - 1], ts);
    }
  }

  lemma {:induction false} PlaceAllTake(s: seq<string>, entries: seq<string>, ts: string -> string, n: nat)
    requires Descending(s, ts)
    ensures Take(PlaceAll(s, entries, ts), n) == Take(PlaceAll(Take(s, n), entries, ts), n)
  {
    if entries != [] {
      var rest, e := entries[..|entries| - 1], entries[|entries| - 1];
      PlaceAllTake(s, rest, ts, n);
      PlaceAllDescends(s, rest, ts);
      PlaceAllDescends(Take(s, n), rest, ts);
      PlaceTake(PlaceAll(s, rest, ts), e, ts, n);
      PlaceTake(PlaceAll(Take(s, n), rest, ts), e, ts, n);
    }
  }

  lemma {:induction false} PlaceAllConcat(s: seq<string>, a: seq<string>, b: seq<string>, ts: string -> string)
    ensures PlaceAll(s, a + b, ts) == PlaceAll(PlaceAll(s, a, ts), b, ts)
  {
    if b == [] {
      assert a + b == a;
    } else {
      assert (a + b)[..|a + b| - 1] == a + b[..|b| - 1];
      PlaceAllConcat(s, a, b[..|b| - 1], ts);
    }
  }

  /** An ordered list is its own sort. */
  lemma {:induction false} SortedAlready(s: seq<string>, ts: string -> string)
    requires Descending(s, ts)
    ensures NewestFirst(s, ts) == s
  {
    if s != [] {
      var rest, e := s[..|s| - 1], s[|s| - 1];
      SortedAlready(rest, ts);
      assert rest != [] ==> LexLe(ts(e), ts(rest[|rest| - 1]));
      assert s == rest + [e];
    }
  }

  lemma KeptIsTake(entries: seq<string>, n: nat, ts: string -> string)
    ensures Kept(entries, n, ts) == Take(NewestFirst(entries, ts), n)
  {
  }

  /** Rotating early loses nothing: keeping again after more entries arrive is keeping once at the end, ties included. */
  lemma IncrementalRetention(a: seq<string>, b: seq<string>, n: nat, ts: string -> string)
    ensures Kept(Kept(a, n, ts) + b, n, ts) == Kept(a + b, n, ts)
  {
    var ordered := NewestFirst(a, ts);
    var first := Take(ordered, n);
    NewestFirstDescends(a, ts);
    KeptIsTake(a, n, ts);
    KeptIsTake(first + b, n, ts);
    KeptIsTake(a + b, n, ts);
    SortedAlready(first, ts);
    PlaceAllConcat([], first, b, ts);
    PlaceAllConcat([], a, b, ts);
    PlaceAllTake(ordered, b, ts, n);
  }

  /**
   With a negative keep_n, which the command line accepts, the law survives exactly when
   there was nothing to rotate early or nothing survives at all.
   */
  lemma IncrementalRetentionIff(a: seq<string>, b: seq<string>, n: int, ts: string -> string)
    ensures Kept(Kept(a, n, ts) + b, n, ts) == Kept(a + b, n, ts)
      <==> n >= 0 || a == [] || |a| + |b| <= -n
  {
    if n >= 0 {
      IncrementalRetention(a, b, n, ts);
    } else {
      NewestFirstDescends(a, ts);
      NewestFirstDescends(a + b, ts);
      NewestFirstDescends(Kept(a, n, ts) + b, ts);
      if a == [] {
        assert Kept(a, n, ts) == [];
      }
    }
  }

  lemma KeptOfOneAndTwo(earlier: string, later: string, ts: string -> string)
    requires !LexLe(ts(later), ts(earlier))
    ensures NewestFirst([earlier], ts) == [earlier] && NewestFirst([later], ts) == [later]
    ensures NewestFirst([earlier, later], ts) == [later, earlier]
  {
    SortedAlready([earlier], ts);
    SortedAlready([later], ts);
    var both := [earlier, later];
    assert both[..|both| - 1] == [earlier];
    assert NewestFirst(both, ts) == Place(NewestFirst([earlier], ts), later, ts);
    assert [earlier][..|[earlier]| - 1] == [];
    assert Position([earlier], later, ts) == 0;
  }

  /** With --keep-n -1, backup "b" survives among "a" and "b" at once, but not when "a" was rotated before "b" came. */
  lemma NegativeKeepLosesBackup()
    ensures Kept(Kept(["a"], -1, e => e) + ["b"], -1, e => e) == []
    ensures Kept(["a"] + ["b"], -1, e => e) == ["b"]
  {
    var ts := (e: string) => e;
    assert ts("a") == "a" && ts("b") == "b";
    assert "a" != [] && "b" != [] && "a"[0] == 'a' && "b"[0] == 'b';
    KeptOfOneAndTwo("a", "b", ts);
    assert Kept(["a"], -1, ts) == [] && Kept(["b"], -1, ts) == [];
    assert ["a"] + ["b"] == ["a", "b"] && [] + ["b"] == ["b"];
  }
}
