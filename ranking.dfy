/**
 * The ordering of both leaderboards: gems descending, ties broken by the
 * smaller user id (the earlier account), then cut to a maximum length.
 */
module Ranking {

  /** One leaderboard line: a user and the gems it is ranked by. */
  datatype Entry = Entry(uid: int, gems: int)

  /** `a` may stand before `b`: more gems, or as many gems and a smaller or equal id. */
  predicate Precedes(a: Entry, b: Entry) {
    a.gems > b.gems || (a.gems == b.gems && a.uid <= b.uid)
  }

  ghost predicate Ranked(s: seq<Entry>) {
    forall i, j :: 0 <= i < j < |s| ==> Precedes(s[i], s[j])
  }

  /** Insert `e` into a ranked sequence. */
  function Insert(e: Entry, s: seq<Entry>): seq<Entry> {
    if s == [] then [e]
    else if Precedes(e, s[0]) then [e] + s
    else [s[0]] + Insert(e, s[1..])
  }

  /** The entries in leaderboard order (insertion sort). */
  function Rank(s: seq<Entry>): seq<Entry> {
    if s == [] then [] else Insert(s[0], Rank(s[1..]))
  }

  /** The first `n` entries in leaderboard order (`ORDER BY gems DESC LIMIT n`). */
  function Top(s: seq<Entry>, n: nat): seq<Entry> {
    var r := Rank(s);
    if |r| <= n then r else r[..n]
  }

  lemma {:induction false} InsertPermutes(e: Entry, s: seq<Entry>)
    ensures multiset(Insert(e, s)) == multiset(s) + multiset{e}
  {
    if s != [] && !Precedes(e, s[0]) {
      InsertPermutes(e, s[1..]);
      assert s == [s[0]] + s[1..];
    }
  }

  lemma {:induction false} InsertRanked(e: Entry, s: seq<Entry>)
    requires Ranked(s)
    ensures Ranked(Insert(e, s))
  {
    if s != [] && !Precedes(e, s[0]) {
      InsertRanked(e, s[1..]);
      InsertPermutes(e, s[1..]);
      var tail := Insert(e, s[1..]);
      forall j | 0 <= j < |tail| ensures Precedes(s[0], tail[j]) {
        assert tail[j] in multiset(tail);
        if tail[j] != e {
          assert tail[j] in multiset(s[1..]);
          var m :| 0 <= m < |s[1..]| && s[1..][m] == tail[j];
          assert s[1 + m] == tail[j];
        }
      }
    }
  }

  /** Ranking sorts: the result is in leaderboard order and is a permutation of the input. */
  lemma {:induction false} RankSortsAndPermutes(s: seq<Entry>)
    ensures Ranked(Rank(s))
    ensures multiset(Rank(s)) == multiset(s)
  {
    if s != [] {
      RankSortsAndPermutes(s[1..]);
      InsertRanked(s[0], Rank(s[1..]));
      InsertPermutes(s[0], Rank(s[1..]));
      assert s == [s[0]] + s[1..];
    }
  }

  /**
   * The top `n`: at most `n` entries of the input, in leaderboard order; an
   * input entry left out means the list is full and its last entry precedes it.
   */
  lemma TopProperties(s: seq<Entry>, n: nat)
    requires n > 0
    ensures |Top(s, n)| == if |s| < n then |s| else n
    ensures Ranked(Top(s, n))
    ensures forall x :: x in Top(s, n) ==> x in s
    ensures forall x :: x in s && x !in Top(s, n) ==> |Top(s, n)| == n && Precedes(Top(s, n)[n - 1], x)
  {
    RankSortsAndPermutes(s);
    var r := Rank(s);
    assert |r| == |multiset(r)| == |multiset(s)| == |s|;
    forall x | x in Top(s, n) ensures x in s {
      assert x in r;
      assert x in multiset(r);
    }
    forall x | x in s && x !in Top(s, n) ensures |Top(s, n)| == n && Precedes(Top(s, n)[n - 1], x) {
      assert x in multiset(s);
      assert x in r;
      var k :| 0 <= k < |r| && r[k] == x;
      assert k >= n;
    }
  }
}
