/** The last expression of the leaderboard route
    (game01/app/api/leaderboard/route.js):
    `Array.from(best.values()).sort((a, b) => b.score - a.score || b.ts - a.ts).slice(0, limit)`. */
module Ranking {
  import opened ChainLogs
  import opened Wrappers
  import opened IntMath
  import opened BestScores

  /** `a` may stand before `b`: the comparator does not put `b` first. */
  predicate InOrder(a: Row, b: Row) {
    a.score > b.score || (a.score == b.score && a.ts >= b.ts)
  }

  /** Every row stands before every later one: descending by score, then by time. */
  predicate Ranked(s: seq<Row>) {
    forall i, j :: 0 <= i < j < |s| ==> InOrder(s[i], s[j])
  }

  /** Places `x` before the first row it may precede; rows equal to `x` that
      follow it in the input stay after it, as in a stable sort. */
  function Insert(x: Row, s: seq<Row>): (r: seq<Row>)
    requires Ranked(s)
    ensures Ranked(r)
    ensures multiset(r) == multiset(s) + multiset{x}
  {
    if s == [] || InOrder(x, s[0]) then [x] + s
    else
      var rest := Insert(x, s[1..]);
      InsertAfter(s[0], x, s[1..], rest);
      assert s == [s[0]] + s[1..];
      [s[0]] + rest
  }

  /** A row that may precede `x` and all of `s` may precede any arrangement of them. */
  lemma InsertAfter(h: Row, x: Row, s: seq<Row>, rest: seq<Row>)
    requires Ranked([h] + s) && InOrder(h, x)
    requires Ranked(rest) && multiset(rest) == multiset(s) + multiset{x}
    ensures Ranked([h] + rest)
  {
    forall j | 0 <= j < |rest| ensures InOrder(h, rest[j]) {
      assert rest[j] in multiset(rest);
      if rest[j] != x {
        assert rest[j] in s;
        var i :| 0 <= i < |s| && s[i] == rest[j];
        assert ([h] + s)[0] == h && ([h] + s)[i + 1] == s[i];
        assert InOrder(([h] + s)[0], ([h] + s)[i + 1]);
      }
    }
    var r := [h] + rest;
    forall i, j | 0 <= i < j < |r| ensures InOrder(r[i], r[j]) {
      if i > 0 { assert r[i] == rest[i - 1] && r[j] == rest[j - 1]; }
    }
  }

  /** `Array.prototype.sort` with the route's comparator (a stable sort). */
  function Sort(s: seq<Row>): (r: seq<Row>)
    ensures Ranked(r)
    ensures multiset(r) == multiset(s)
  {
    if s == [] then []
    else
      assert s == [s[0]] + s[1..];
      Insert(s[0], Sort(s[1..]))
  }

  /** `Array.prototype.slice(0, end)` on an integer `end`: a negative `end`
      counts back from the length. */
  function Slice(s: seq<Row>, end: int): (r: seq<Row>)
    ensures 0 <= end ==> |r| == Min(end, |s|)
    ensures end < 0 ==> |r| == Max(|s| + end, 0)
    ensures r == s[..|r|]
  {
    if end < 0 then s[..Max(|s| + end, 0)] else s[..Min(end, |s|)]
  }

  /** The `rows` of the response for the logs gathered and the slice end. */
  function Leaderboard(parse: RawLog -> Option<Played>, logs: seq<RawLog>, end: int): seq<Row>
  {
    Slice(Sort(BestOf(parse, logs).Values()), end)
  }

  /** No user has two rows. */
  predicate DistinctUsers(s: seq<Row>) {
    forall i, j :: 0 <= i < j < |s| ==> s[i].user != s[j].user
  }

  lemma {:induction false} DistinctUsersOnce(s: seq<Row>, v: Row)
    requires DistinctUsers(s)
    ensures multiset(s)[v] <= 1
  {
    if s != [] {
      var pre := s[..|s| - 1];
      assert s == pre + [s[|s| - 1]];
      DistinctUsersOnce(pre, v);
    }
  }

  /** A rearrangement of rows with distinct users has distinct users. */
  lemma PermutationKeepsDistinctUsers(a: seq<Row>, b: seq<Row>)
    requires DistinctUsers(a) && multiset(a) == multiset(b)
    ensures DistinctUsers(b)
  {
    forall i, j | 0 <= i < j < |b| ensures b[i].user != b[j].user {
      if b[i] == b[j] {
        assert b == b[..j] + b[j..];
        assert b[i] in b[..j] && b[j] in b[j..];
        assert multiset(b)[b[i]] == multiset(b[..j])[b[i]] + multiset(b[j..])[b[i]];
        DistinctUsersOnce(a, b[i]);
      } else {
        assert b[i] in multiset(a) && b[j] in multiset(a);
        var p :| 0 <= p < |a| && a[p] == b[i];
        var q :| 0 <= q < |a| && a[q] == b[j];
        assert p != q;
      }
    }
  }

  /** The values of the map, each the row stored under its own user. */
  lemma {:induction false} ValuesAreBest(parse: RawLog -> Option<Played>, logs: seq<RawLog>)
    ensures var t := BestOf(parse, logs); var vs := t.Values();
      DistinctUsers(vs) && forall i :: 0 <= i < |vs| ==> vs[i].user in t.rows && t.rows[vs[i].user] == vs[i]
  {
    var t := BestOf(parse, logs);
    forall i | 0 <= i < |t.keys| ensures t.rows[t.keys[i]].user == t.keys[i] {
      BestIsPerUserMaximum(parse, logs, t.keys[i]);
    }
  }

  /** The response rows are ranked, one per user, and a prefix of the sorted
      map values, which are a permutation of the map values. */
  lemma LeaderboardRanked(parse: RawLog -> Option<Played>, logs: seq<RawLog>, end: int)
    ensures var t := BestOf(parse, logs); var r := Leaderboard(parse, logs, end);
      Ranked(r) && DistinctUsers(r) &&
      r == Sort(t.Values())[..|r|] && multiset(Sort(t.Values())) == multiset(t.Values())
  {
    var vs := BestOf(parse, logs).Values();
    var sorted := Sort(vs);
    var r := Slice(sorted, end);
    assert r == Leaderboard(parse, logs, end);
    ValuesAreBest(parse, logs);
    assert Ranked(sorted) && multiset(sorted) == multiset(vs);
    PermutationKeepsDistinctUsers(vs, sorted);
    PrefixKeepsOrder(sorted, |r|);
  }

  /** A prefix of a ranked list with one row per user is one too. */
  lemma PrefixKeepsOrder(s: seq<Row>, n: nat)
    requires Ranked(s) && DistinctUsers(s) && n <= |s|
    ensures Ranked(s[..n]) && DistinctUsers(s[..n])
  {
    var p := s[..n];
    forall i, j | 0 <= i < j < |p| ensures InOrder(p[i], p[j]) && p[i].user != p[j].user {
      assert p[i] == s[i] && p[j] == s[j];
    }
  }

  /** Each response row is the row stored for its user, and a stored row that
      is left out ranks no higher than any row kept. */
  lemma LeaderboardTop(parse: RawLog -> Option<Played>, logs: seq<RawLog>, end: int)
    ensures var t := BestOf(parse, logs); var r := Leaderboard(parse, logs, end);
      (forall i :: 0 <= i < |r| ==> r[i].user in t.rows && t.rows[r[i].user] == r[i]) &&
      (forall k :: k in t.rows && t.rows[k] !in r ==> forall i :: 0 <= i < |r| ==> InOrder(r[i], t.rows[k]))
  {
    var t := BestOf(parse, logs);
    var vs := t.Values();
    var sorted := Sort(vs);
    var r := Leaderboard(parse, logs, end);
    ValuesAreBest(parse, logs);
    forall i | 0 <= i < |r| ensures r[i].user in t.rows && t.rows[r[i].user] == r[i] {
      assert r[i] == sorted[i] && sorted[i] in multiset(vs);
      var p :| 0 <= p < |vs| && vs[p] == sorted[i];
    }
    forall k | k in t.rows && t.rows[k] !in r ensures forall i :: 0 <= i < |r| ==> InOrder(r[i], t.rows[k]) {
      var p :| 0 <= p < |t.keys| && t.keys[p] == k;
      assert vs[p] == t.rows[k] && vs[p] in multiset(sorted);
      var q :| 0 <= q < |sorted| && sorted[q] == t.rows[k];
      forall i | 0 <= i < |r| ensures InOrder(r[i], t.rows[k]) {
        assert r[i] == sorted[i];
      }
    }
  }

  /** For a slice end `L >= 0` there are `min(L, usersCount)` rows; a negative
      end drops that many rows from the end of the ranking. */
  lemma LeaderboardLength(parse: RawLog -> Option<Played>, logs: seq<RawLog>, end: int)
    ensures var r := Leaderboard(parse, logs, end);
      (0 <= end ==> |r| == Min(end, |Users(parse, logs)|)) &&
      (end < 0 ==> |r| == Max(|Users(parse, logs)| + end, 0))
  {
    var t := BestOf(parse, logs);
    var sorted := Sort(t.Values());
    assert |sorted| == |t.keys| by {
      assert |multiset(sorted)| == |multiset(t.Values())|;
    }
    UsersCount(parse, logs);
  }
}
