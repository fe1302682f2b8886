/** The best-score-per-user reduction of the leaderboard route
    (game01/app/api/leaderboard/route.js): each decodable `Played` log is
    folded, in order, into a JavaScript `Map` keyed by the lowercased user. */
module BestScores {
  import opened Wrappers
  import opened ChainLogs

  /** The arguments `parseLog` yields for
      `Played(address indexed user, uint256 score, uint256 guess, uint256 ts)`. */
  datatype Played = Played(user: string, score: nat, guess: nat, ts: nat)

  /** One leaderboard entry, as stored with `best.set(user, {...})`. */
  datatype Row = Row(user: string, score: nat, guessK: nat, ts: nat, tx: string, blockNumber: nat)

  /** `a` replaces `b` in the map: a higher score, or the same score at a later time. */
  predicate Outranks(a: Row, b: Row) {
    a.score > b.score || (a.score == b.score && a.ts > b.ts)
  }

  predicate IsUpper(c: char) { 'A' <= c <= 'Z' }

  /** No upper-case ASCII letter. */
  predicate IsLowerCase(s: string) {
    forall i :: 0 <= i < |s| ==> !IsUpper(s[i])
  }

  function LowerChar(c: char): char {
    if IsUpper(c) then (c as int - 'A' as int + 'a' as int) as char else c
  }

  /** `String.prototype.toLowerCase` on the ASCII text of an address. */
  function Lower(s: string): (r: string)
    ensures |r| == |s| && IsLowerCase(r)
    ensures IsLowerCase(s) ==> r == s
    ensures forall i :: 0 <= i < |s| && !IsUpper(s[i]) ==> r[i] == s[i]
    ensures forall i :: 0 <= i < |s| && IsUpper(s[i]) ==> r[i] as int == s[i] as int + 32
  {
    seq(|s|, i requires 0 <= i < |s| => LowerChar(s[i]))
  }

  /** `c` and `d` are the same character up to ASCII case. */
  predicate SameUpToCase(c: char, d: char) {
    c == d || (IsUpper(c) && d as int == c as int + 32) || (IsUpper(d) && c as int == d as int + 32)
  }

  /** Two spellings of one address that differ only in ASCII case (a checksummed
      and a lower-case one, say) lower to the same map key. */
  lemma LowerIgnoresCase(s: string, t: string)
    requires |s| == |t| && forall i :: 0 <= i < |s| ==> SameUpToCase(s[i], t[i])
    ensures Lower(s) == Lower(t)
  {
    var ls, lt := Lower(s), Lower(t);
    forall i | 0 <= i < |s| ensures ls[i] == lt[i] {
      assert ls[i] == LowerChar(s[i]) && lt[i] == LowerChar(t[i]);
    }
  }

  /** A JavaScript `Map`: its keys in insertion order and its entries. */
  datatype Table = Table(keys: seq<string>, rows: map<string, Row>) {

    /** The keys are distinct and are exactly the entries' keys. */
    ghost predicate Valid() {
      (forall i, j :: 0 <= i < j < |keys| ==> keys[i] != keys[j]) &&
      (forall k :: k in rows <==> k in keys)
    }

    /** `Map.prototype.set`: a new key goes last, an existing key keeps its place. */
    function Set(k: string, v: Row): (t: Table)
      ensures t.rows == rows[k := v]
      ensures k in rows ==> t.keys == keys
      ensures k !in rows ==> t.keys == keys + [k]
      ensures Valid() ==> t.Valid()
    {
      if k in rows then Table(keys, rows[k := v]) else Table(keys + [k], rows[k := v])
    }

    /** `Array.from(map.values())`: the entries in key insertion order. */
    function Values(): (vs: seq<Row>)
      requires Valid()
      ensures |vs| == |keys|
      ensures forall i :: 0 <= i < |keys| ==> vs[i] == rows[keys[i]]
    {
      seq(|keys|, i requires 0 <= i < |keys| => rows[keys[i]])
    }
  }

  /** `parseLog` followed by the lower-casing of the user: the row a log would
      store, or `None` when decoding throws. */
  function Candidate(parse: RawLog -> Option<Played>, l: RawLog): (r: Option<Row>)
    ensures r.Some? <==> parse(l).Some?
    ensures r.Some? ==>
      var e := parse(l).value;
      r.value.user == Lower(e.user) && IsLowerCase(r.value.user) &&
      r.value.score == e.score && r.value.guessK == e.guess && r.value.ts == e.ts &&
      r.value.tx == l.transactionHash && r.value.blockNumber == l.blockNumber
  {
    match parse(l)
    case None => None
    case Some(e) => Some(Row(Lower(e.user), e.score, e.guess, e.ts, l.transactionHash, l.blockNumber))
  }

  /** One turn of the `for (const log of allLogs)` loop body. */
  function Step(t: Table, parse: RawLog -> Option<Played>, l: RawLog): Table
  {
    match Candidate(parse, l)
    case None => t
    case Some(r) =>
      if r.user !in t.rows || Outranks(r, t.rows[r.user]) then t.Set(r.user, r) else t
  }

  /** The map after the loop has gone over all of `logs`. */
  function BestOf(parse: RawLog -> Option<Played>, logs: seq<RawLog>): (t: Table)
    ensures t.Valid()
  {
    if logs == [] then Table([], map[])
    else Step(BestOf(parse, logs[..|logs| - 1]), parse, logs[|logs| - 1])
  }

  /** Log `l` decodes to an event of (lowercased) user `k`. */
  predicate Counts(parse: RawLog -> Option<Played>, l: RawLog, k: string) {
    Candidate(parse, l).Some? && Candidate(parse, l).value.user == k
  }

  /** What the map holds after going over `logs`: exactly the users with a
      decodable log; for each, the row of its first log that no other log of
      that user outranks. */
  ghost predicate IsBest(t: Table, parse: RawLog -> Option<Played>, logs: seq<RawLog>) {
    KeysAreUsers(t, parse, logs) && Dominates(t, parse, logs) && Witnessed(t, parse, logs)
  }

  /** A key exists exactly for the users with a decodable log. */
  ghost predicate KeysAreUsers(t: Table, parse: RawLog -> Option<Played>, logs: seq<RawLog>) {
    forall k :: k in t.rows <==> exists i :: 0 <= i < |logs| && Counts(parse, logs[i], k)
  }

  /** No log of a user outranks the row stored for that user. */
  ghost predicate Dominates(t: Table, parse: RawLog -> Option<Played>, logs: seq<RawLog>) {
    forall i, k :: 0 <= i < |logs| && Counts(parse, logs[i], k) ==>
      k in t.rows && !Outranks(Candidate(parse, logs[i]).value, t.rows[k])
  }

  /** Each stored row comes from a log that outranks the user's earlier logs. */
  ghost predicate Witnessed(t: Table, parse: RawLog -> Option<Played>, logs: seq<RawLog>) {
    forall k :: k in t.rows ==> exists j :: Kept(t, parse, logs, k, j)
  }

  /** Log `j` is the one whose row the map keeps for `k`: it is `k`'s, it gives
      the stored row, and it outranks every earlier log of `k`. */
  ghost predicate Kept(t: Table, parse: RawLog -> Option<Played>, logs: seq<RawLog>, k: string, j: int)
    requires k in t.rows
  {
    0 <= j < |logs| && Counts(parse, logs[j], k) &&
    Candidate(parse, logs[j]).value == t.rows[k] &&
    forall i :: 0 <= i < j && Counts(parse, logs[i], k) ==>
      Outranks(t.rows[k], Candidate(parse, logs[i]).value)
  }

  lemma StepKeys(t: Table, parse: RawLog -> Option<Played>, pre: seq<RawLog>, x: RawLog)
    requires KeysAreUsers(t, parse, pre)
    ensures KeysAreUsers(Step(t, parse, x), parse, pre + [x])
  {
    var logs, t' := pre + [x], Step(t, parse, x);
    forall k ensures k in t'.rows <==> exists i :: 0 <= i < |logs| && Counts(parse, logs[i], k) {
      if k in t.rows {
        var i :| 0 <= i < |pre| && Counts(parse, pre[i], k);
        assert logs[i] == pre[i];
      } else if k in t'.rows {
        assert logs[|pre|] == x && Counts(parse, x, k);
      }
      if exists i :: 0 <= i < |logs| && Counts(parse, logs[i], k) {
        var i :| 0 <= i < |logs| && Counts(parse, logs[i], k);
        if i < |pre| { assert logs[i] == pre[i]; } else { assert logs[i] == x; }
      }
    }
  }

  lemma StepDominates(t: Table, parse: RawLog -> Option<Played>, pre: seq<RawLog>, x: RawLog)
    requires Dominates(t, parse, pre)
    ensures Dominates(Step(t, parse, x), parse, pre + [x])
  {
    var logs, t' := pre + [x], Step(t, parse, x);
    forall i, k | 0 <= i < |logs| && Counts(parse, logs[i], k)
      ensures k in t'.rows && !Outranks(Candidate(parse, logs[i]).value, t'.rows[k])
    {
      if i < |pre| { assert logs[i] == pre[i]; } else { assert logs[i] == x; }
    }
  }

  lemma StepWitnessed(t: Table, parse: RawLog -> Option<Played>, pre: seq<RawLog>, x: RawLog)
    requires Dominates(t, parse, pre) && Witnessed(t, parse, pre)
    ensures Witnessed(Step(t, parse, x), parse, pre + [x])
  {
    var logs, t' := pre + [x], Step(t, parse, x);
    forall k | k in t'.rows ensures exists j :: Kept(t', parse, logs, k, j) {
      if k in t.rows && t'.rows[k] == t.rows[k] {
        var j :| Kept(t, parse, pre, k, j);
        assert logs[j] == pre[j];
        forall i | 0 <= i < j && Counts(parse, logs[i], k)
          ensures Outranks(t'.rows[k], Candidate(parse, logs[i]).value)
        {
          assert logs[i] == pre[i];
        }
        assert Kept(t', parse, logs, k, j);
      } else {
        // the row for k was stored by x itself
        assert logs[|pre|] == x;
        forall i | 0 <= i < |pre| && Counts(parse, logs[i], k)
          ensures Outranks(t'.rows[k], Candidate(parse, logs[i]).value)
        {
          assert logs[i] == pre[i];
        }
        assert Kept(t', parse, logs, k, |pre|);
      }
    }
  }

  lemma StepKeepsBest(t: Table, parse: RawLog -> Option<Played>, pre: seq<RawLog>, x: RawLog)
    requires IsBest(t, parse, pre)
    ensures IsBest(Step(t, parse, x), parse, pre + [x])
  {
    StepKeys(t, parse, pre, x);
    StepDominates(t, parse, pre, x);
    StepWitnessed(t, parse, pre, x);
  }

  /** The map `BestOf` builds is characterised by `IsBest`. */
  lemma {:induction false} BestOfIsBest(parse: RawLog -> Option<Played>, logs: seq<RawLog>)
    ensures IsBest(BestOf(parse, logs), parse, logs)
  {
    if logs != [] {
      var pre := logs[..|logs| - 1];
      BestOfIsBest(parse, pre);
      StepKeepsBest(BestOf(parse, pre), parse, pre, logs[|logs| - 1]);
      assert pre + [logs[|logs| - 1]] == logs;
    }
  }

  /** The per-user maximum, in the terms of the route: for every user with a
      decodable log the key is lowercased, the stored score is the largest of
      that user's scores, the stored time is the latest among the logs with
      that score, and of logs equal in both the earliest is the one kept. */
  lemma BestIsPerUserMaximum(parse: RawLog -> Option<Played>, logs: seq<RawLog>, k: string)
    ensures var t := BestOf(parse, logs);
      (k in t.rows <==> exists i :: 0 <= i < |logs| && Counts(parse, logs[i], k)) &&
      (k in t.rows ==>
        IsLowerCase(k) && t.rows[k].user == k &&
        (forall i :: 0 <= i < |logs| && Counts(parse, logs[i], k) ==>
          Candidate(parse, logs[i]).value.score <= t.rows[k].score) &&
        (forall i :: (0 <= i < |logs| && Counts(parse, logs[i], k) &&
                       Candidate(parse, logs[i]).value.score == t.rows[k].score) ==>
          Candidate(parse, logs[i]).value.ts <= t.rows[k].ts) &&
        (exists j :: 0 <= j < |logs| && Candidate(parse, logs[j]) == Some(t.rows[k]) &&
          forall i :: 0 <= i < j && Counts(parse, logs[i], k) ==>
            Candidate(parse, logs[i]).value.score != t.rows[k].score ||
            Candidate(parse, logs[i]).value.ts != t.rows[k].ts))
  {
    var t := BestOf(parse, logs);
    BestOfIsBest(parse, logs);
    if k in t.rows {
      var j :| Kept(t, parse, logs, k, j);
    }
  }

  /** Decode resilience: a log that fails to decode changes nothing; the map is
      the one built from the logs without it. */
  lemma {:induction false} UndecodableIgnored(parse: RawLog -> Option<Played>, a: seq<RawLog>, l: RawLog, b: seq<RawLog>)
    requires parse(l).None?
    ensures BestOf(parse, a + [l] + b) == BestOf(parse, a + b)
    decreases |b|
  {
    if b == [] {
      assert a + [l] + b == a + [l] && (a + [l])[..|a|] == a;
      assert a + b == a;
    } else {
      var b', y := b[..|b| - 1], b[|b| - 1];
      UndecodableIgnored(parse, a, l, b');
      assert a + [l] + b == (a + [l] + b') + [y];
      assert a + b == (a + b') + [y];
      assert (a + [l] + b) [..|a + [l] + b| - 1] == a + [l] + b';
      assert (a + b)[..|a + b| - 1] == a + b';
    }
  }

  /** The users with at least one decodable log, lowercased. */
  ghost function Users(parse: RawLog -> Option<Played>, logs: seq<RawLog>): set<string> {
    set i | 0 <= i < |logs| && parse(logs[i]).Some? :: Candidate(parse, logs[i]).value.user
  }

  /** A sequence of distinct elements has as many elements as its set. */
  lemma {:induction false} DistinctCard(keys: seq<string>)
    requires forall i, j :: 0 <= i < j < |keys| ==> keys[i] != keys[j]
    ensures |set k | k in keys| == |keys|
  {
    if keys != [] {
      var pre := keys[..|keys| - 1];
      DistinctCard(pre);
      assert (set k | k in keys) == (set k | k in pre) + {keys[|keys| - 1]};
    }
  }

  /** The keys of the map are exactly the lowercased users of the decoded logs. */
  lemma KeysAreDecodedUsers(parse: RawLog -> Option<Played>, logs: seq<RawLog>)
    ensures BestOf(parse, logs).rows.Keys == Users(parse, logs)
  {
    var t := BestOf(parse, logs);
    var users := Users(parse, logs);
    BestOfIsBest(parse, logs);
    assert KeysAreUsers(t, parse, logs);
    forall k | k in t.rows ensures k in users {
      var i :| 0 <= i < |logs| && Counts(parse, logs[i], k);
    }
    forall k | k in users ensures k in t.rows {
      var i :| 0 <= i < |logs| && parse(logs[i]).Some? && Candidate(parse, logs[i]).value.user == k;
      assert Counts(parse, logs[i], k);
    }
  }

  /** `best.size` is the number of distinct lowercased users among the decoded
      logs, and those users are the keys. */
  lemma UsersCount(parse: RawLog -> Option<Played>, logs: seq<RawLog>)
    ensures var t := BestOf(parse, logs);
      t.rows.Keys == Users(parse, logs) && |t.keys| == |Users(parse, logs)|
  {
    var t := BestOf(parse, logs);
    KeysAreDecodedUsers(parse, logs);
    assert t.Valid();
    DistinctCard(t.keys);
    assert (set k | k in t.keys) == t.rows.Keys;
  }
}
