/**
 * The final standing built when the quiz ends: one entry per player, the local
 * player's real score and a seeded mock score for everyone else, ordered by a
 * stable sort on descending score; and the winner check made on that standing.
 */
module Leaderboard {
  import opened Wrappers
  import Js
  import MockScore

  datatype Entry = Entry(address: string, score: int)

  /**
   * The score a player gets in the standing: the local account (matched
   * case-insensitively) gets `localScore`, every other player the mock score
   * seeded with the game id followed by the player's address.
   */
  function ScoreFor(player: string, account: Option<string>, gameId: string, localScore: int): int
  {
    if account.Some? && Js.SameAddress(player, account.value) then localScore
    else MockScore.DeterministicScore(gameId + player)
  }

  /** The `players.map(...)` step: the entries in `players` order, before sorting. */
  function ScorePlayers(players: seq<string>, account: Option<string>, gameId: string, localScore: int): seq<Entry>
  {
    seq(|players|, i requires 0 <= i < |players| => Entry(players[i], ScoreFor(players[i], account, gameId, localScore)))
  }

  function Addresses(entries: seq<Entry>): (r: seq<string>)
    ensures |r| == |entries|
    ensures forall i :: 0 <= i < |entries| ==> r[i] == entries[i].address
  {
    seq(|entries|, i requires 0 <= i < |entries| => entries[i].address)
  }

  /** Non-increasing scores from front to back. */
  ghost predicate SortedDesc(s: seq<Entry>)
  {
    forall i, j :: 0 <= i < j < |s| ==> s[i].score >= s[j].score
  }

  /** The entries of `s` with score `k`, in their order in `s`. */
  function WithScore(s: seq<Entry>, k: int): seq<Entry>
  {
    if s == [] then [] else (if s[0].score == k then [s[0]] else []) + WithScore(s[1..], k)
  }

  /**
   * Puts `e` in front of the first entry whose score is not above its own, so
   * that it stays ahead of the entries it ties with.
   */
  function Insert(e: Entry, sorted: seq<Entry>): (r: seq<Entry>)
    ensures multiset(r) == multiset(sorted) + multiset{e}
  {
    if sorted == [] || sorted[0].score <= e.score then [e] + sorted
    else
      assert sorted == [sorted[0]] + sorted[1..];
      [sorted[0]] + Insert(e, sorted[1..])
  }

  /**
   * `results.sort((a, b) => b.score - a.score)`: highest score first; the sort is
   * stable, so equal scores keep their input order.
   */
  function SortByScore(s: seq<Entry>): (r: seq<Entry>)
    ensures multiset(r) == multiset(s)
  {
    if s == [] then []
    else
      assert s == [s[0]] + s[1..];
      Insert(s[0], SortByScore(s[1..]))
  }

  lemma AddressesCons(x: Entry, s: seq<Entry>)
    ensures multiset(Addresses([x] + s)) == multiset(Addresses(s)) + multiset{x.address}
  {
    assert Addresses([x] + s) == [x.address] + Addresses(s);
  }

  lemma {:induction false} InsertAddresses(e: Entry, sorted: seq<Entry>)
    ensures multiset(Addresses(Insert(e, sorted))) == multiset(Addresses(sorted)) + multiset{e.address}
  {
    if sorted == [] || sorted[0].score <= e.score {
      assert Insert(e, sorted) == [e] + sorted;
      AddressesCons(e, sorted);
    } else {
      var head, tail := sorted[0], sorted[1..];
      var rest := Insert(e, tail);
      assert Insert(e, sorted) == [head] + rest;
      assert sorted == [head] + tail;
      InsertAddresses(e, tail);
      AddressesCons(head, rest);
      AddressesCons(head, tail);
    }
  }

  /** The sort moves entries, so it keeps the multiset of addresses. */
  lemma {:induction false} SortByScoreAddresses(s: seq<Entry>)
    ensures multiset(Addresses(SortByScore(s))) == multiset(Addresses(s))
  {
    if s != [] {
      SortByScoreCons(s);
      InsertAddresses(s[0], SortByScore(s[1..]));
      SortByScoreAddresses(s[1..]);
      AddressesHead(s);
    }
  }

  lemma SortByScoreCons(s: seq<Entry>)
    requires s != []
    ensures SortByScore(s) == Insert(s[0], SortByScore(s[1..]))
  {
  }

  lemma AddressesHead(s: seq<Entry>)
    requires s != []
    ensures multiset(Addresses(s)) == multiset(Addresses(s[1..])) + multiset{s[0].address}
  {
    assert s == [s[0]] + s[1..];
    AddressesCons(s[0], s[1..]);
  }

  lemma SortedCons(x: Entry, s: seq<Entry>)
    requires SortedDesc(s)
    requires forall y :: y in s ==> y.score <= x.score
    ensures SortedDesc([x] + s)
  {
  }

  lemma SortedTail(s: seq<Entry>)
    requires SortedDesc(s) && s != []
    ensures SortedDesc(s[1..])
    ensures forall y :: y in s ==> y.score <= s[0].score
  {
  }

  lemma {:induction false} InsertSorted(e: Entry, sorted: seq<Entry>)
    requires SortedDesc(sorted)
    ensures SortedDesc(Insert(e, sorted))
  {
    if sorted == [] || sorted[0].score <= e.score {
      if sorted != [] { SortedTail(sorted); }
      SortedCons(e, sorted);
    } else {
      var head, tail := sorted[0], sorted[1..];
      SortedTail(sorted);
      InsertSorted(e, tail);
      var rest := Insert(e, tail);
      forall x | x in rest ensures x.score <= head.score {
        assert x in multiset(rest);
        if x != e { assert x in multiset(tail); assert x in sorted; }
      }
      SortedCons(head, rest);
    }
  }

  /** The sort returns its input in non-increasing score order. */
  lemma {:induction false} SortByScoreSorted(s: seq<Entry>)
    ensures SortedDesc(SortByScore(s))
  {
    if s != [] {
      SortByScoreSorted(s[1..]);
      InsertSorted(s[0], SortByScore(s[1..]));
    }
  }

  lemma WithScoreCons(x: Entry, s: seq<Entry>, k: int)
    ensures WithScore([x] + s, k) == (if x.score == k then [x] else []) + WithScore(s, k)
  {
    assert ([x] + s)[1..] == s;
  }

  lemma {:induction false} InsertWithScore(e: Entry, sorted: seq<Entry>, k: int)
    ensures WithScore(Insert(e, sorted), k) ==
      (if e.score == k then [e] else []) + WithScore(sorted, k)
  {
    if sorted == [] || sorted[0].score <= e.score {
      assert Insert(e, sorted) == [e] + sorted;
      WithScoreCons(e, sorted, k);
    } else {
      // head outscores e, so at most one of them has score k
      var head, tail := sorted[0], sorted[1..];
      var rest := Insert(e, tail);
      assert Insert(e, sorted) == [head] + rest;
      assert sorted == [head] + tail;
      WithScoreCons(head, rest, k);
      WithScoreCons(head, tail, k);
      InsertWithScore(e, tail, k);
      if e.score == k {
        assert WithScore(Insert(e, sorted), k) == WithScore(rest, k);
        assert WithScore(sorted, k) == WithScore(tail, k);
      } else {
        assert WithScore(rest, k) == WithScore(tail, k);
      }
    }
  }

  /**
   * Stability: for every score value, the entries with that score come out in
   * the order they went in.
   */
  lemma {:induction false} SortByScoreStable(s: seq<Entry>, k: int)
    ensures WithScore(SortByScore(s), k) == WithScore(s, k)
  {
    if s != [] {
      SortByScoreStable(s[1..], k);
      InsertWithScore(s[0], SortByScore(s[1..]), k);
    }
  }

  /** `generateFinalLeaderboard`: score every player, then sort. */
  function FinalLeaderboard(players: seq<string>, account: Option<string>, gameId: string, localScore: int): seq<Entry>
  {
    SortByScore(ScorePlayers(players, account, gameId, localScore))
  }

  /**
   * What the final standing is: one entry per player (the same multiset of
   * addresses), scores non-increasing, ties in `players` order, and every entry
   * carrying the score its address is owed.
   */
  lemma FinalLeaderboardSpec(players: seq<string>, account: Option<string>, gameId: string, localScore: int)
    ensures var r := FinalLeaderboard(players, account, gameId, localScore);
      && |r| == |players|
      && multiset(Addresses(r)) == multiset(players)
      && SortedDesc(r)
      && (forall e :: e in r ==> e.score == ScoreFor(e.address, account, gameId, localScore))
      && (forall k :: WithScore(r, k) == WithScore(ScorePlayers(players, account, gameId, localScore), k))
  {
    var unsorted := ScorePlayers(players, account, gameId, localScore);
    var r := SortByScore(unsorted);
    assert Addresses(unsorted) == players;
    SortByScoreAddresses(unsorted);
    assert |r| == |multiset(r)| == |multiset(unsorted)| == |players|;
    SortByScoreSorted(unsorted);
    forall e | e in r ensures e.score == ScoreFor(e.address, account, gameId, localScore) {
      assert e in multiset(r);
      assert e in unsorted;
    }
    forall k ensures WithScore(r, k) == WithScore(unsorted, k) {
      SortByScoreStable(unsorted, k);
    }
  }

  /** The winner check on the standing: its first address is the local account's. */
  predicate IsWinner(leaderboard: seq<Entry>, account: Option<string>)
  {
    |leaderboard| > 0 && account.Some? && Js.SameAddress(leaderboard[0].address, account.value)
  }

  /** A local player reported as winner has a score no other entry exceeds. */
  lemma WinnerHasTopScore(players: seq<string>, account: Option<string>, gameId: string, localScore: int)
    requires IsWinner(FinalLeaderboard(players, account, gameId, localScore), account)
    ensures forall e :: e in FinalLeaderboard(players, account, gameId, localScore) ==> e.score <= localScore
  {
    var r := FinalLeaderboard(players, account, gameId, localScore);
    FinalLeaderboardSpec(players, account, gameId, localScore);
    assert r[0] in r;
    forall e | e in r ensures e.score <= localScore {
      var j :| 0 <= j < |r| && r[j] == e;
      if j > 0 { assert r[0].score >= r[j].score; }
    }
  }

  /**
   * A local player who is among `players` and outscores every other player is
   * reported as the winner.
   */
  lemma TopScorerIsWinner(players: seq<string>, account: Option<string>, gameId: string, localScore: int)
    requires account.Some?
    requires exists p :: p in players && Js.SameAddress(p, account.value)
    requires forall p :: p in players && !Js.SameAddress(p, account.value) ==>
      MockScore.DeterministicScore(gameId + p) < localScore
    ensures IsWinner(FinalLeaderboard(players, account, gameId, localScore), account)
  {
    var r := FinalLeaderboard(players, account, gameId, localScore);
    FinalLeaderboardSpec(players, account, gameId, localScore);
    var me :| me in players && Js.SameAddress(me, account.value);
    assert me in multiset(Addresses(r));
    var j :| 0 <= j < |r| && Addresses(r)[j] == me;
    assert r[j] in r && r[j].score == localScore;
    assert r[0] in r;
    var first := r[0].address;
    assert first in multiset(Addresses(r)) by { assert Addresses(r)[0] == first; }
  }
}
