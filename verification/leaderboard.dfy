/**
  The leaderboard aggregator (`getLeaderboard`): fetch the top slice and the
  slice around the player, fail as a whole if a fetch fails, concatenate,
  flag the current player, keep the first entry of each player, and attach
  each remaining player's user data one at a time.
 */
module Leaderboard {
  import opened Wrappers
  import opened Json
  import opened PluginConfig
  import opened Backend
  import opened Session
  import opened UserDataCodec

  /** `findIndex` by player id: the first index holding that id, or -1. */
  function FindIndex(s: seq<LeaderboardEntry>, id: string): (i: int)
    ensures -1 <= i < |s|
    ensures 0 <= i ==> s[i].playFabId == id && forall j :: 0 <= j < i ==> s[j].playFabId != id
    ensures i == -1 ==> forall j :: 0 <= j < |s| ==> s[j].playFabId != id
  {
    if s == [] then -1
    else if s[0].playFabId == id then 0
    else
      var k := FindIndex(s[1..], id);
      if k == -1 then -1 else k + 1
  }

  /** The `filter` from index `from` on: keep an entry iff it is the first with its id. */
  function KeepFirst(s: seq<LeaderboardEntry>, from: nat): seq<LeaderboardEntry>
    requires from <= |s|
    decreases |s| - from
  {
    if from == |s| then []
    else (if FindIndex(s, s[from].playFabId) == from then [s[from]] else []) + KeepFirst(s, from + 1)
  }

  /** Duplicate removal by player id, first occurrence kept. */
  function Dedup(s: seq<LeaderboardEntry>): seq<LeaderboardEntry> {
    KeepFirst(s, 0)
  }

  lemma {:induction false} KeepFirstLength(s: seq<LeaderboardEntry>, from: nat)
    requires from <= |s|
    ensures |KeepFirst(s, from)| <= |s| - from
    decreases |s| - from
  {
    if from < |s| {
      KeepFirstLength(s, from + 1);
    }
  }

  /** Every kept entry is the first occurrence of its id, at or after `from`. */
  lemma {:induction false} KeepFirstAreFirstOccurrences(s: seq<LeaderboardEntry>, from: nat)
    requires from <= |s|
    ensures forall k :: 0 <= k < |KeepFirst(s, from)| ==>
      from <= FindIndex(s, KeepFirst(s, from)[k].playFabId)
      && s[FindIndex(s, KeepFirst(s, from)[k].playFabId)] == KeepFirst(s, from)[k]
    decreases |s| - from
  {
    if from < |s| {
      KeepFirstAreFirstOccurrences(s, from + 1);
      var rest := KeepFirst(s, from + 1);
      if FindIndex(s, s[from].playFabId) == from {
        var r := [s[from]] + rest;
        assert r == KeepFirst(s, from);
        forall k | 0 <= k < |r|
          ensures from <= FindIndex(s, r[k].playFabId) && s[FindIndex(s, r[k].playFabId)] == r[k]
        {
          if k > 0 {
            assert r[k] == rest[k - 1];
          }
        }
      } else {
        assert rest == KeepFirst(s, from);
      }
    }
  }

  /** Kept entries appear in the order of their first occurrences. */
  lemma {:induction false} KeepFirstOrdered(s: seq<LeaderboardEntry>, from: nat)
    requires from <= |s|
    ensures forall k1, k2 :: 0 <= k1 < k2 < |KeepFirst(s, from)| ==>
      FindIndex(s, KeepFirst(s, from)[k1].playFabId) < FindIndex(s, KeepFirst(s, from)[k2].playFabId)
    decreases |s| - from
  {
    if from < |s| {
      KeepFirstOrdered(s, from + 1);
      var rest := KeepFirst(s, from + 1);
      if FindIndex(s, s[from].playFabId) == from {
        KeepFirstAreFirstOccurrences(s, from + 1);
        var r := [s[from]] + rest;
        assert r == KeepFirst(s, from);
        forall k1, k2 | 0 <= k1 < k2 < |r|
          ensures FindIndex(s, r[k1].playFabId) < FindIndex(s, r[k2].playFabId)
        {
          assert r[k2] == rest[k2 - 1];
          if k1 > 0 {
            assert r[k1] == rest[k1 - 1];
          }
        }
      } else {
        assert rest == KeepFirst(s, from);
      }
    }
  }

  /** Every id whose first occurrence is at or after `from` is kept. */
  lemma {:induction false} KeepFirstComplete(s: seq<LeaderboardEntry>, from: nat)
    requires from <= |s|
    ensures var r := KeepFirst(s, from);
      forall i :: from <= i < |s| && from <= FindIndex(s, s[i].playFabId) ==>
        exists k :: 0 <= k < |r| && r[k].playFabId == s[i].playFabId
    decreases |s| - from
  {
    if from < |s| {
      KeepFirstComplete(s, from + 1);
      var rest := KeepFirst(s, from + 1);
      var head := if FindIndex(s, s[from].playFabId) == from then [s[from]] else [];
      var r := head + rest;
      assert r == KeepFirst(s, from);
      forall i | from <= i < |s| && from <= FindIndex(s, s[i].playFabId)
        ensures exists k :: 0 <= k < |r| && r[k].playFabId == s[i].playFabId
      {
        var f := FindIndex(s, s[i].playFabId);
        if f == from {
          assert r[0] == s[from];
        } else {
          assert from + 1 <= i;
          var k :| 0 <= k < |rest| && rest[k].playFabId == s[i].playFabId;
          assert r[|head| + k] == rest[k];
        }
      }
    }
  }

  /**
    Deduplication keeps each id once, keeps for every id of the input the
    entry at its first occurrence, and keeps those entries in input order.
   */
  lemma DedupKeepsFirstOccurrences(s: seq<LeaderboardEntry>)
    ensures var r := Dedup(s);
      && |r| <= |s|
      && (forall k1, k2 :: 0 <= k1 < k2 < |r| ==> r[k1].playFabId != r[k2].playFabId)
      && (forall k :: 0 <= k < |r| ==>
            0 <= FindIndex(s, r[k].playFabId) && r[k] == s[FindIndex(s, r[k].playFabId)])
      && (forall k1, k2 :: 0 <= k1 < k2 < |r| ==>
            FindIndex(s, r[k1].playFabId) < FindIndex(s, r[k2].playFabId))
      && (forall i :: 0 <= i < |s| ==> exists k :: 0 <= k < |r| && r[k].playFabId == s[i].playFabId)
  {
    KeepFirstLength(s, 0);
    KeepFirstAreFirstOccurrences(s, 0);
    KeepFirstOrdered(s, 0);
    KeepFirstComplete(s, 0);
  }

  /** The first index of an id in a concatenation: in the first part if it occurs there. */
  lemma {:induction false} FindIndexConcat(a: seq<LeaderboardEntry>, b: seq<LeaderboardEntry>, id: string)
    ensures FindIndex(a + b, id)
         == if FindIndex(a, id) >= 0 then FindIndex(a, id)
            else if FindIndex(b, id) >= 0 then |a| + FindIndex(b, id)
            else -1
    decreases |a|
  {
    if a == [] {
      assert a + b == b;
    } else if a[0].playFabId != id {
      assert (a + b)[1..] == a[1..] + b;
      FindIndexConcat(a[1..], b, id);
    }
  }

  /** `IsCurrentPlayer` written onto every entry. */
  function Marked(s: seq<LeaderboardEntry>, current: Option<string>): (r: seq<LeaderboardEntry>)
    ensures |r| == |s|
  {
    seq(|s|, i requires 0 <= i < |s| => s[i].(isCurrentPlayer := Some(s[i].playFabId) == current))
  }

  /** The user data fetched for the i-th entry attached to it. */
  function Enriched(s: seq<LeaderboardEntry>, replies: nat -> Settled<UserDataResult>, lib: JsonLib)
    : (r: seq<LeaderboardEntry>)
    ensures |r| == |s|
  {
    seq(|s|, i requires 0 <= i < |s| => s[i].(userData := UserDataOf(replies(i), lib)))
  }

  /** The entries a settled fetch delivers (`data.Leaderboard ?? []`). */
  function Entries(reply: Settled<LeaderboardResult>): seq<LeaderboardEntry> {
    if reply.Fulfilled? then reply.data.leaderboard.GetOr([]) else []
  }

  /** The fetches issued: the top slice if `topMax > 0`, the neighbour slice if `neighborMax > 0`. */
  function FetchCalls(cfg: LeaderboardConfig, statName: string): seq<Effect> {
    (if cfg.topMax > 0 then [ClientGetLeaderboard(statName, cfg.topMax, 0)] else [])
    + (if cfg.neighborMax > 0 then [ClientGetLeaderboardAroundPlayer(statName, cfg.neighborMax)] else [])
  }

  /** The joined fetch: None when nothing was fetched or an issued fetch was rejected. */
  function Merged(cfg: LeaderboardConfig, top: Settled<LeaderboardResult>, neighbor: Settled<LeaderboardResult>)
    : Option<seq<LeaderboardEntry>>
  {
    if cfg.topMax <= 0 && cfg.neighborMax <= 0 then None
    else if (cfg.topMax > 0 && top.Rejected?) || (cfg.neighborMax > 0 && neighbor.Rejected?) then None
    else Some((if cfg.topMax > 0 then Entries(top) else []) + (if cfg.neighborMax > 0 then Entries(neighbor) else []))
  }

  /** The current player's id, as read from the stored login payload. */
  function CurrentPlayerId(loginInfo: Option<LoginResult>): Option<string> {
    if loginInfo.Some? then loginInfo.value.playFabId else None
  }

  /** The deduplicated, flagged entries before user data is attached. */
  function Combined(merged: seq<LeaderboardEntry>, loginInfo: Option<LoginResult>): seq<LeaderboardEntry> {
    Dedup(Marked(merged, CurrentPlayerId(loginInfo)))
  }

  /**
    What `getLeaderboard` returns. Flagging entries reads the login payload,
    so a non-empty merge without one fails like a failed fetch.
   */
  function Aggregated(
    cfg: LeaderboardConfig, loginInfo: Option<LoginResult>,
    top: Settled<LeaderboardResult>, neighbor: Settled<LeaderboardResult>,
    userDataReplies: nat -> Settled<UserDataResult>, lib: JsonLib): Option<seq<LeaderboardEntry>>
  {
    var merged := Merged(cfg, top, neighbor);
    if merged.None? || (merged.value != [] && loginInfo.None?) then None
    else
      var combined := Combined(merged.value, loginInfo);
      Some(if |cfg.userDataKeys| > 0 then Enriched(combined, userDataReplies, lib) else combined)
  }

  /** The user-data fetches of the enrichment, one per entry, in order. */
  function EnrichCalls(s: seq<LeaderboardEntry>, keys: seq<string>): (r: seq<Effect>)
    ensures |r| == |s|
  {
    seq(|s|, i requires 0 <= i < |s| => ClientGetUserData(keys, Some(s[i].playFabId)))
  }

  /** Every effect of `getLeaderboard`: the fetches, then the enrichment calls if it gets that far. */
  function AggregationEffects(
    cfg: LeaderboardConfig, statName: string, loginInfo: Option<LoginResult>,
    top: Settled<LeaderboardResult>, neighbor: Settled<LeaderboardResult>): seq<Effect>
  {
    var merged := Merged(cfg, top, neighbor);
    if merged.None? || (merged.value != [] && loginInfo.None?) || |cfg.userDataKeys| == 0 then
      FetchCalls(cfg, statName)
    else
      FetchCalls(cfg, statName) + EnrichCalls(Combined(merged.value, loginInfo), cfg.userDataKeys)
  }

  /**
    The fetch half of `getLeaderboard`: issue the configured fetches in order
    and join their entries, top slice first; None when `Promise.all` rejects
    or when nothing was fetched (reading `results[0]` of an empty array throws).
   */
  method FetchSlices(
    board: LeaderboardConfig, statName: string,
    topReply: Settled<LeaderboardResult>, neighborReply: Settled<LeaderboardResult>)
    returns (merged: Option<seq<LeaderboardEntry>>, effects: seq<Effect>)
    ensures merged == Merged(board, topReply, neighborReply)
    ensures effects == FetchCalls(board, statName)
  {
    effects := [];
    var results: seq<Settled<LeaderboardResult>> := [];
    if board.topMax > 0 {
      effects := effects + [ClientGetLeaderboard(statName, board.topMax, 0)];
      results := results + [topReply];
    }
    if board.neighborMax > 0 {
      effects := effects + [ClientGetLeaderboardAroundPlayer(statName, board.neighborMax)];
      results := results + [neighborReply];
    }
    assert board.topMax > 0 ==> results[0] == topReply;
    assert board.neighborMax > 0 ==> results[|results| - 1] == neighborReply;
    assert |results| == (if board.topMax > 0 then 1 else 0) + (if board.neighborMax > 0 then 1 else 0);
    if exists r :: r in results && r.Rejected? {
      var r :| r in results && r.Rejected?;
      assert (board.topMax > 0 && r == topReply) || (board.neighborMax > 0 && r == neighborReply);
      merged := None;
    } else if |results| == 0 {
      merged := None;
    } else {
      assert board.topMax > 0 ==> results[0] in results && topReply.Fulfilled?;
      assert board.neighborMax > 0 ==> results[|results| - 1] in results && neighborReply.Fulfilled?;
      if |results| == 2 {
        merged := Some(Entries(results[0]) + Entries(results[1]));
      } else if board.topMax > 0 {
        merged := Some(Entries(results[0]));
        assert merged.value + [] == merged.value;
      } else {
        merged := Some(Entries(results[0]));
        assert [] + merged.value == merged.value;
      }
    }
  }

  /**
    `getLeaderboard`: the entries of the configured slices, flagged,
    deduplicated and enriched, or None (JavaScript's `null`) on failure.
   */
  method GetLeaderboard(
    st: PlayFabSession, cfg: Config, statName: string,
    topReply: Settled<LeaderboardResult>, neighborReply: Settled<LeaderboardResult>,
    userDataReplies: nat -> Settled<UserDataResult>, lib: JsonLib)
    returns (entries: Option<seq<LeaderboardEntry>>, effects: seq<Effect>)
    ensures entries == Aggregated(cfg.leaderboard, st.loginInfo, topReply, neighborReply, userDataReplies, lib)
    ensures effects == AggregationEffects(cfg.leaderboard, statName, st.loginInfo, topReply, neighborReply)
  {
    var board := cfg.leaderboard;
    var merged;
    merged, effects := FetchSlices(board, statName, topReply, neighborReply);
    if merged.None? {
      return None, effects;
    }
    if merged.value != [] && st.loginInfo.None? {
      // reading PlayFabId of an undefined login payload throws, and the error is caught
      return None, effects;
    }
    var combined := Dedup(Marked(merged.value, CurrentPlayerId(st.loginInfo)));
    ghost var deduped := combined;
    if |board.userDataKeys| > 0 {
      for j := 0 to |combined|
        invariant |combined| == |deduped|
        invariant combined[..j] == Enriched(deduped, userDataReplies, lib)[..j]
        invariant forall k :: j <= k < |combined| ==> combined[k] == deduped[k]
        invariant effects == FetchCalls(board, statName) + EnrichCalls(deduped, board.userDataKeys)[..j]
      {
        var userData, call := GetUserData(board.userDataKeys, Some(combined[j].playFabId), userDataReplies(j), lib);
        combined := combined[j := combined[j].(userData := userData)];
        effects := effects + [call];
        assert EnrichCalls(deduped, board.userDataKeys)[..j + 1]
            == EnrichCalls(deduped, board.userDataKeys)[..j] + [call];
      }
      assert combined == Enriched(deduped, userDataReplies, lib);
      assert EnrichCalls(deduped, board.userDataKeys)[..|deduped|] == EnrichCalls(deduped, board.userDataKeys);
    }
    entries := Some(combined);
  }
}
