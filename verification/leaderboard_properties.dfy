/**
  What `getLeaderboard` promises: when it fails and what it calls then, and
  the shape of a successful result (each player once, at the first place it
  was listed, top slice before neighbour slice, the current player flagged,
  one user-data fetch per returned player).
 */
module LeaderboardProperties {
  import opened Wrappers
  import opened Json
  import opened PluginConfig
  import opened Backend
  import opened Leaderboard
  import opened UserDataCodec

  /** Two entry lists with the same ids, position by position, agree on every `findIndex`. */
  lemma FindIndexSameIds(a: seq<LeaderboardEntry>, b: seq<LeaderboardEntry>, id: string)
    requires |a| == |b|
    requires forall i :: 0 <= i < |a| ==> a[i].playFabId == b[i].playFabId
    ensures FindIndex(a, id) == FindIndex(b, id)
  {
    var fa, fb := FindIndex(a, id), FindIndex(b, id);
    if fa >= 0 {
      assert b[fa].playFabId == id;
    }
    if fb >= 0 {
      assert a[fb].playFabId == id;
    }
  }

  /**
    Nothing is fetched and the result is `null` when neither slice is
    configured; a rejected fetch fails the whole call before any user data
    is requested.
   */
  lemma LeaderboardFailsFast(
    cfg: LeaderboardConfig, statName: string, loginInfo: Option<LoginResult>,
    top: Settled<LeaderboardResult>, neighbor: Settled<LeaderboardResult>,
    replies: nat -> Settled<UserDataResult>, lib: JsonLib)
    requires (cfg.topMax <= 0 && cfg.neighborMax <= 0)
          || (cfg.topMax > 0 && top.Rejected?)
          || (cfg.neighborMax > 0 && neighbor.Rejected?)
    ensures Aggregated(cfg, loginInfo, top, neighbor, replies, lib).None?
    ensures AggregationEffects(cfg, statName, loginInfo, top, neighbor) == FetchCalls(cfg, statName)
    ensures cfg.topMax <= 0 && cfg.neighborMax <= 0 ==> FetchCalls(cfg, statName) == []
  {
  }

  /**
    The result is `null` exactly when nothing was fetched, an issued fetch
    was rejected, or entries came back while no login payload is stored.
   */
  lemma LeaderboardFailure(
    cfg: LeaderboardConfig, loginInfo: Option<LoginResult>,
    top: Settled<LeaderboardResult>, neighbor: Settled<LeaderboardResult>,
    replies: nat -> Settled<UserDataResult>, lib: JsonLib)
    ensures Aggregated(cfg, loginInfo, top, neighbor, replies, lib).None? <==>
      || (cfg.topMax <= 0 && cfg.neighborMax <= 0)
      || (cfg.topMax > 0 && top.Rejected?)
      || (cfg.neighborMax > 0 && neighbor.Rejected?)
      || (loginInfo.None?
          && ((cfg.topMax > 0 && Entries(top) != []) || (cfg.neighborMax > 0 && Entries(neighbor) != [])))
  {
  }

  /**
    Flagging and deduplicating the merged entries keeps each player once,
    as the entry at its first place, in first-place order, flagged iff its
    id is the stored player id.
   */
  lemma CombinedShape(m: seq<LeaderboardEntry>, loginInfo: Option<LoginResult>)
    ensures var c := Combined(m, loginInfo);
      && |c| <= |m|
      && (forall k1, k2 :: 0 <= k1 < k2 < |c| ==> c[k1].playFabId != c[k2].playFabId)
      && (forall i :: 0 <= i < |m| ==> exists k :: 0 <= k < |c| && c[k].playFabId == m[i].playFabId)
      && (forall k1, k2 :: 0 <= k1 < k2 < |c| ==>
            FindIndex(m, c[k1].playFabId) < FindIndex(m, c[k2].playFabId))
      && (forall k :: 0 <= k < |c| ==>
            && 0 <= FindIndex(m, c[k].playFabId)
            && c[k] == m[FindIndex(m, c[k].playFabId)].(
                 isCurrentPlayer := Some(c[k].playFabId) == CurrentPlayerId(loginInfo)))
  {
    var cur := CurrentPlayerId(loginInfo);
    var marked := Marked(m, cur);
    var c := Dedup(marked);
    assert c == Combined(m, loginInfo);
    DedupKeepsFirstOccurrences(marked);
    forall k | 0 <= k < |c|
      ensures 0 <= FindIndex(m, c[k].playFabId)
      ensures c[k] == m[FindIndex(m, c[k].playFabId)].(isCurrentPlayer := Some(c[k].playFabId) == cur)
    {
      FindIndexSameIds(marked, m, c[k].playFabId);
    }
    forall k1, k2 | 0 <= k1 < k2 < |c|
      ensures FindIndex(m, c[k1].playFabId) < FindIndex(m, c[k2].playFabId)
    {
      FindIndexSameIds(marked, m, c[k1].playFabId);
      FindIndexSameIds(marked, m, c[k2].playFabId);
    }
    forall i | 0 <= i < |m|
      ensures exists k :: 0 <= k < |c| && c[k].playFabId == m[i].playFabId
    {
      assert marked[i].playFabId == m[i].playFabId;
    }
  }

  /**
    A successful result lists every player of the fetched slices exactly
    once, as the entry at that player's first place in top-then-neighbour
    order, in that order; the entry is flagged iff its id is the stored
    player id, and carries the fetched user data iff user-data keys are
    configured.
   */
  lemma LeaderboardShape(
    cfg: LeaderboardConfig, loginInfo: Option<LoginResult>,
    top: Settled<LeaderboardResult>, neighbor: Settled<LeaderboardResult>,
    replies: nat -> Settled<UserDataResult>, lib: JsonLib)
    requires Aggregated(cfg, loginInfo, top, neighbor, replies, lib).Some?
    ensures var m := Merged(cfg, top, neighbor).value;
      var r := Aggregated(cfg, loginInfo, top, neighbor, replies, lib).value;
      && |r| <= |m|
      && (forall k1, k2 :: 0 <= k1 < k2 < |r| ==> r[k1].playFabId != r[k2].playFabId)
      && (forall i :: 0 <= i < |m| ==> exists k :: 0 <= k < |r| && r[k].playFabId == m[i].playFabId)
      && (forall k1, k2 :: 0 <= k1 < k2 < |r| ==>
            FindIndex(m, r[k1].playFabId) < FindIndex(m, r[k2].playFabId))
      && (forall k :: 0 <= k < |r| ==>
            && 0 <= FindIndex(m, r[k].playFabId)
            && r[k] == m[FindIndex(m, r[k].playFabId)].(
                 isCurrentPlayer := Some(r[k].playFabId) == CurrentPlayerId(loginInfo),
                 userData := if |cfg.userDataKeys| > 0 then UserDataOf(replies(k), lib)
                             else m[FindIndex(m, r[k].playFabId)].userData))
  {
    var m := Merged(cfg, top, neighbor).value;
    var c := Combined(m, loginInfo);
    CombinedShape(m, loginInfo);
    var r := Aggregated(cfg, loginInfo, top, neighbor, replies, lib).value;
    if |cfg.userDataKeys| > 0 {
      assert r == Enriched(c, replies, lib);
      forall k | 0 <= k < |r|
        ensures r[k].playFabId == c[k].playFabId
        ensures r[k] == c[k].(userData := UserDataOf(replies(k), lib))
      {
      }
      forall i | 0 <= i < |m|
        ensures exists k :: 0 <= k < |r| && r[k].playFabId == m[i].playFabId
      {
        var k :| 0 <= k < |c| && c[k].playFabId == m[i].playFabId;
        assert r[k].playFabId == m[i].playFabId;
      }
    } else {
      assert r == c;
    }
  }

  /**
    A player listed in the top slice is returned with the top slice's
    entry: the neighbour slice's copy of the same player is the one dropped.
   */
  lemma TopSliceWins(
    cfg: LeaderboardConfig, loginInfo: Option<LoginResult>,
    top: Settled<LeaderboardResult>, neighbor: Settled<LeaderboardResult>,
    replies: nat -> Settled<UserDataResult>, lib: JsonLib, id: string)
    requires Aggregated(cfg, loginInfo, top, neighbor, replies, lib).Some?
    requires cfg.topMax > 0 && 0 <= FindIndex(Entries(top), id)
    ensures var r := Aggregated(cfg, loginInfo, top, neighbor, replies, lib).value;
      var e := Entries(top)[FindIndex(Entries(top), id)];
      exists k :: 0 <= k < |r| && r[k].playFabId == id
        && r[k].position == e.position && r[k].statValue == e.statValue
  {
    var m := Merged(cfg, top, neighbor).value;
    var second := if cfg.neighborMax > 0 then Entries(neighbor) else [];
    assert m == Entries(top) + second;
    FindIndexConcat(Entries(top), second, id);
    LeaderboardShape(cfg, loginInfo, top, neighbor, replies, lib);
    var r := Aggregated(cfg, loginInfo, top, neighbor, replies, lib).value;
    var f := FindIndex(m, id);
    assert m[f].playFabId == id;
    var k :| 0 <= k < |r| && r[k].playFabId == m[f].playFabId;
    assert FindIndex(m, r[k].playFabId) == f;
  }

  /** At most one returned entry is flagged as the current player. */
  lemma AtMostOneCurrentPlayer(
    cfg: LeaderboardConfig, loginInfo: Option<LoginResult>,
    top: Settled<LeaderboardResult>, neighbor: Settled<LeaderboardResult>,
    replies: nat -> Settled<UserDataResult>, lib: JsonLib)
    requires Aggregated(cfg, loginInfo, top, neighbor, replies, lib).Some?
    ensures var r := Aggregated(cfg, loginInfo, top, neighbor, replies, lib).value;
      forall k1, k2 :: 0 <= k1 < |r| && 0 <= k2 < |r| && r[k1].isCurrentPlayer && r[k2].isCurrentPlayer ==>
        k1 == k2
  {
    LeaderboardShape(cfg, loginInfo, top, neighbor, replies, lib);
  }

  /**
    The calls of a successful run: the configured fetches, then, when
    user-data keys are configured, one user-data fetch per returned player,
    in the returned order.
   */
  lemma LeaderboardCalls(
    cfg: LeaderboardConfig, statName: string, loginInfo: Option<LoginResult>,
    top: Settled<LeaderboardResult>, neighbor: Settled<LeaderboardResult>,
    replies: nat -> Settled<UserDataResult>, lib: JsonLib)
    requires Aggregated(cfg, loginInfo, top, neighbor, replies, lib).Some?
    ensures var r := Aggregated(cfg, loginInfo, top, neighbor, replies, lib).value;
      var effects := AggregationEffects(cfg, statName, loginInfo, top, neighbor);
      var f := |FetchCalls(cfg, statName)|;
      && effects[..f] == FetchCalls(cfg, statName)
      && |effects| == f + (if |cfg.userDataKeys| > 0 then |r| else 0)
      && (|cfg.userDataKeys| > 0 ==>
            forall k :: 0 <= k < |r| ==> effects[f + k] == ClientGetUserData(cfg.userDataKeys, Some(r[k].playFabId)))
  {
    var effects := AggregationEffects(cfg, statName, loginInfo, top, neighbor);
    var f := |FetchCalls(cfg, statName)|;
    assert effects[..f] == FetchCalls(cfg, statName);
  }
}
