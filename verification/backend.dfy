/**
  The shapes of what the game backend returns, the settled outcome of a
  remote call, and the trace of effects (remote calls and host callback
  invocations) that the session workflow issues.
 */
module Backend {
  import opened Wrappers
  import opened Json

  /** The error code the backend gives when a display name is taken. */
  const NameNotAvailable: string := "NameNotAvailable"

  /**
    A settled remote call: it either resolved with a status and a payload
    (`statusOk` is `status === 'OK'`) or was rejected with an error code.
   */
  datatype Settled<T> = Fulfilled(statusOk: bool, data: T) | Rejected(error: string)

  /** A stored user-data record; the workflow only reads `value`. */
  datatype UserDataRecord = UserDataRecord(
    lastUpdated: string,
    permission: Option<string>,
    value: Option<string>)

  type UserDataRecords = map<string, UserDataRecord>

  datatype PlayerProfile = PlayerProfile(displayName: Option<string>, avatarUrl: Option<string>)

  /** The combined-info facets embedded in a login response. */
  datatype InfoResultPayload = InfoResultPayload(
    playerProfile: Option<PlayerProfile>,
    userData: Option<UserDataRecords>)

  /** The payload of a successful login call (`loginInfo` in the session). */
  datatype LoginResult = LoginResult(
    playFabId: Option<string>,
    sessionTicket: Option<string>,
    newlyCreated: bool,
    infoResultPayload: Option<InfoResultPayload>)

  /** The payload of a display-name or avatar update; only the former carries a name. */
  datatype UpdateResponse = UpdateResponse(displayName: Option<string>)

  /** The payload of a user-data fetch. */
  datatype UserDataResult = UserDataResult(data: Option<UserDataRecords>)

  /**
    One leaderboard row. `isCurrentPlayer` and `userData` are the two
    properties the aggregator writes onto the rows it returns.
   */
  datatype LeaderboardEntry = LeaderboardEntry(
    playFabId: string,
    position: int,
    statValue: int,
    isCurrentPlayer: bool,
    userData: Option<map<string, Json>>)

  /** The payload of a leaderboard fetch. */
  datatype LeaderboardResult = LeaderboardResult(leaderboard: Option<seq<LeaderboardEntry>>)

  datatype Permission = Private | Public

  /**
    What the workflow does to the outside world, in the order it does it:
    the backend client calls it issues and the invocations of the host's
    `onNewProfile` callback.
   */
  datatype Effect =
    | ClientLoginWithCustomId(titleId: string, customId: string, sessionId: string)
    | OnNewProfile
    | ClientUpdateUserTitleDisplayName(displayName: string)
    | ClientUpdateAvatarUrl(imageUrl: string)
    | ClientUpdateUserData(records: map<string, string>, permission: Permission)
    | ClientGetUserData(keys: seq<string>, playFabId: Option<string>)
    | ClientGetLeaderboard(statisticName: string, maxResultsCount: int, startPosition: int)
    | ClientGetLeaderboardAroundPlayer(statisticName: string, maxResultsCount: int)

  /** The number of host `onNewProfile` invocations in a trace. */
  function SupplierCalls(effects: seq<Effect>): (n: nat)
    ensures n <= |effects|
  {
    if effects == [] then 0
    else SupplierCalls(effects[..|effects| - 1])
         + (if effects[|effects| - 1].OnNewProfile? then 1 else 0)
  }

  lemma {:induction false} SupplierCallsAppend(a: seq<Effect>, b: seq<Effect>)
    ensures SupplierCalls(a + b) == SupplierCalls(a) + SupplierCalls(b)
    decreases |b|
  {
    if b == [] {
      assert a + b == a;
    } else {
      var b' := b[..|b| - 1];
      assert (a + b)[..|a + b| - 1] == a + b';
      SupplierCallsAppend(a, b');
    }
  }

  /** A trace is free of supplier invocations iff none of its effects is one. */
  lemma {:induction false} NoSupplierCalls(effects: seq<Effect>)
    ensures SupplierCalls(effects) == 0 <==> forall i :: 0 <= i < |effects| ==> !effects[i].OnNewProfile?
    decreases |effects|
  {
    if effects != [] {
      NoSupplierCalls(effects[..|effects| - 1]);
    }
  }
}
