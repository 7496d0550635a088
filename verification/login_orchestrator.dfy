/**
  The login orchestrator (`login`): the re-login guard, the login call, the
  new-player branch with its bounded display-name retry loop, and the
  existing-player branch that restores the profile.
 */
module LoginOrchestrator {
  import opened Wrappers
  import opened Json
  import opened PluginConfig
  import opened Backend
  import opened Session
  import opened UserDataCodec
  import opened ProfileReconciler

  /**
    The backend's answers to the display-name and avatar updates of the
    i-th `updateProfile` call of one login (0 = the first, i = the i-th retry).
   */
  datatype UpdateScript = UpdateScript(
    displayName: nat -> Settled<UpdateResponse>,
    avatarUrl: nat -> Settled<UpdateResponse>)

  /**
    How many retries the `do … while` loop can make: it always runs once,
    so a configured bound below 1 still allows one retry.
   */
  function RetryBound(maxRetries: int): (n: nat)
    ensures n >= 1 && n >= maxRetries
    ensures maxRetries >= 1 ==> n == maxRetries
    ensures maxRetries < 1 ==> n == 1
  {
    if maxRetries < 1 then 1 else maxRetries
  }

  /** The candidate a retry sends: the supplier's display name and nothing else. */
  function NameOnly(p: ProfileInfo): ProfileInfo {
    ProfileInfo(p.displayName, None, None)
  }

  /** State and effects after the first `n` retries, starting from `d`. */
  function AfterRetries(
    d: PlayFabData, key: string, supplier: nat -> ProfileInfo, script: UpdateScript, lib: JsonLib, n: nat): Step
    decreases n
  {
    if n == 0 then Step(d, [])
    else
      var s := AfterRetries(d, key, supplier, script, lib, n - 1);
      var r := Reconciled(s.data, key, NameOnly(supplier(n)), script.displayName(n), script.avatarUrl(n), lib);
      Step(r.data, s.effects + [OnNewProfile] + r.effects)
  }

  /** After `n` retries the display name is confirmed. */
  predicate ConfirmedAfter(
    d: PlayFabData, key: string, supplier: nat -> ProfileInfo, script: UpdateScript, lib: JsonLib, n: nat)
  {
    AfterRetries(d, key, supplier, script, lib, n).data.isDisplayNameUpdated == Some(true)
  }

  /** The first retry number from `j` on that confirms the name, or `bound`. */
  function FirstConfirmed(
    d: PlayFabData, key: string, supplier: nat -> ProfileInfo, script: UpdateScript, lib: JsonLib,
    j: nat, bound: nat): nat
    requires 1 <= j <= bound
    decreases bound - j
  {
    if j == bound || ConfirmedAfter(d, key, supplier, script, lib, j) then j
    else FirstConfirmed(d, key, supplier, script, lib, j + 1, bound)
  }

  /** The number of retries the loop makes from state `d`. */
  function RetryCount(
    d: PlayFabData, key: string, supplier: nat -> ProfileInfo, script: UpdateScript, lib: JsonLib,
    maxRetries: int): nat
  {
    FirstConfirmed(d, key, supplier, script, lib, 1, RetryBound(maxRetries))
  }

  lemma {:induction false} FirstConfirmedIsFirst(
    d: PlayFabData, key: string, supplier: nat -> ProfileInfo, script: UpdateScript, lib: JsonLib,
    j: nat, bound: nat)
    requires 1 <= j <= bound
    ensures var n := FirstConfirmed(d, key, supplier, script, lib, j, bound);
      && j <= n <= bound
      && (forall k :: j <= k < n ==> !ConfirmedAfter(d, key, supplier, script, lib, k))
      && (n < bound ==> ConfirmedAfter(d, key, supplier, script, lib, n))
    decreases bound - j
  {
    if j < bound && !ConfirmedAfter(d, key, supplier, script, lib, j) {
      FirstConfirmedIsFirst(d, key, supplier, script, lib, j + 1, bound);
    }
  }

  /**
    The loop makes at least one and at most `max(1, maxNewProfileRetries)`
    retries, and stops at the first one that confirms the display name.
   */
  lemma RetryCountIsFirstConfirmation(
    d: PlayFabData, key: string, supplier: nat -> ProfileInfo, script: UpdateScript, lib: JsonLib,
    maxRetries: int)
    ensures var n := RetryCount(d, key, supplier, script, lib, maxRetries);
      && 1 <= n <= RetryBound(maxRetries)
      && (forall k :: 1 <= k < n ==> !ConfirmedAfter(d, key, supplier, script, lib, k))
      && (n < RetryBound(maxRetries) ==> ConfirmedAfter(d, key, supplier, script, lib, n))
  {
    FirstConfirmedIsFirst(d, key, supplier, script, lib, 1, RetryBound(maxRetries));
  }

  /**
    Where the `do … while` loop stops: having run at least once, at the
    first retry that confirms the name or when the configured bound is
    reached, which is the retry count.
   */
  lemma LoopStopsAtRetryCount(
    d: PlayFabData, key: string, supplier: nat -> ProfileInfo, script: UpdateScript, lib: JsonLib,
    maxRetries: int, count: nat)
    requires 1 <= count <= RetryBound(maxRetries)
    requires forall k :: 1 <= k < count ==> !ConfirmedAfter(d, key, supplier, script, lib, k)
    requires count >= maxRetries || ConfirmedAfter(d, key, supplier, script, lib, count)
    ensures count == RetryCount(d, key, supplier, script, lib, maxRetries)
  {
    RetryCountIsFirstConfirmation(d, key, supplier, script, lib, maxRetries);
  }

  /** The effects of `n` retries whatever the backend answers: a supplier call, then the name update. */
  function RetryEffects(supplier: nat -> ProfileInfo, n: nat): seq<Effect>
    decreases n
  {
    if n == 0 then []
    else
      var name := supplier(n).displayName;
      RetryEffects(supplier, n - 1) + [OnNewProfile]
      + (if TruthyString(name) then [ClientUpdateUserTitleDisplayName(name.value)] else [])
  }

  /**
    Each retry invokes the supplier once and sends only the display name it
    returned; the login fields of the session are left as they were.
   */
  lemma {:induction false} RetriesSendOnlyDisplayName(
    d: PlayFabData, key: string, supplier: nat -> ProfileInfo, script: UpdateScript, lib: JsonLib, n: nat)
    ensures var s := AfterRetries(d, key, supplier, script, lib, n);
      && s.effects == RetryEffects(supplier, n)
      && SupplierCalls(s.effects) == n
      && s.data == d.(profile := s.data.profile, isDisplayNameUpdated := s.data.isDisplayNameUpdated)
    decreases n
  {
    if n > 0 {
      RetriesSendOnlyDisplayName(d, key, supplier, script, lib, n - 1);
      var s := AfterRetries(d, key, supplier, script, lib, n - 1);
      var p := NameOnly(supplier(n));
      ReconcileNameOnly(s.data, key, p.displayName, script.displayName(n), script.avatarUrl(n), lib);
      ReconcileFrame(s.data, key, p, script.displayName(n), script.avatarUrl(n), lib);
      var r := Reconciled(s.data, key, p, script.displayName(n), script.avatarUrl(n), lib);
      SupplierCallsAppend(s.effects, [OnNewProfile]);
      SupplierCallsAppend(s.effects + [OnNewProfile], r.effects);
    }
  }

  /**
    The retry loop (`do … while`): ask the supplier for a new candidate and
    send its display name, until the name is confirmed or the bound is hit.
   */
  method RetryDisplayName(st: PlayFabSession, cfg: Config, script: UpdateScript, lib: JsonLib)
    returns (effects: seq<Effect>)
    requires cfg.login.onNewProfile.Some?
    modifies st
    ensures var d := old(st.Data());
            var key := cfg.login.extendedProfileKey;
            var supplier := cfg.login.onNewProfile.value;
            var s := AfterRetries(d, key, supplier, script, lib,
                                  RetryCount(d, key, supplier, script, lib, cfg.login.maxNewProfileRetries));
      st.Data() == s.data && effects == s.effects
  {
    ghost var d0 := st.Data();
    var key := cfg.login.extendedProfileKey;
    var supplier := cfg.login.onNewProfile.value;
    ghost var bound := RetryBound(cfg.login.maxNewProfileRetries);
    var count := 0;
    effects := [];
    while count == 0 || (count < cfg.login.maxNewProfileRetries && st.isDisplayNameUpdated != Some(true))
      invariant 0 <= count <= bound
      invariant st.Data() == AfterRetries(d0, key, supplier, script, lib, count).data
      invariant effects == AfterRetries(d0, key, supplier, script, lib, count).effects
      invariant forall k :: 1 <= k < count ==> !ConfirmedAfter(d0, key, supplier, script, lib, k)
      decreases bound - count
    {
      assert count >= 1 ==> !ConfirmedAfter(d0, key, supplier, script, lib, count);
      count := count + 1;
      var candidate := supplier(count);
      ghost var prev := Step(st.Data(), effects);
      var e := UpdateProfile(st, cfg, NameOnly(candidate), script.displayName(count), script.avatarUrl(count), lib);
      effects := effects + [OnNewProfile] + e;
      assert AfterRetries(d0, key, supplier, script, lib, count)
          == Step(st.Data(), prev.effects + [OnNewProfile] + e);
    }
    LoopStopsAtRetryCount(d0, key, supplier, script, lib, cfg.login.maxNewProfileRetries, count);
  }

  /** The user data embedded in the login response, if any. */
  function EmbeddedUserData(info: LoginResult): Option<UserDataRecords> {
    if info.infoResultPayload.Some? then info.infoResultPayload.value.userData else None
  }

  /** The login response already carries a record under `key`. */
  predicate EmbedsKey(info: LoginResult, key: string) {
    EmbeddedUserData(info).Some? && key in EmbeddedUserData(info).value
  }

  /** The display name and avatar of the embedded player profile. */
  function PayloadProfile(info: LoginResult): ProfileInfo {
    var pp := if info.infoResultPayload.Some? then info.infoResultPayload.value.playerProfile else None;
    ProfileInfo(
      if pp.Some? then pp.value.displayName else None,
      if pp.Some? then pp.value.avatarUrl else None,
      None)
  }

  /**
    Where the extended profile is looked up: the embedded records when they
    hold the key (no call), else one fetch of that key.
   */
  function ExtendedSource(info: LoginResult, key: string, reply: Settled<UserDataResult>, lib: JsonLib)
    : (Option<map<string, Json>>, seq<Effect>)
  {
    if EmbedsKey(info, key) then (Some(Decoded(EmbeddedUserData(info), lib)), [])
    else (UserDataOf(reply, lib), [ClientGetUserData([key], None)])
  }

  /** The profile restored for an existing player, and the effects of restoring it. */
  function ExistingProfile(info: LoginResult, key: string, reply: Settled<UserDataResult>, lib: JsonLib)
    : (ProfileInfo, seq<Effect>)
  {
    var base := PayloadProfile(info);
    if key == "" then (base, [])
    else
      var source := ExtendedSource(info, key, reply, lib);
      var data := source.0;
      if data.Some? && key in data.value && Truthy(data.value[key]) then
        (base.(extendedProfile := Some(data.value[key])), source.1)
      else (base, source.1)
  }

  /** The new-player branch after the login fields are stored. */
  function NewPlayer(d: PlayFabData, cfg: Config, script: UpdateScript, lib: JsonLib): Step {
    match cfg.login.onNewProfile
    case None => Step(d, [])
    case Some(supplier) =>
      var key := cfg.login.extendedProfileKey;
      var first := Reconciled(d, key, supplier(0), script.displayName(0), script.avatarUrl(0), lib);
      if first.data.isDisplayNameUpdated == Some(true) then
        Step(first.data, [OnNewProfile] + first.effects)
      else
        var n := RetryCount(first.data, key, supplier, script, lib, cfg.login.maxNewProfileRetries);
        var rest := AfterRetries(first.data, key, supplier, script, lib, n);
        Step(rest.data, [OnNewProfile] + first.effects + rest.effects)
  }

  /**
    What `login` does to state `d`: `customId` is the user id, `sessionId`
    the conversation's session id, `reply` the settled login call.
   */
  function AfterLogin(
    d: PlayFabData, cfg: Config, customId: string, sessionId: string,
    reply: Settled<LoginResult>, script: UpdateScript, userDataReply: Settled<UserDataResult>, lib: JsonLib): Step
  {
    if HasTicket(d) then Step(d, [])
    else
      var call := ClientLoginWithCustomId(cfg.titleId, customId, sessionId);
      match reply
      case Rejected(_) => Step(d.(loginStatus := Error), [call])
      case Fulfilled(ok, info) =>
        if !ok then Step(d, [call])
        else
          var stored := d.(loginInfo := Some(info), sessionTicket := info.sessionTicket);
          if info.newlyCreated then
            var s := NewPlayer(stored.(loginStatus := NewUser), cfg, script, lib);
            Step(s.data, [call] + s.effects)
          else
            var restored := ExistingProfile(info, cfg.login.extendedProfileKey, userDataReply, lib);
            Step(stored.(loginStatus := ExistingUser, profile := Some(restored.0)), [call] + restored.1)
  }

  /**
    The new-player branch: ask the supplier for a profile, apply it, and
    retry the display name while it is not confirmed.
   */
  method SetUpNewPlayer(st: PlayFabSession, cfg: Config, script: UpdateScript, lib: JsonLib)
    returns (effects: seq<Effect>)
    modifies st
    ensures var s := NewPlayer(old(st.Data()), cfg, script, lib);
      st.Data() == s.data && effects == s.effects
  {
    ghost var d0 := st.Data();
    effects := [];
    if cfg.login.onNewProfile.Some? {
      var supplier := cfg.login.onNewProfile.value;
      var key := cfg.login.extendedProfileKey;
      ghost var first := Reconciled(d0, key, supplier(0), script.displayName(0), script.avatarUrl(0), lib);
      var e := UpdateProfile(st, cfg, supplier(0), script.displayName(0), script.avatarUrl(0), lib);
      effects := [OnNewProfile] + e;
      if st.isDisplayNameUpdated != Some(true) {
        ghost var n := RetryCount(first.data, key, supplier, script, lib, cfg.login.maxNewProfileRetries);
        ghost var rest := AfterRetries(first.data, key, supplier, script, lib, n);
        assert NewPlayer(d0, cfg, script, lib) == Step(rest.data, [OnNewProfile] + first.effects + rest.effects);
        var e2 := RetryDisplayName(st, cfg, script, lib);
        effects := effects + e2;
      } else {
        assert NewPlayer(d0, cfg, script, lib) == Step(first.data, [OnNewProfile] + first.effects);
      }
    }
  }

  /**
    The existing-player branch: the profile from the login response, with
    the extended profile from the embedded records or from one fetch.
   */
  method RestoreProfile(info: LoginResult, cfg: Config, userDataReply: Settled<UserDataResult>, lib: JsonLib)
    returns (profile: ProfileInfo, effects: seq<Effect>)
    ensures (profile, effects) == ExistingProfile(info, cfg.login.extendedProfileKey, userDataReply, lib)
  {
    profile := PayloadProfile(info);
    effects := [];
    var key := cfg.login.extendedProfileKey;
    if key != "" {
      ghost var source := ExtendedSource(info, key, userDataReply, lib);
      var data: Option<map<string, Json>>;
      if EmbedsKey(info, key) {
        var parsed := ParseUserDataRecords(EmbeddedUserData(info), lib);
        data := Some(parsed);
      } else {
        var call;
        data, call := GetUserData([key], None, userDataReply, lib);
        effects := effects + [call];
      }
      assert data == source.0 && effects == source.1;
      if data.Some? && key in data.value && Truthy(data.value[key]) {
        profile := profile.(extendedProfile := Some(data.value[key]));
      }
    }
  }

  /**
    `login`: unless a session ticket is held, log in with the user id and
    set up the session state for a new or an existing player.
   */
  method Login(
    st: PlayFabSession, cfg: Config, customId: string, sessionId: string,
    reply: Settled<LoginResult>, script: UpdateScript, userDataReply: Settled<UserDataResult>, lib: JsonLib)
    returns (effects: seq<Effect>)
    modifies st
    ensures var s := AfterLogin(old(st.Data()), cfg, customId, sessionId, reply, script, userDataReply, lib);
      st.Data() == s.data && effects == s.effects
  {
    if TruthyString(st.sessionTicket) {
      return [];
    }
    effects := [ClientLoginWithCustomId(cfg.titleId, customId, sessionId)];
    match reply {
      case Rejected(_) =>
        st.loginStatus := Error;
      case Fulfilled(ok, info) =>
        if ok {
          st.loginInfo := Some(info);
          st.sessionTicket := info.sessionTicket;
          if info.newlyCreated {
            st.loginStatus := NewUser;
            var e := SetUpNewPlayer(st, cfg, script, lib);
            effects := effects + e;
          } else {
            st.loginStatus := ExistingUser;
            var profile, e := RestoreProfile(info, cfg, userDataReply, lib);
            effects := effects + e;
            st.profile := Some(profile);
          }
        }
    }
  }
}
