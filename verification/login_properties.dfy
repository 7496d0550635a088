/**
  What `login` promises: the re-login guard, the effect of each login
  outcome, the bound on supplier invocations, the extended-profile lookup of
  an existing player, and two concrete new-player runs.
 */
module LoginProperties {
  import opened Wrappers
  import opened Json
  import opened PluginConfig
  import opened Backend
  import opened Session
  import opened UserDataCodec
  import opened ProfileReconciler
  import opened LoginOrchestrator

  /** Holding a truthy session ticket, `login` calls nothing and changes nothing. */
  lemma LoginGuard(
    d: PlayFabData, cfg: Config, customId: string, sessionId: string,
    reply: Settled<LoginResult>, script: UpdateScript, userDataReply: Settled<UserDataResult>, lib: JsonLib)
    requires HasTicket(d)
    ensures AfterLogin(d, cfg, customId, sessionId, reply, script, userDataReply, lib) == Step(d, [])
  {
  }

  /** The new-player branch writes only the profile and the flag. */
  lemma NewPlayerKeepsLogin(d: PlayFabData, cfg: Config, script: UpdateScript, lib: JsonLib)
    ensures var s := NewPlayer(d, cfg, script, lib);
      s.data == d.(profile := s.data.profile, isDisplayNameUpdated := s.data.isDisplayNameUpdated)
  {
    if cfg.login.onNewProfile.Some? {
      var supplier := cfg.login.onNewProfile.value;
      var key := cfg.login.extendedProfileKey;
      ReconcileFrame(d, key, supplier(0), script.displayName(0), script.avatarUrl(0), lib);
      var first := Reconciled(d, key, supplier(0), script.displayName(0), script.avatarUrl(0), lib);
      var n := RetryCount(first.data, key, supplier, script, lib, cfg.login.maxNewProfileRetries);
      RetriesSendOnlyDisplayName(first.data, key, supplier, script, lib, n);
    }
  }

  /**
    Without a ticket, `login` first calls the backend with the title id, the
    user id and the session id. A rejection sets the status to `Error` and
    nothing else; a non-OK answer changes nothing; an OK answer stores the
    login payload and its ticket and sets `NewUser` exactly when the account
    was newly created, `ExistingUser` otherwise.
   */
  lemma LoginOutcome(
    d: PlayFabData, cfg: Config, customId: string, sessionId: string,
    reply: Settled<LoginResult>, script: UpdateScript, userDataReply: Settled<UserDataResult>, lib: JsonLib)
    requires !HasTicket(d)
    ensures var s := AfterLogin(d, cfg, customId, sessionId, reply, script, userDataReply, lib);
      && |s.effects| >= 1
      && s.effects[0] == ClientLoginWithCustomId(cfg.titleId, customId, sessionId)
      && (reply.Rejected? ==> s.data == d.(loginStatus := Error) && |s.effects| == 1)
      && (reply.Fulfilled? && !reply.statusOk ==> s.data == d && |s.effects| == 1)
      && (reply.Fulfilled? && reply.statusOk ==>
            && s.data.loginInfo == Some(reply.data)
            && s.data.sessionTicket == reply.data.sessionTicket
            && s.data.loginStatus == (if reply.data.newlyCreated then NewUser else ExistingUser))
  {
    if reply.Fulfilled? && reply.statusOk && reply.data.newlyCreated {
      var info := reply.data;
      var stored := d.(loginInfo := Some(info), sessionTicket := info.sessionTicket, loginStatus := NewUser);
      NewPlayerKeepsLogin(stored, cfg, script, lib);
    }
  }

  /** Once a login has stored a truthy ticket, a second `login` in the session is a no-op. */
  lemma SecondLoginIsNoOp(
    d: PlayFabData, cfg: Config, customId: string, sessionId: string, info: LoginResult,
    script: UpdateScript, userDataReply: Settled<UserDataResult>, lib: JsonLib,
    reply2: Settled<LoginResult>, script2: UpdateScript, userDataReply2: Settled<UserDataResult>)
    requires !HasTicket(d) && TruthyString(info.sessionTicket)
    ensures var s := AfterLogin(d, cfg, customId, sessionId, Fulfilled(true, info), script, userDataReply, lib);
      AfterLogin(s.data, cfg, customId, sessionId, reply2, script2, userDataReply2, lib) == Step(s.data, [])
  {
    LoginOutcome(d, cfg, customId, sessionId, Fulfilled(true, info), script, userDataReply, lib);
  }

  /**
    For a new player, the supplier is not invoked unless configured; then it
    is invoked once, and when that first profile leaves the name unconfirmed
    it is invoked again once per retry, between 1 and
    `max(1, maxNewProfileRetries)` more times, each retry sending only the
    display name.
   */
  lemma NewPlayerSupplierCalls(d: PlayFabData, cfg: Config, script: UpdateScript, lib: JsonLib)
    ensures var s := NewPlayer(d, cfg, script, lib);
      && (cfg.login.onNewProfile.None? ==> s == Step(d, []))
      && (cfg.login.onNewProfile.Some? ==>
            var supplier := cfg.login.onNewProfile.value;
            var key := cfg.login.extendedProfileKey;
            var first := Reconciled(d, key, supplier(0), script.displayName(0), script.avatarUrl(0), lib);
            && (first.data.isDisplayNameUpdated == Some(true) ==>
                  SupplierCalls(s.effects) == 1 && s.data == first.data)
            && (first.data.isDisplayNameUpdated != Some(true) ==>
                  var n := RetryCount(first.data, key, supplier, script, lib, cfg.login.maxNewProfileRetries);
                  && 2 <= SupplierCalls(s.effects) == 1 + n <= 1 + RetryBound(cfg.login.maxNewProfileRetries)
                  && s.effects == [OnNewProfile] + first.effects + RetryEffects(supplier, n)))
  {
    if cfg.login.onNewProfile.Some? {
      var supplier := cfg.login.onNewProfile.value;
      var key := cfg.login.extendedProfileKey;
      var first := Reconciled(d, key, supplier(0), script.displayName(0), script.avatarUrl(0), lib);
      ReconcileFrame(d, key, supplier(0), script.displayName(0), script.avatarUrl(0), lib);
      SupplierCallsAppend([OnNewProfile], first.effects);
      if first.data.isDisplayNameUpdated != Some(true) {
        var n := RetryCount(first.data, key, supplier, script, lib, cfg.login.maxNewProfileRetries);
        RetryCountIsFirstConfirmation(first.data, key, supplier, script, lib, cfg.login.maxNewProfileRetries);
        RetriesSendOnlyDisplayName(first.data, key, supplier, script, lib, n);
        var rest := AfterRetries(first.data, key, supplier, script, lib, n);
        SupplierCallsAppend([OnNewProfile] + first.effects, rest.effects);
      }
    }
  }

  /**
    An existing player's profile takes its display name and avatar from the
    embedded player profile. With an extended-profile key configured, the
    extended profile comes from the embedded records when they hold the key
    (no fetch is issued), otherwise from one fetch of that key; it is set
    only to a truthy value.
   */
  lemma ExistingPlayerProfile(info: LoginResult, key: string, reply: Settled<UserDataResult>, lib: JsonLib)
    ensures var r := ExistingProfile(info, key, reply, lib);
      && r.0.displayName == PayloadProfile(info).displayName
      && r.0.avatarUrl == PayloadProfile(info).avatarUrl
      && (r.0.extendedProfile.Some? ==> key != "" && Truthy(r.0.extendedProfile.value))
      && (key == "" ==> r.0.extendedProfile.None? && r.1 == [])
      && (key != "" && EmbedsKey(info, key) ==>
            var v := DecodeValue(RawValue(EmbeddedUserData(info).value[key]), lib);
            && r.1 == []
            && r.0.extendedProfile == (if Truthy(v) then Some(v) else None))
      && (key != "" && !EmbedsKey(info, key) ==>
            var fetched := UserDataOf(reply, lib);
            && r.1 == [ClientGetUserData([key], None)]
            && r.0.extendedProfile
               == (if fetched.Some? && key in fetched.value && Truthy(fetched.value[key])
                   then Some(fetched.value[key]) else None))
  {
  }

  /**
    An existing player's login stores that profile, and fetches user data
    exactly when a key is configured that the login response does not embed.
   */
  lemma ExistingPlayerLogin(
    d: PlayFabData, cfg: Config, customId: string, sessionId: string, info: LoginResult,
    script: UpdateScript, userDataReply: Settled<UserDataResult>, lib: JsonLib)
    requires !HasTicket(d) && !info.newlyCreated
    ensures var s := AfterLogin(d, cfg, customId, sessionId, Fulfilled(true, info), script, userDataReply, lib);
            var key := cfg.login.extendedProfileKey;
      && s.data.loginStatus == ExistingUser
      && s.data.profile == Some(ExistingProfile(info, key, userDataReply, lib).0)
      && ((exists e :: e in s.effects && e.ClientGetUserData?) <==> key != "" && !EmbedsKey(info, key))
  {
    var key := cfg.login.extendedProfileKey;
    var s := AfterLogin(d, cfg, customId, sessionId, Fulfilled(true, info), script, userDataReply, lib);
    ExistingPlayerProfile(info, key, userDataReply, lib);
    if key != "" && !EmbedsKey(info, key) {
      assert s.effects[1] == ClientGetUserData([key], None);
    }
  }

  /**
    What one retry does to the flag: a retry whose name the backend accepts
    sets it, one whose name is taken clears it, and any other outcome (or a
    candidate without a name) leaves it as the previous retry left it. An
    accepted name is committed as the whole profile, since a retry sends
    only the name.
   */
  lemma RetryOutcome(
    d: PlayFabData, key: string, supplier: nat -> ProfileInfo, script: UpdateScript, lib: JsonLib, n: nat)
    requires n >= 1
    ensures var name := supplier(n).displayName;
            var reply := script.displayName(n);
      && (ConfirmedAfter(d, key, supplier, script, lib, n) <==>
            if TruthyString(name) && (ConfirmsName(reply) || IsNameConflict(reply)) then ConfirmsName(reply)
            else ConfirmedAfter(d, key, supplier, script, lib, n - 1))
      && (TruthyString(name) && IsNameConflict(reply) ==>
            AfterRetries(d, key, supplier, script, lib, n).data.isDisplayNameUpdated == Some(false))
      && (TruthyString(name) && ConfirmsName(reply) ==>
            AfterRetries(d, key, supplier, script, lib, n).data.profile
              == Some(ProfileInfo(reply.data.displayName, None, None)))
  {
    var s := AfterRetries(d, key, supplier, script, lib, n - 1);
    var p := NameOnly(supplier(n));
    var reply := script.displayName(n);
    if TruthyString(p.displayName) && ConfirmsName(reply) {
      ReconcileConfirmedName(s.data, key, p, reply, script.avatarUrl(n), lib);
    } else if TruthyString(p.displayName) && IsNameConflict(reply) {
      ReconcileNameConflict(s.data, key, p, reply, script.avatarUrl(n), lib);
    } else {
      ReconcileFlag(s.data, key, p, reply, script.avatarUrl(n), lib);
      if TruthyString(p.displayName) {
        assert Issued(p, reply, script.avatarUrl(n)) == [reply];
      }
    }
  }

  /**
    Retries whose names are taken are followed by the first retry whose name
    is accepted, within the bound: the loop stops exactly there, with the
    flag set and the accepted name committed.
   */
  lemma RetryStopsAtAcceptedName(
    d: PlayFabData, key: string, supplier: nat -> ProfileInfo, script: UpdateScript, lib: JsonLib,
    maxRetries: int, m: nat)
    requires 1 <= m <= RetryBound(maxRetries)
    requires forall k :: 1 <= k < m ==> TruthyString(supplier(k).displayName) && IsNameConflict(script.displayName(k))
    requires TruthyString(supplier(m).displayName) && ConfirmsName(script.displayName(m))
    ensures RetryCount(d, key, supplier, script, lib, maxRetries) == m
    ensures AfterRetries(d, key, supplier, script, lib, m).data.isDisplayNameUpdated == Some(true)
    ensures AfterRetries(d, key, supplier, script, lib, m).data.profile
         == Some(ProfileInfo(script.displayName(m).data.displayName, None, None))
  {
    forall k | 1 <= k < m
      ensures !ConfirmedAfter(d, key, supplier, script, lib, k)
    {
      RetryOutcome(d, key, supplier, script, lib, k);
    }
    RetryOutcome(d, key, supplier, script, lib, m);
    LoopStopsAtRetryCount(d, key, supplier, script, lib, maxRetries, m);
  }

  /**
    When every retry's name is taken, the loop runs to its bound,
    `max(1, maxNewProfileRetries)` retries, and leaves the flag false.
   */
  lemma AllRetriesTaken(
    d: PlayFabData, key: string, supplier: nat -> ProfileInfo, script: UpdateScript, lib: JsonLib,
    maxRetries: int)
    requires forall k :: 1 <= k <= RetryBound(maxRetries) ==>
               TruthyString(supplier(k).displayName) && IsNameConflict(script.displayName(k))
    ensures RetryCount(d, key, supplier, script, lib, maxRetries) == RetryBound(maxRetries)
    ensures AfterRetries(d, key, supplier, script, lib, RetryBound(maxRetries)).data.isDisplayNameUpdated == Some(false)
  {
    var b := RetryBound(maxRetries);
    forall k | 1 <= k <= b
      ensures !ConfirmedAfter(d, key, supplier, script, lib, k)
    {
      RetryOutcome(d, key, supplier, script, lib, k);
    }
    RetryCountIsFirstConfirmation(d, key, supplier, script, lib, maxRetries);
    RetryOutcome(d, key, supplier, script, lib, b);
  }

  /**
    A new player whose first name is taken, whose next retries' names are
    taken too, and whose m-th retry's name is accepted within the bound ends
    with the flag set, the accepted name as the profile, and 1 + m supplier
    calls.
   */
  lemma NewPlayerNameAccepted(
    d: PlayFabData, cfg: Config, supplier: nat -> ProfileInfo, script: UpdateScript, lib: JsonLib, m: nat)
    requires cfg.login.onNewProfile == Some(supplier)
    requires TruthyString(supplier(0).displayName) && IsNameConflict(script.displayName(0))
    requires !(TruthyString(supplier(0).avatarUrl)
               && (IsNameConflict(script.avatarUrl(0)) || ConfirmsName(script.avatarUrl(0))))
    requires 1 <= m <= RetryBound(cfg.login.maxNewProfileRetries)
    requires forall k :: 1 <= k < m ==> TruthyString(supplier(k).displayName) && IsNameConflict(script.displayName(k))
    requires TruthyString(supplier(m).displayName) && ConfirmsName(script.displayName(m))
    ensures var s := NewPlayer(d, cfg, script, lib);
      && s.data.isDisplayNameUpdated == Some(true)
      && s.data.profile == Some(ProfileInfo(script.displayName(m).data.displayName, None, None))
      && SupplierCalls(s.effects) == 1 + m
  {
    var key := cfg.login.extendedProfileKey;
    ReconcileNameConflict(d, key, supplier(0), script.displayName(0), script.avatarUrl(0), lib);
    var first := Reconciled(d, key, supplier(0), script.displayName(0), script.avatarUrl(0), lib);
    RetryStopsAtAcceptedName(first.data, key, supplier, script, lib, cfg.login.maxNewProfileRetries, m);
    NewPlayerSupplierCalls(d, cfg, script, lib);
  }
}
