/**
  The plugin's `dialogue.start` hook: check the configuration and the user
  id, set up the session's `playfab` object, and log in when `autoLogin` is
  on. A failed check throws before the session is touched.
 */
module Plugin {
  import opened Wrappers
  import opened Json
  import opened PluginConfig
  import opened Backend
  import opened Session
  import opened UserDataCodec
  import opened LoginOrchestrator
  import opened LoginProperties

  /**
    What `dialogue.start` does to the session's `playfab` object `before`
    (None when the session has none): the configuration error it throws, or
    the new state and the calls made.
   */
  function Started(
    cfg: Config, userId: Option<string>, sessionId: string, before: Option<PlayFabData>,
    reply: Settled<LoginResult>, script: UpdateScript, userDataReply: Settled<UserDataResult>, lib: JsonLib)
    : Result<Step, ConfigError>
  {
    var err := Validate(cfg, userId);
    if err.Some? then Failure(err.value)
    else
      var d := Initialized(before);
      if cfg.login.autoLogin then Success(AfterLogin(d, cfg, userId.value, sessionId, reply, script, userDataReply, lib))
      else Success(Step(d, []))
  }

  /**
    The hook itself. `userId` is the platform user id (None when the
    request carries none), `sessionId` the conversation's session id.
   */
  method DialogueStart(
    cfg: Config, userId: Option<string>, sessionId: string, store: SessionStore,
    reply: Settled<LoginResult>, script: UpdateScript, userDataReply: Settled<UserDataResult>, lib: JsonLib)
    returns (r: Result<seq<Effect>, ConfigError>)
    modifies store, store.playfab
    ensures var s := Started(cfg, userId, sessionId, old(store.PlayFab()), reply, script, userDataReply, lib);
      && (s.Failure? ==> r == Failure(s.error) && store.playfab == old(store.playfab) && store.PlayFab() == old(store.PlayFab()))
      && (s.Success? ==> r == Success(s.value.effects) && store.PlayFab() == Some(s.value.data))
  {
    var err := Validate(cfg, userId);
    if err.Some? {
      return Failure(err.value);
    }
    Init(store);
    var effects := [];
    if cfg.login.autoLogin {
      effects := Login(store.playfab, cfg, userId.value, sessionId, reply, script, userDataReply, lib);
    }
    return Success(effects);
  }

  /**
    The hook throws exactly when a check fails, with the first failing
    check's error, and then makes no call; the title id is checked first.
   */
  lemma StartRejectsInvalidConfig(
    cfg: Config, userId: Option<string>, sessionId: string, before: Option<PlayFabData>,
    reply: Settled<LoginResult>, script: UpdateScript, userDataReply: Settled<UserDataResult>, lib: JsonLib)
    ensures var s := Started(cfg, userId, sessionId, before, reply, script, userDataReply, lib);
      && (s.Failure? <==> cfg.titleId == "" || !TruthyString(userId) || !RangesValid(cfg))
      && (cfg.titleId == "" ==> s == Failure(TitleIdMissing))
      && (cfg.titleId != "" && !TruthyString(userId) ==> s == Failure(UserIdMissing))
  {
    ValidateReportsFirstFailure(cfg, userId);
  }

  /** With the default configuration the hook always throws for the missing title id. */
  lemma DefaultConfigFailsToStart(
    userId: Option<string>, sessionId: string, before: Option<PlayFabData>,
    reply: Settled<LoginResult>, script: UpdateScript, userDataReply: Settled<UserDataResult>, lib: JsonLib)
    ensures Started(DefaultConfig(), userId, sessionId, before, reply, script, userDataReply, lib)
         == Failure(TitleIdMissing)
  {
  }

  /**
    After the checks pass, the session always holds a profile. Without
    `autoLogin` nothing is called; with it, a session without a ticket is
    logged in with the user id as custom id.
   */
  lemma StartInitializesThenLogsIn(
    cfg: Config, userId: Option<string>, sessionId: string, before: Option<PlayFabData>,
    reply: Settled<LoginResult>, script: UpdateScript, userDataReply: Settled<UserDataResult>, lib: JsonLib)
    requires cfg.titleId != "" && TruthyString(userId) && RangesValid(cfg)
    ensures var s := Started(cfg, userId, sessionId, before, reply, script, userDataReply, lib);
      && s.Success?
      && (!cfg.login.autoLogin ==> s.value == Step(Initialized(before), []) && s.value.data.profile.Some?)
      && (cfg.login.autoLogin && !HasTicket(Initialized(before)) ==>
            && |s.value.effects| >= 1
            && s.value.effects[0] == ClientLoginWithCustomId(cfg.titleId, userId.value, sessionId))
  {
    if cfg.login.autoLogin && !HasTicket(Initialized(before)) {
      LoginOutcome(Initialized(before), cfg, userId.value, sessionId, reply, script, userDataReply, lib);
    }
  }

  /**
    A ticket obtained in one request of a session is kept: the next
    request's `dialogue.start` makes no call and changes nothing but a
    missing profile.
   */
  lemma RestartKeepsLogin(
    cfg: Config, userId: Option<string>, sessionId: string, before: Option<PlayFabData>,
    info: LoginResult, script: UpdateScript, userDataReply: Settled<UserDataResult>, lib: JsonLib,
    reply2: Settled<LoginResult>, script2: UpdateScript, userDataReply2: Settled<UserDataResult>)
    requires cfg.titleId != "" && TruthyString(userId) && RangesValid(cfg) && cfg.login.autoLogin
    requires !HasTicket(Initialized(before)) && TruthyString(info.sessionTicket)
    ensures var first := Started(cfg, userId, sessionId, before, Fulfilled(true, info), script, userDataReply, lib);
      && first.Success?
      && var second := Started(cfg, userId, sessionId, Some(first.value.data), reply2, script2, userDataReply2, lib);
         second == Success(Step(Initialized(Some(first.value.data)), []))
  {
    var d := Initialized(before);
    LoginOutcome(d, cfg, userId.value, sessionId, Fulfilled(true, info), script, userDataReply, lib);
    var first := AfterLogin(d, cfg, userId.value, sessionId, Fulfilled(true, info), script, userDataReply, lib);
    assert HasTicket(Initialized(Some(first.data)));
  }
}
