/**
  The plugin's configuration: the profile shape a host supplies, the
  recognised options, their defaults, and the checks the `dialogue.start`
  middleware runs on them before any session work starts.
 */
module PluginConfig {
  import opened Wrappers
  import opened Json

  /** A candidate or stored player profile; every part is optional. */
  datatype ProfileInfo = ProfileInfo(
    displayName: Option<string>,
    avatarUrl: Option<string>,
    extendedProfile: Option<Json>)

  /** The `{}` profile that `init` creates. */
  const EmptyProfile: ProfileInfo := ProfileInfo(None, None, None)

  /**
    Options of the login workflow. The host's `onNewProfile` callback is
    modelled by the answers it gives: the i-th answer is the profile it
    returns on its i-th invocation (counting from 0) within one login.
   */
  datatype LoginConfig = LoginConfig(
    autoLogin: bool,
    onNewProfile: Option<nat -> ProfileInfo>,
    maxNewProfileRetries: int,
    extendedProfileKey: string)

  /** Options of the leaderboard aggregation. */
  datatype LeaderboardConfig = LeaderboardConfig(
    topMax: int,
    neighborMax: int,
    userDataKeys: seq<string>)

  datatype Config = Config(
    titleId: string,
    login: LoginConfig,
    leaderboard: LeaderboardConfig)

  /** Upper bound accepted for `login.maxNewProfileRetries`. */
  const MaxRetriesLimit: int := 10
  /** Upper bound accepted for `leaderboard.topMax` and `leaderboard.neighborMax`. */
  const SliceLimit: int := 100

  /** The configuration the plugin starts from before the host overrides it. */
  function DefaultConfig(): Config {
    Config(
      "",
      LoginConfig(true, None, 2, ""),
      LeaderboardConfig(5, 2, []))
  }

  /** The errors the `dialogue.start` middleware raises, in the order it checks. */
  datatype ConfigError =
    | TitleIdMissing
    | UserIdMissing
    | MaxNewProfileRetriesOutOfRange
    | TopMaxOutOfRange
    | NeighborMaxOutOfRange

  predicate InRange(x: int, lo: int, hi: int) {
    lo <= x <= hi
  }

  /** The three range constraints on numeric options. */
  predicate RangesValid(cfg: Config) {
    && InRange(cfg.login.maxNewProfileRetries, 0, MaxRetriesLimit)
    && InRange(cfg.leaderboard.topMax, 0, SliceLimit)
    && InRange(cfg.leaderboard.neighborMax, 0, SliceLimit)
  }

  /**
    The checks of the middleware, in the order it runs them; `None` means the session
    work may start. `userId` is the host's `$user.id`.
   */
  function Validate(cfg: Config, userId: Option<string>): (r: Option<ConfigError>)
    ensures r.None? <==> cfg.titleId != "" && TruthyString(userId) && RangesValid(cfg)
    ensures cfg.titleId == "" ==> r == Some(TitleIdMissing)
  {
    if cfg.titleId == "" then Some(TitleIdMissing)
    else if !TruthyString(userId) then Some(UserIdMissing)
    else if cfg.login.maxNewProfileRetries < 0 || cfg.login.maxNewProfileRetries > MaxRetriesLimit then
      Some(MaxNewProfileRetriesOutOfRange)
    else if cfg.leaderboard.topMax < 0 || cfg.leaderboard.topMax > SliceLimit then
      Some(TopMaxOutOfRange)
    else if cfg.leaderboard.neighborMax < 0 || cfg.leaderboard.neighborMax > SliceLimit then
      Some(NeighborMaxOutOfRange)
    else None
  }

  /** Each error is reported exactly when its check fails and every earlier one passed. */
  lemma ValidateReportsFirstFailure(cfg: Config, userId: Option<string>)
    ensures Validate(cfg, userId) == Some(UserIdMissing)
        <==> cfg.titleId != "" && !TruthyString(userId)
    ensures Validate(cfg, userId) == Some(MaxNewProfileRetriesOutOfRange)
        <==> cfg.titleId != "" && TruthyString(userId)
             && !InRange(cfg.login.maxNewProfileRetries, 0, MaxRetriesLimit)
    ensures Validate(cfg, userId) == Some(TopMaxOutOfRange)
        <==> cfg.titleId != "" && TruthyString(userId)
             && InRange(cfg.login.maxNewProfileRetries, 0, MaxRetriesLimit)
             && !InRange(cfg.leaderboard.topMax, 0, SliceLimit)
    ensures Validate(cfg, userId) == Some(NeighborMaxOutOfRange)
        <==> cfg.titleId != "" && TruthyString(userId)
             && InRange(cfg.login.maxNewProfileRetries, 0, MaxRetriesLimit)
             && InRange(cfg.leaderboard.topMax, 0, SliceLimit)
             && !InRange(cfg.leaderboard.neighborMax, 0, SliceLimit)
  {
  }

  /**
    The defaults satisfy the range checks, log in automatically and fetch no
    user data for leaderboards; but their empty title id is rejected, so a
    host must always configure one.
   */
  lemma DefaultConfigShape(userId: Option<string>)
    ensures RangesValid(DefaultConfig())
    ensures DefaultConfig().login.maxNewProfileRetries == 2
    ensures DefaultConfig().leaderboard.topMax == 5 && DefaultConfig().leaderboard.neighborMax == 2
    ensures DefaultConfig().login.autoLogin && DefaultConfig().leaderboard.userDataKeys == []
    ensures DefaultConfig().login.onNewProfile.None? && DefaultConfig().login.extendedProfileKey == ""
    ensures Validate(DefaultConfig(), userId) == Some(TitleIdMissing)
  {
  }

  /** With a title id and a user id, the defaults pass every check. */
  lemma DefaultConfigWithTitleIdPasses(titleId: string, userId: Option<string>)
    requires titleId != "" && TruthyString(userId)
    ensures Validate(DefaultConfig().(titleId := titleId), userId).None?
  {
  }
}
