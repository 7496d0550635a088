/**
  The per-session state of the plugin (`$session.data.playfab`) and its
  lazy creation by `init`.
 */
module Session {
  import opened Wrappers
  import opened Json
  import opened PluginConfig
  import opened Backend

  /** `loginStatus`; `Unset` is the property not yet written. */
  datatype LoginStatus = Unset | NewUser | ExistingUser | Error

  /** A snapshot of every field of the session state. */
  datatype PlayFabData = PlayFabData(
    loginStatus: LoginStatus,
    loginInfo: Option<LoginResult>,
    sessionTicket: Option<string>,
    profile: Option<ProfileInfo>,
    isDisplayNameUpdated: Option<bool>)

  /** The `{}` object `init` creates when the session has none. */
  const Blank: PlayFabData := PlayFabData(Unset, None, None, None, None)

  /** The state after an operation together with the effects it issued, in order. */
  datatype Step = Step(data: PlayFabData, effects: seq<Effect>)

  /** The re-login guard: a truthy session ticket is held. */
  predicate HasTicket(d: PlayFabData) {
    TruthyString(d.sessionTicket)
  }

  /**
    What `init` leaves: the existing state (or a blank one), with an empty
    profile filled in only where none exists.
   */
  function Initialized(d: Option<PlayFabData>): (r: PlayFabData)
    ensures r.profile.Some?
    ensures d.Some? ==> r == d.value.(profile := r.profile)
    ensures d.Some? && d.value.profile.Some? ==> r == d.value
    ensures d.None? ==> r == Blank.(profile := Some(EmptyProfile))
    ensures d.Some? && d.value.profile.None? ==> r.profile == Some(EmptyProfile)
  {
    var base := d.GetOr(Blank);
    if base.profile.Some? then base else base.(profile := Some(EmptyProfile))
  }

  /** Running `init` again changes nothing. */
  lemma InitIsIdempotent(d: Option<PlayFabData>)
    ensures Initialized(Some(Initialized(d))) == Initialized(d)
  {
  }

  /** `$session.data.playfab`: mutable, one per conversational session. */
  class PlayFabSession {
    var loginStatus: LoginStatus
    var loginInfo: Option<LoginResult>
    var sessionTicket: Option<string>
    var profile: Option<ProfileInfo>
    var isDisplayNameUpdated: Option<bool>

    constructor ()
      ensures Data() == Blank
    {
      loginStatus := Unset;
      loginInfo := None;
      sessionTicket := None;
      profile := None;
      isDisplayNameUpdated := None;
    }

    /** The current value of every field. */
    function Data(): PlayFabData
      reads this
    {
      PlayFabData(loginStatus, loginInfo, sessionTicket, profile, isDisplayNameUpdated)
    }
  }

  /** `$session.data`: holds the plugin's state once `init` has created it. */
  class SessionStore {
    var playfab: PlayFabSession?

    constructor ()
      ensures playfab == null
    {
      playfab := null;
    }

    /** The plugin's state, if any. */
    function PlayFab(): Option<PlayFabData>
      reads this, playfab
    {
      if playfab == null then None else Some(playfab.Data())
    }
  }

  /**
    `init`: create the session state if it is missing and give it an empty
    profile if it has none; an existing state object is kept.
   */
  method Init(store: SessionStore)
    modifies store, store.playfab
    ensures store.playfab != null
    ensures old(store.playfab) == null ==> fresh(store.playfab)
    ensures old(store.playfab) != null ==> store.playfab == old(store.playfab)
    ensures store.playfab.Data() == Initialized(old(store.PlayFab()))
  {
    if store.playfab == null {
      store.playfab := new PlayFabSession();
    }
    if store.playfab.profile.None? {
      store.playfab.profile := Some(EmptyProfile);
    }
  }
}
