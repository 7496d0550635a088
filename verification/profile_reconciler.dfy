/**
  The profile reconciler (`updateProfile`): up to two update calls, a
  fail-soft pass over their settled outcomes in the order they were issued,
  and a commit of the profile only when at least one call succeeded.
 */
module ProfileReconciler {
  import opened Wrappers
  import opened Json
  import opened PluginConfig
  import opened Backend
  import opened Session
  import opened UserDataCodec

  /**
    What the pass over settled outcomes accumulates: the number of OK
    results, the display name to commit and the `isDisplayNameUpdated` flag.
   */
  datatype Tally = Tally(successes: nat, displayName: Option<string>, nameUpdated: Option<bool>)

  /** A call that resolved with an OK status. */
  predicate Succeeded(r: Settled<UpdateResponse>) {
    r.Fulfilled? && r.statusOk
  }

  /** An OK result that carries a (truthy) display name chosen by the backend. */
  predicate ConfirmsName(r: Settled<UpdateResponse>) {
    Succeeded(r) && TruthyString(r.data.displayName)
  }

  /** A rejection because the display name is taken. */
  predicate IsNameConflict(r: Settled<UpdateResponse>) {
    r.Rejected? && r.error == NameNotAvailable
  }

  /** One iteration of the pass over settled results. */
  function Settle(t: Tally, r: Settled<UpdateResponse>): Tally {
    if ConfirmsName(r) then Tally(t.successes + 1, r.data.displayName, Some(true))
    else if Succeeded(r) then t.(successes := t.successes + 1)
    else if IsNameConflict(r) then t.(nameUpdated := Some(false))
    else t
  }

  /** The pass over all settled results, in the order the calls were issued. */
  function SettleAll(t: Tally, rs: seq<Settled<UpdateResponse>>): Tally
    decreases |rs|
  {
    if rs == [] then t else Settle(SettleAll(t, rs[..|rs| - 1]), rs[|rs| - 1])
  }

  /** The flag becomes true only through a result that confirms a name. */
  lemma {:induction false} FlagTrueOnlyByConfirmation(t: Tally, rs: seq<Settled<UpdateResponse>>)
    requires SettleAll(t, rs).nameUpdated == Some(true)
    ensures t.nameUpdated == Some(true) || exists i :: 0 <= i < |rs| && ConfirmsName(rs[i])
    decreases |rs|
  {
    if rs != [] {
      var last := rs[|rs| - 1];
      if !ConfirmsName(last) {
        FlagTrueOnlyByConfirmation(t, rs[..|rs| - 1]);
        if t.nameUpdated != Some(true) {
          var i :| 0 <= i < |rs| - 1 && ConfirmsName(rs[..|rs| - 1][i]);
          assert rs[i] == rs[..|rs| - 1][i];
        }
      }
    }
  }

  /** The flag becomes false only through a `NameNotAvailable` rejection. */
  lemma {:induction false} FlagFalseOnlyByConflict(t: Tally, rs: seq<Settled<UpdateResponse>>)
    requires SettleAll(t, rs).nameUpdated == Some(false)
    ensures t.nameUpdated == Some(false) || exists i :: 0 <= i < |rs| && IsNameConflict(rs[i])
    decreases |rs|
  {
    if rs != [] {
      var last := rs[|rs| - 1];
      if !IsNameConflict(last) {
        FlagFalseOnlyByConflict(t, rs[..|rs| - 1]);
        if t.nameUpdated != Some(false) {
          var i :| 0 <= i < |rs| - 1 && IsNameConflict(rs[..|rs| - 1][i]);
          assert rs[i] == rs[..|rs| - 1][i];
        }
      }
    }
  }

  /** Results that neither confirm a name nor report a conflict leave the flag as it was. */
  lemma {:induction false} FlagUnchangedOtherwise(t: Tally, rs: seq<Settled<UpdateResponse>>)
    requires forall i :: 0 <= i < |rs| ==> !ConfirmsName(rs[i]) && !IsNameConflict(rs[i])
    ensures SettleAll(t, rs).nameUpdated == t.nameUpdated
    decreases |rs|
  {
    if rs != [] {
      FlagUnchangedOtherwise(t, rs[..|rs| - 1]);
    }
  }

  /** The count grows exactly when some result succeeded; it never shrinks. */
  lemma {:induction false} SuccessesCountSucceeded(t: Tally, rs: seq<Settled<UpdateResponse>>)
    ensures SettleAll(t, rs).successes >= t.successes
    ensures SettleAll(t, rs).successes > t.successes <==> exists i :: 0 <= i < |rs| && Succeeded(rs[i])
    decreases |rs|
  {
    if rs != [] {
      var init := rs[..|rs| - 1];
      SuccessesCountSucceeded(t, init);
      if exists i :: 0 <= i < |init| && Succeeded(init[i]) {
        var i :| 0 <= i < |init| && Succeeded(init[i]);
        assert rs[i] == init[i];
      }
      if exists i :: 0 <= i < |rs| && Succeeded(rs[i]) {
        var i :| 0 <= i < |rs| && Succeeded(rs[i]);
        if i < |rs| - 1 {
          assert init[i] == rs[i];
        }
      }
    }
  }

  /**
    The name to commit is the candidate's, or one a successful result
    returned; without any confirming result it is the candidate's.
   */
  lemma {:induction false} NameFromConfirmation(t: Tally, rs: seq<Settled<UpdateResponse>>)
    ensures SettleAll(t, rs).displayName == t.displayName
         || exists i :: 0 <= i < |rs| && ConfirmsName(rs[i]) && rs[i].data.displayName == SettleAll(t, rs).displayName
    ensures (forall i :: 0 <= i < |rs| ==> !ConfirmsName(rs[i])) ==> SettleAll(t, rs).displayName == t.displayName
    decreases |rs|
  {
    if rs != [] {
      var init := rs[..|rs| - 1];
      NameFromConfirmation(t, init);
      if !ConfirmsName(rs[|rs| - 1]) && SettleAll(t, rs).displayName != t.displayName {
        var i :| 0 <= i < |init| && ConfirmsName(init[i]) && init[i].data.displayName == SettleAll(t, init).displayName;
        assert rs[i] == init[i];
      }
      if forall i :: 0 <= i < |rs| ==> !ConfirmsName(rs[i]) {
        forall i | 0 <= i < |init| ensures !ConfirmsName(init[i]) {
          assert init[i] == rs[i];
        }
      }
    }
  }

  /**
    The name to commit is the one returned by the last result that
    confirmed a name: later confirmations overwrite earlier ones.
   */
  lemma {:induction false} NameFromLastConfirmation(t: Tally, rs: seq<Settled<UpdateResponse>>, i: nat)
    requires i < |rs| && ConfirmsName(rs[i])
    requires forall j :: i < j < |rs| ==> !ConfirmsName(rs[j])
    ensures SettleAll(t, rs).displayName == rs[i].data.displayName
    decreases |rs|
  {
    var init := rs[..|rs| - 1];
    if i < |rs| - 1 {
      assert init[i] == rs[i];
      forall j | i < j < |init| ensures !ConfirmsName(init[j]) {
        assert init[j] == rs[j];
      }
      NameFromLastConfirmation(t, init, i);
    }
  }

  /**
    The flag ends as the last deciding result left it: true after a result
    that confirmed a name, false after a `NameNotAvailable` rejection.
   */
  lemma {:induction false} FlagFromLastDecision(t: Tally, rs: seq<Settled<UpdateResponse>>, i: nat)
    requires i < |rs| && (ConfirmsName(rs[i]) || IsNameConflict(rs[i]))
    requires forall j :: i < j < |rs| ==> !ConfirmsName(rs[j]) && !IsNameConflict(rs[j])
    ensures SettleAll(t, rs).nameUpdated == Some(ConfirmsName(rs[i]))
    decreases |rs|
  {
    var init := rs[..|rs| - 1];
    if i < |rs| - 1 {
      assert init[i] == rs[i];
      forall j | i < j < |init| ensures !ConfirmsName(init[j]) && !IsNameConflict(init[j]) {
        assert init[j] == rs[j];
      }
      FlagFromLastDecision(t, init, i);
    }
  }

  /** There is something to update: a truthy display name or avatar URL. */
  predicate HasUpdate(p: ProfileInfo) {
    TruthyString(p.displayName) || TruthyString(p.avatarUrl)
  }

  /** The update calls `updateProfile` issues: display name first, then avatar. */
  function UpdateCalls(p: ProfileInfo): seq<Effect> {
    (if TruthyString(p.displayName) then [ClientUpdateUserTitleDisplayName(p.displayName.value)] else [])
    + (if TruthyString(p.avatarUrl) then [ClientUpdateAvatarUrl(p.avatarUrl.value)] else [])
  }

  /** The settled outcomes of those calls, in the same order. */
  function Issued(p: ProfileInfo, nameReply: Settled<UpdateResponse>, avatarReply: Settled<UpdateResponse>)
    : seq<Settled<UpdateResponse>>
  {
    (if TruthyString(p.displayName) then [nameReply] else [])
    + (if TruthyString(p.avatarUrl) then [avatarReply] else [])
  }

  /** The follow-up write of the extended profile under the configured key, if any. */
  function ExtendedWrite(extended: Option<Json>, key: string, stringify: Json -> string): seq<Effect> {
    if extended.Some? && Truthy(extended.value) && key != "" then
      [ClientUpdateUserData(Encoded(map[key := extended.value], stringify), Public)]
    else []
  }

  /**
    What `updateProfile(p)` does to state `d` given the outcomes of the
    display-name and avatar calls; `key` is `login.extendedProfileKey`.
   */
  function Reconciled(
    d: PlayFabData, key: string, p: ProfileInfo,
    nameReply: Settled<UpdateResponse>, avatarReply: Settled<UpdateResponse>, lib: JsonLib): Step
  {
    if !HasUpdate(p) then Step(d, [])
    else
      var t := SettleAll(Tally(0, p.displayName, d.isDisplayNameUpdated), Issued(p, nameReply, avatarReply));
      var committed := p.(displayName := t.displayName);
      if t.successes > 0 then
        Step(d.(isDisplayNameUpdated := t.nameUpdated, profile := Some(committed)),
             UpdateCalls(p) + ExtendedWrite(p.extendedProfile, key, lib.stringify))
      else
        Step(d.(isDisplayNameUpdated := t.nameUpdated), UpdateCalls(p))
  }

  /** With neither a display name nor an avatar, nothing is called and nothing changes. */
  lemma ReconcileWithoutUpdateIsNoOp(
    d: PlayFabData, key: string, p: ProfileInfo,
    nameReply: Settled<UpdateResponse>, avatarReply: Settled<UpdateResponse>, lib: JsonLib)
    requires !TruthyString(p.displayName) && !TruthyString(p.avatarUrl)
    ensures Reconciled(d, key, p, nameReply, avatarReply, lib) == Step(d, [])
  {
  }

  /** The calls of one reconciliation: the update calls, then possibly the extended-data write. */
  lemma ReconciledEffects(
    d: PlayFabData, key: string, p: ProfileInfo,
    nameReply: Settled<UpdateResponse>, avatarReply: Settled<UpdateResponse>, lib: JsonLib)
    returns (extra: seq<Effect>)
    ensures Reconciled(d, key, p, nameReply, avatarReply, lib).effects == UpdateCalls(p) + extra
    ensures forall e :: e in extra ==> e.ClientUpdateUserData?
    ensures extra == if HasUpdate(p)
                        && SettleAll(Tally(0, p.displayName, d.isDisplayNameUpdated), Issued(p, nameReply, avatarReply)).successes > 0
                     then ExtendedWrite(p.extendedProfile, key, lib.stringify) else []
  {
    var calls := UpdateCalls(p);
    if !HasUpdate(p) {
      extra := [];
      assert calls == [];
    } else {
      var t := SettleAll(Tally(0, p.displayName, d.isDisplayNameUpdated), Issued(p, nameReply, avatarReply));
      if t.successes > 0 {
        extra := ExtendedWrite(p.extendedProfile, key, lib.stringify);
      } else {
        extra := [];
        assert calls + extra == calls;
      }
    }
  }

  /**
    The reconciler touches only the profile and the flag, and never invokes
    the host callback.
   */
  lemma ReconcileFrame(
    d: PlayFabData, key: string, p: ProfileInfo,
    nameReply: Settled<UpdateResponse>, avatarReply: Settled<UpdateResponse>, lib: JsonLib)
    ensures var r := Reconciled(d, key, p, nameReply, avatarReply, lib);
      && r.data == d.(profile := r.data.profile, isDisplayNameUpdated := r.data.isDisplayNameUpdated)
      && SupplierCalls(r.effects) == 0
  {
    var extra := ReconciledEffects(d, key, p, nameReply, avatarReply, lib);
    var a := if TruthyString(p.displayName) then [ClientUpdateUserTitleDisplayName(p.displayName.value)] else [];
    var b := if TruthyString(p.avatarUrl) then [ClientUpdateAvatarUrl(p.avatarUrl.value)] else [];
    assert UpdateCalls(p) == a + b;
    NoSupplierCalls(a + b + extra);
  }

  /**
    A display-name update is issued exactly for a truthy candidate name, and
    an avatar update exactly for a truthy avatar URL, each with that value.
   */
  lemma ReconcileCalls(
    d: PlayFabData, key: string, p: ProfileInfo,
    nameReply: Settled<UpdateResponse>, avatarReply: Settled<UpdateResponse>, lib: JsonLib)
    ensures var r := Reconciled(d, key, p, nameReply, avatarReply, lib);
      && (forall n :: ClientUpdateUserTitleDisplayName(n) in r.effects <==> p.displayName == Some(n) && n != "")
      && (forall u :: ClientUpdateAvatarUrl(u) in r.effects <==> p.avatarUrl == Some(u) && u != "")
  {
    var extra := ReconciledEffects(d, key, p, nameReply, avatarReply, lib);
    var a := if TruthyString(p.displayName) then [ClientUpdateUserTitleDisplayName(p.displayName.value)] else [];
    var b := if TruthyString(p.avatarUrl) then [ClientUpdateAvatarUrl(p.avatarUrl.value)] else [];
    assert UpdateCalls(p) == a + b;
    assert forall e :: e in a + b + extra <==> e in a || e in b || e in extra;
  }

  /**
    `isDisplayNameUpdated` becomes true only on an OK result carrying a
    display name, and false only on a `NameNotAvailable` rejection; every
    other outcome leaves it as it was.
   */
  lemma ReconcileFlag(
    d: PlayFabData, key: string, p: ProfileInfo,
    nameReply: Settled<UpdateResponse>, avatarReply: Settled<UpdateResponse>, lib: JsonLib)
    ensures var r := Reconciled(d, key, p, nameReply, avatarReply, lib);
            var rs := Issued(p, nameReply, avatarReply);
      && (r.data.isDisplayNameUpdated == Some(true) && d.isDisplayNameUpdated != Some(true) ==>
            exists i :: 0 <= i < |rs| && ConfirmsName(rs[i]))
      && (r.data.isDisplayNameUpdated == Some(false) && d.isDisplayNameUpdated != Some(false) ==>
            exists i :: 0 <= i < |rs| && IsNameConflict(rs[i]))
      && ((forall i :: 0 <= i < |rs| ==> !ConfirmsName(rs[i]) && !IsNameConflict(rs[i]))
            ==> r.data.isDisplayNameUpdated == d.isDisplayNameUpdated)
  {
    var rs := Issued(p, nameReply, avatarReply);
    var t0 := Tally(0, p.displayName, d.isDisplayNameUpdated);
    var r := Reconciled(d, key, p, nameReply, avatarReply, lib);
    if HasUpdate(p) {
      if r.data.isDisplayNameUpdated == Some(true) {
        FlagTrueOnlyByConfirmation(t0, rs);
      }
      if r.data.isDisplayNameUpdated == Some(false) {
        FlagFalseOnlyByConflict(t0, rs);
      }
      if forall i :: 0 <= i < |rs| ==> !ConfirmsName(rs[i]) && !IsNameConflict(rs[i]) {
        FlagUnchangedOtherwise(t0, rs);
      }
    }
  }

  /**
    The session profile is replaced exactly when at least one call
    succeeded; the committed profile is the candidate, with its display name
    replaced by the one the backend returned, if any. The extended data is
    written exactly when the profile was committed and both the data and the
    key are present.
   */
  lemma ReconcileCommit(
    d: PlayFabData, key: string, p: ProfileInfo,
    nameReply: Settled<UpdateResponse>, avatarReply: Settled<UpdateResponse>, lib: JsonLib)
    ensures var r := Reconciled(d, key, p, nameReply, avatarReply, lib);
            var rs := Issued(p, nameReply, avatarReply);
            var committed := (exists i :: 0 <= i < |rs| && Succeeded(rs[i]));
      && (!committed ==> r.data.profile == d.profile && r.effects == UpdateCalls(p))
      && (committed ==>
            && r.data.profile.Some?
            && r.data.profile.value.avatarUrl == p.avatarUrl
            && r.data.profile.value.extendedProfile == p.extendedProfile
            && (r.data.profile.value.displayName == p.displayName
                || exists i :: 0 <= i < |rs| && ConfirmsName(rs[i])
                               && rs[i].data.displayName == r.data.profile.value.displayName)
            && r.effects == UpdateCalls(p) + ExtendedWrite(p.extendedProfile, key, lib.stringify))
      && ((exists e :: e in r.effects && e.ClientUpdateUserData?)
            <==> committed && p.extendedProfile.Some? && Truthy(p.extendedProfile.value) && key != "")
  {
    var rs := Issued(p, nameReply, avatarReply);
    var t0 := Tally(0, p.displayName, d.isDisplayNameUpdated);
    var r := Reconciled(d, key, p, nameReply, avatarReply, lib);
    if !HasUpdate(p) {
      assert rs == [];
    } else {
      SuccessesCountSucceeded(t0, rs);
      NameFromConfirmation(t0, rs);
    }
    var committed := exists i :: 0 <= i < |rs| && Succeeded(rs[i]);
    assert forall e :: e in UpdateCalls(p) ==> !e.ClientUpdateUserData?;
    var extra := ReconciledEffects(d, key, p, nameReply, avatarReply, lib);
    if committed {
      assert HasUpdate(p);
      var t := SettleAll(t0, rs);
      assert t.successes > 0;
      if extra != [] {
        assert extra[0] in r.effects;
      }
    } else {
      assert extra == [];
      assert r.effects == UpdateCalls(p);
    }
  }

  /**
    Across the issued calls the flag ends as the last deciding result left
    it: true after a result that confirmed a name, false after a
    `NameNotAvailable` rejection.
   */
  lemma ReconcileLastFlag(
    d: PlayFabData, key: string, p: ProfileInfo,
    nameReply: Settled<UpdateResponse>, avatarReply: Settled<UpdateResponse>, lib: JsonLib)
    ensures var rs := Issued(p, nameReply, avatarReply);
      forall i :: 0 <= i < |rs| && (ConfirmsName(rs[i]) || IsNameConflict(rs[i]))
        && (forall j :: i < j < |rs| ==> !ConfirmsName(rs[j]) && !IsNameConflict(rs[j]))
        ==> Reconciled(d, key, p, nameReply, avatarReply, lib).data.isDisplayNameUpdated == Some(ConfirmsName(rs[i]))
  {
    var rs := Issued(p, nameReply, avatarReply);
    var t0 := Tally(0, p.displayName, d.isDisplayNameUpdated);
    if HasUpdate(p) {
      assert Reconciled(d, key, p, nameReply, avatarReply, lib).data.isDisplayNameUpdated == SettleAll(t0, rs).nameUpdated;
      forall i | 0 <= i < |rs| && (ConfirmsName(rs[i]) || IsNameConflict(rs[i]))
          && (forall j :: i < j < |rs| ==> !ConfirmsName(rs[j]) && !IsNameConflict(rs[j]))
        ensures SettleAll(t0, rs).nameUpdated == Some(ConfirmsName(rs[i]))
      {
        FlagFromLastDecision(t0, rs, i);
      }
    } else {
      assert rs == [];
    }
  }

  /**
    A committed profile carries the display name the last confirming result
    returned, or the candidate's own name when no result confirmed one.
   */
  lemma ReconcileLastName(
    d: PlayFabData, key: string, p: ProfileInfo,
    nameReply: Settled<UpdateResponse>, avatarReply: Settled<UpdateResponse>, lib: JsonLib)
    ensures var r := Reconciled(d, key, p, nameReply, avatarReply, lib);
            var rs := Issued(p, nameReply, avatarReply);
      && (forall i :: 0 <= i < |rs| && ConfirmsName(rs[i])
            && (forall j :: i < j < |rs| ==> !ConfirmsName(rs[j]))
            ==> r.data.profile == Some(p.(displayName := rs[i].data.displayName)))
      && ((exists i :: 0 <= i < |rs| && Succeeded(rs[i])) ==>
            (forall i :: 0 <= i < |rs| ==> !ConfirmsName(rs[i])) ==> r.data.profile == Some(p))
  {
    var rs := Issued(p, nameReply, avatarReply);
    var t0 := Tally(0, p.displayName, d.isDisplayNameUpdated);
    if HasUpdate(p) {
      var t := SettleAll(t0, rs);
      assert Reconciled(d, key, p, nameReply, avatarReply, lib).data.profile
          == if t.successes > 0 then Some(p.(displayName := t.displayName)) else d.profile;
      SuccessesCountSucceeded(t0, rs);
      NameFromConfirmation(t0, rs);
      forall i | 0 <= i < |rs| && ConfirmsName(rs[i]) && (forall j :: i < j < |rs| ==> !ConfirmsName(rs[j]))
        ensures t.displayName == rs[i].data.displayName && t.successes > 0
      {
        NameFromLastConfirmation(t0, rs, i);
        assert Succeeded(rs[i]);
      }
    } else {
      assert rs == [];
    }
  }

  /**
    The display name is accepted and the avatar outcome decides nothing:
    the flag ends true and the profile is committed with the returned name.
   */
  lemma ReconcileConfirmedName(
    d: PlayFabData, key: string, p: ProfileInfo,
    nameReply: Settled<UpdateResponse>, avatarReply: Settled<UpdateResponse>, lib: JsonLib)
    requires TruthyString(p.displayName) && ConfirmsName(nameReply)
    requires !(TruthyString(p.avatarUrl) && (IsNameConflict(avatarReply) || ConfirmsName(avatarReply)))
    ensures Reconciled(d, key, p, nameReply, avatarReply, lib).data.isDisplayNameUpdated == Some(true)
    ensures Reconciled(d, key, p, nameReply, avatarReply, lib).data.profile
         == Some(p.(displayName := nameReply.data.displayName))
  {
    var rs := Issued(p, nameReply, avatarReply);
    assert rs[0] == nameReply;
    ReconcileLastFlag(d, key, p, nameReply, avatarReply, lib);
    ReconcileLastName(d, key, p, nameReply, avatarReply, lib);
  }

  /**
    The display name is taken and the avatar outcome decides nothing: the
    flag ends false, and the profile, with the candidate's own name, is
    committed only if the avatar update succeeded.
   */
  lemma ReconcileNameConflict(
    d: PlayFabData, key: string, p: ProfileInfo,
    nameReply: Settled<UpdateResponse>, avatarReply: Settled<UpdateResponse>, lib: JsonLib)
    requires TruthyString(p.displayName) && IsNameConflict(nameReply)
    requires !(TruthyString(p.avatarUrl) && (IsNameConflict(avatarReply) || ConfirmsName(avatarReply)))
    ensures Reconciled(d, key, p, nameReply, avatarReply, lib).data.isDisplayNameUpdated == Some(false)
    ensures Reconciled(d, key, p, nameReply, avatarReply, lib).data.profile
         == if TruthyString(p.avatarUrl) && Succeeded(avatarReply) then Some(p) else d.profile
  {
    var rs := Issued(p, nameReply, avatarReply);
    assert rs[0] == nameReply;
    ReconcileLastFlag(d, key, p, nameReply, avatarReply, lib);
    ReconcileLastName(d, key, p, nameReply, avatarReply, lib);
    ReconcileCommit(d, key, p, nameReply, avatarReply, lib);
    if TruthyString(p.avatarUrl) && Succeeded(avatarReply) {
      assert rs[1] == avatarReply;
    }
  }

  /** A name-only candidate (as on a retry) issues at most the display-name update. */
  lemma ReconcileNameOnly(
    d: PlayFabData, key: string, name: Option<string>,
    nameReply: Settled<UpdateResponse>, avatarReply: Settled<UpdateResponse>, lib: JsonLib)
    ensures Reconciled(d, key, ProfileInfo(name, None, None), nameReply, avatarReply, lib).effects
         == if TruthyString(name) then [ClientUpdateUserTitleDisplayName(name.value)] else []
  {
  }

  /**
    The settling loop of `updateProfile`: walk the settled results in
    order, counting successes, adopting each confirmed display name and
    recording confirmation or conflict in the session flag.
   */
  method SettleInOrder(st: PlayFabSession, profile: ProfileInfo, results: seq<Settled<UpdateResponse>>)
    returns (successCount: nat, p: ProfileInfo)
    modifies st
    ensures Tally(successCount, p.displayName, st.isDisplayNameUpdated)
         == SettleAll(Tally(0, profile.displayName, old(st.isDisplayNameUpdated)), results)
    ensures p == profile.(displayName := p.displayName)
    ensures st.Data() == old(st.Data()).(isDisplayNameUpdated := st.isDisplayNameUpdated)
  {
    ghost var t0 := Tally(0, profile.displayName, st.isDisplayNameUpdated);
    ghost var d0 := st.Data();
    successCount := 0;
    p := profile;
    for i := 0 to |results|
      invariant Tally(successCount, p.displayName, st.isDisplayNameUpdated) == SettleAll(t0, results[..i])
      invariant p == profile.(displayName := p.displayName)
      invariant st.Data() == d0.(isDisplayNameUpdated := st.isDisplayNameUpdated)
    {
      var result := results[i];
      assert results[..i + 1] == results[..i] + [result];
      assert SettleAll(t0, results[..i + 1]) == Settle(SettleAll(t0, results[..i]), result);
      if result.Fulfilled? {
        if result.statusOk {
          successCount := successCount + 1;
          if TruthyString(result.data.displayName) {
            p := p.(displayName := result.data.displayName);
            st.isDisplayNameUpdated := Some(true);
          }
        }
      } else {
        if result.error == NameNotAvailable {
          st.isDisplayNameUpdated := Some(false);
        }
      }
    }
    assert results[..|results|] == results;
  }

  /**
    `updateProfile`: issue the update calls, settle every one of them in
    order, and commit the profile if at least one call succeeded.
   */
  method UpdateProfile(
    st: PlayFabSession, cfg: Config, profile: ProfileInfo,
    nameReply: Settled<UpdateResponse>, avatarReply: Settled<UpdateResponse>, lib: JsonLib)
    returns (effects: seq<Effect>)
    modifies st
    ensures var r := Reconciled(old(st.Data()), cfg.login.extendedProfileKey, profile, nameReply, avatarReply, lib);
      st.Data() == r.data && effects == r.effects
  {
    if !TruthyString(profile.displayName) && !TruthyString(profile.avatarUrl) {
      return [];
    }
    effects := [];
    var results: seq<Settled<UpdateResponse>> := [];
    if TruthyString(profile.displayName) {
      effects := effects + [ClientUpdateUserTitleDisplayName(profile.displayName.value)];
      results := results + [nameReply];
    }
    if TruthyString(profile.avatarUrl) {
      effects := effects + [ClientUpdateAvatarUrl(profile.avatarUrl.value)];
      results := results + [avatarReply];
    }
    assert results == Issued(profile, nameReply, avatarReply);
    assert effects == UpdateCalls(profile);

    var successCount, p := SettleInOrder(st, profile, results);
    if successCount > 0 {
      st.profile := Some(p);
      var key := cfg.login.extendedProfileKey;
      // `ExtendedWrite` is the specification of this branch; the write
      // itself goes through `StringifyValues` as `updateUserData` does.
      if ExtendedWrite(p.extendedProfile, key, lib.stringify) != [] {
        var records := StringifyValues(map[key := p.extendedProfile.value], lib);
        effects := effects + [ClientUpdateUserData(records, Public)];
      }
    }
  }
}
