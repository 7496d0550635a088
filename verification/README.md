# PlayFab session plugin for Jovo — Dafny model

This project models the session-side core of the Jovo PlayFab plugin. The
plugin hooks into `dialogue.start` and checks its configuration and the
user id. It then creates the session's `playfab` object and, when
`autoLogin` is on, logs the user in with a PlayFab custom id:

- A **new player** gets a profile from the host's `onNewProfile` callback.
  The display name is retried while it is not confirmed.
- An **existing player** gets the profile embedded in the login response.
  An extended profile comes from the embedded user data, or from one
  user-data fetch.

The session object also offers:

- `updateProfile`: up to two update calls; their settled outcomes are
  handled in order, and the profile is committed only when one succeeded;
- `getLeaderboard`: a top slice and a slice around the player, joined,
  flagged for the current player, deduplicated by player id and enriched
  with user data;
- `getUserData` and the user-data codec (`stringifyValues`,
  `parseUserDataRecords`, `isJson`).

Conventions of the model:

- **Backend calls.** The backend's answers are inputs. Each call is settled
  beforehand as `Fulfilled(statusOk, data)` or `Rejected(error)`.
- **Effects.** Every operation returns the ordered trace of `Effect`s it
  issued: the PlayFab client calls, plus each invocation of the host's
  `onNewProfile` callback.
- **The host callback.** It is modelled by the answers it gives. Its i-th
  answer within one login is `supplier(i)`. The update replies for the
  first `updateProfile` and for the j-th retry are indexed the same way
  (`UpdateScript`).
- **JSON.** JSON parsing and printing are an abstract `JsonLib` parameter.
  Only the round trip `parse(stringify(v)) == Some(v)` is assumed, and only
  where a lemma states it as a precondition.
- **Truthiness.** JavaScript truthiness of strings and values is explicit
  (`TruthyString`, `Truthy`).
- **Mutable state.** The session's `playfab` object is a class,
  `PlayFabSession`, whose fields the methods update. The host session's
  slot that holds it is `SessionStore`. Each method is proved equal to a
  state-transition function (`Reconciled`, `AfterRetries`, `NewPlayer`,
  `AfterLogin`, `Aggregated`, `Started`), and the lemmas state the
  properties of those functions.

The retry loop of a new player is a `do … while`: its body runs before the
bound is tested, so the bound is `max(1, maxNewProfileRetries)`, and a
setting of 0 still makes one retry (`RetryBound`).

## Model

| member | source | states |
|---|---|---|
| PluginConfig.Validate | src/PlayFabPlugin.ts:117-154 | The hook may start iff the title id is non-empty, the user id is truthy, `maxNewProfileRetries` is in 0..10 and `topMax` and `neighborMax` are in 0..100; a missing title id is always the error reported |
| PluginConfig.ValidateReportsFirstFailure | src/PlayFabPlugin.ts:117-154 | Each of the other four errors is reported exactly when its own check fails and every earlier check passed |
| PluginConfig.DefaultConfigShape | src/PlayFabPlugin.ts:166-211 | The defaults are autoLogin on, 2 retries, top 5, 2 neighbours, no user-data keys, no callback, no extended key; they satisfy the range checks but are rejected for the empty title id |
| PluginConfig.DefaultConfigWithTitleIdPasses | src/PlayFabPlugin.ts:166-211 | The defaults with any non-empty title id and a truthy user id pass every check |
| Session.PlayFabSession.constructor | src/JovoPlayFab.ts:52-54 | A freshly created `playfab` object has every field unset |
| Session.Initialized | src/JovoPlayFab.ts:49-59 | `init` keeps an existing state field for field, creates a blank one when there is none, and adds the empty profile `{}` exactly when none exists, so afterwards a profile always exists |
| Session.InitIsIdempotent | src/JovoPlayFab.ts:49-59 | Running `init` a second time changes nothing |
| Session.Init | src/JovoPlayFab.ts:49-59 | After `init` the session holds a `playfab` object (a new one only if it had none) whose state is `Initialized` of the previous one |
| UserDataCodec.StringifyValues | src/JovoPlayFab.ts:372-380 | The result has exactly the input's keys, each mapped to the JSON text of its value |
| UserDataCodec.ParseUserDataRecords | src/JovoPlayFab.ts:382-395 | Absent records give an empty mapping; otherwise every key maps to the parsed text of its record if that text is JSON, else to the text itself, with a missing value read as "" |
| UserDataCodec.DecodedRecords | src/JovoPlayFab.ts:382-404 | Reading records back keeps exactly their keys; text that does not parse becomes a string value and text that parses becomes the parsed value, so malformed data never fails the read |
| UserDataCodec.StoredValuesReadBack | src/JovoPlayFab.ts:372-395 | If the JSON library round-trips, values written with `stringifyValues` and stored by the backend are read back unchanged by `parseUserDataRecords` |
| UserDataCodec.GetUserData | src/JovoPlayFab.ts:346-370 | One fetch with the given keys and player id is issued; a value is returned iff the fetch was fulfilled with an OK status, and it is then the decoded records |
| ProfileReconciler.FlagTrueOnlyByConfirmation | src/JovoPlayFab.ts:169-184 | The name flag ends true only if it was already true or some result was OK and carried a display name |
| ProfileReconciler.FlagFalseOnlyByConflict | src/JovoPlayFab.ts:169-184 | The name flag ends false only if it was already false or some result was a `NameNotAvailable` rejection |
| ProfileReconciler.FlagUnchangedOtherwise | src/JovoPlayFab.ts:169-184 | Results that neither confirm a name nor report a name conflict leave the flag as it was |
| ProfileReconciler.SuccessesCountSucceeded | src/JovoPlayFab.ts:169-184 | The success count never decreases, and it grows iff at least one result was fulfilled with an OK status |
| ProfileReconciler.NameFromConfirmation | src/JovoPlayFab.ts:169-184 | The display name to commit is the candidate's own or one that an OK result returned, and the candidate's own when no result confirmed a name |
| ProfileReconciler.NameFromLastConfirmation | src/JovoPlayFab.ts:169-175 | The display name to commit is the one returned by the last result that confirmed a name |
| ProfileReconciler.FlagFromLastDecision | src/JovoPlayFab.ts:169-184 | The flag ends true if the last result that confirmed a name or reported a conflict was a confirmation, and false if it was a `NameNotAvailable` rejection |
| ProfileReconciler.SettleInOrder | src/JovoPlayFab.ts:166-184 | The loop over settled results ends with the success count, the committed name and the flag that folding the results in issue order gives; it changes nothing else in the session |
| ProfileReconciler.ReconcileWithoutUpdateIsNoOp | src/JovoPlayFab.ts:148-150 | With neither a truthy display name nor a truthy avatar URL, nothing is called and nothing changes |
| ProfileReconciler.ReconcileFrame | src/JovoPlayFab.ts:141-197 | `updateProfile` writes only the profile and the name flag, and never invokes the host callback |
| ProfileReconciler.ReconcileCalls | src/JovoPlayFab.ts:152-164 | A display-name update is issued exactly for a truthy candidate name, and an avatar update exactly for a truthy avatar URL, each carrying that value |
| ProfileReconciler.ReconcileFlag | src/JovoPlayFab.ts:166-184 | Across the issued calls, the flag becomes true only through a name-confirming result and false only through a name conflict; it is unchanged when neither occurs |
| ProfileReconciler.ReconcileCommit | src/JovoPlayFab.ts:186-196 | The profile is replaced iff at least one call succeeded, by the candidate with its avatar and extended data and with its own or a returned display name; the extended data is written under the key iff the profile was committed and both the data and the key are truthy |
| ProfileReconciler.ReconcileLastFlag | src/JovoPlayFab.ts:166-184 | Across the issued calls the flag ends true if the last result that confirmed a name or reported a conflict was a confirmation, and false if it was a `NameNotAvailable` rejection |
| ProfileReconciler.ReconcileLastName | src/JovoPlayFab.ts:166-190 | A committed profile carries the name the last confirming result returned, or the candidate's own name when no result confirmed one |
| ProfileReconciler.ReconcileConfirmedName | src/JovoPlayFab.ts:166-190 | When the display-name update returns a name and the avatar outcome decides nothing, the flag ends true and the profile is committed with the returned name |
| ProfileReconciler.ReconcileNameConflict | src/JovoPlayFab.ts:166-190 | When the display-name update is rejected with `NameNotAvailable` and the avatar outcome decides nothing, the flag ends false, and the candidate is committed with its own name iff the avatar update succeeded |
| ProfileReconciler.ReconcileNameOnly | src/JovoPlayFab.ts:98 | A retry's name-only candidate issues at most the display-name update |
| ProfileReconciler.UpdateProfile | src/JovoPlayFab.ts:141-197 | The new session state and the calls issued are those of `Reconciled` for the old state, the candidate and the settled replies |
| LoginOrchestrator.FirstConfirmedIsFirst | src/JovoPlayFab.ts:94-102 | The search returns the first retry number from `j` on that confirms the name, or the bound if none before it does |
| LoginOrchestrator.RetryCountIsFirstConfirmation | src/JovoPlayFab.ts:94-102 | The loop makes between 1 and `max(1, maxNewProfileRetries)` retries, no earlier retry confirms the name, and stopping before the bound means the last one did |
| LoginOrchestrator.LoopStopsAtRetryCount | src/JovoPlayFab.ts:94-102 | Wherever the loop stops (after at least one retry, at the first confirmation or at the configured bound), that is the retry count |
| LoginOrchestrator.RetriesSendOnlyDisplayName | src/JovoPlayFab.ts:94-102 | Each retry invokes the callback once and then sends only the display name it returned; the login fields are left unchanged |
| LoginOrchestrator.RetryDisplayName | src/JovoPlayFab.ts:90-103 | The retry loop leaves the state and the calls of `AfterRetries` for `RetryCount` retries |
| LoginOrchestrator.SetUpNewPlayer | src/JovoPlayFab.ts:85-104 | The new-player branch leaves the state and the calls of `NewPlayer` |
| LoginOrchestrator.RestoreProfile | src/JovoPlayFab.ts:105-131 | The existing player's profile and the calls made to build it are those of `ExistingProfile` |
| LoginOrchestrator.Login | src/JovoPlayFab.ts:61-139 | `login` leaves the state and the calls of `AfterLogin` for the old state and the settled replies |
| LoginProperties.LoginGuard | src/JovoPlayFab.ts:63 | Holding a truthy session ticket, `login` calls nothing and changes nothing |
| LoginProperties.NewPlayerKeepsLogin | src/JovoPlayFab.ts:85-104 | The new-player branch changes only the profile and the name flag |
| LoginProperties.LoginOutcome | src/JovoPlayFab.ts:61-139 | Without a ticket, the first call is the login with title id, user id and session id; a rejection sets status Error and nothing else; a non-OK answer changes nothing; an OK answer stores the payload and its ticket and sets NewUser iff the account was newly created, else ExistingUser |
| LoginProperties.SecondLoginIsNoOp | src/JovoPlayFab.ts:61-139 | After an OK login that stored a truthy ticket, a second `login` is a no-op |
| LoginProperties.NewPlayerSupplierCalls | src/JovoPlayFab.ts:85-104 | Without a callback nothing happens; with one it is invoked once, and if that leaves the name unconfirmed it is invoked once more per retry, 1 + n times in all with 1 ≤ n ≤ `max(1, maxNewProfileRetries)` |
| LoginProperties.RetryOutcome | src/JovoPlayFab.ts:94-102 | After a retry the name counts as confirmed iff the backend accepted that retry's name, or, when it neither accepted nor reported a conflict (or there was no name), iff it was confirmed before; a taken name leaves the flag false, and an accepted name is committed as the whole profile |
| LoginProperties.RetryStopsAtAcceptedName | src/JovoPlayFab.ts:94-102 | When the names of retries 1 to m-1 are taken and that of retry m (within the bound) is accepted, the loop makes exactly m retries and ends with the flag set and the accepted name committed |
| LoginProperties.AllRetriesTaken | src/JovoPlayFab.ts:94-102 | When every retry's name is taken, the loop makes exactly `max(1, maxNewProfileRetries)` retries and ends with the name flag false |
| LoginProperties.NewPlayerNameAccepted | src/JovoPlayFab.ts:85-104 | A new player whose first name and next m-1 retry names are taken and whose m-th retry name is accepted ends with the flag set, the accepted name as profile and 1 + m callback invocations |
| LoginProperties.ExistingPlayerProfile | src/JovoPlayFab.ts:105-131 | The existing player's name and avatar come from the embedded player profile; with a key, the extended profile comes from the embedded records without a call when they hold the key, else from one fetch of that key, and it is set only to a truthy value |
| LoginProperties.ExistingPlayerLogin | src/JovoPlayFab.ts:105-131 | An existing player's login stores status ExistingUser and that profile, and fetches user data exactly when a key is configured that the login response does not embed |
| Leaderboard.FindIndex | src/JovoPlayFab.ts:300 | The index is the first position holding the id, or -1 when none does |
| Leaderboard.KeepFirstAreFirstOccurrences | src/JovoPlayFab.ts:299-301 | Every kept entry is the first occurrence of its id |
| Leaderboard.KeepFirstOrdered | src/JovoPlayFab.ts:299-301 | Kept entries appear in the order of their first occurrences |
| Leaderboard.KeepFirstComplete | src/JovoPlayFab.ts:299-301 | Every id whose first occurrence lies in the scanned range is kept |
| Leaderboard.DedupKeepsFirstOccurrences | src/JovoPlayFab.ts:298-301 | Deduplication never grows the list, keeps each id once, keeps for every id the entry at its first occurrence, keeps them in input order and loses no id |
| Leaderboard.FindIndexConcat | src/JovoPlayFab.ts:283-300 | In the joined list an id's first place is in the top part if it occurs there, else offset into the neighbour part |
| Leaderboard.FetchSlices | src/JovoPlayFab.ts:254-290 | The top fetch is issued iff `topMax > 0` and the neighbour fetch iff `neighborMax > 0`, in that order; the join is top entries then neighbour entries, and it is absent when nothing was fetched or an issued fetch was rejected |
| Leaderboard.GetLeaderboard | src/JovoPlayFab.ts:251-320 | The result and the calls are those of `Aggregated` and `AggregationEffects` for the configuration, the stored login payload and the settled replies |
| LeaderboardProperties.LeaderboardFailsFast | src/JovoPlayFab.ts:254-290 | With neither slice configured nothing is fetched and the result is `null`; a rejected fetch makes it `null` and no user data is fetched |
| LeaderboardProperties.LeaderboardFailure | src/JovoPlayFab.ts:251-320 | The result is `null` exactly when nothing was fetched, an issued fetch was rejected, or entries came back while no login payload is stored |
| LeaderboardProperties.CombinedShape | src/JovoPlayFab.ts:292-301 | Flagging then deduplicating keeps each player once, as the entry at its first place in first-place order, flagged iff its id equals the stored player id |
| LeaderboardProperties.LeaderboardShape | src/JovoPlayFab.ts:279-314 | A successful result lists every fetched player exactly once, as the entry at its first place in top-then-neighbour order, in that order; it is flagged iff it is the stored player, and it carries the fetched user data iff user-data keys are configured |
| LeaderboardProperties.TopSliceWins | src/JovoPlayFab.ts:283-301 | A player in the top slice is returned with the top slice's position and value; its copy in the neighbour slice is the one dropped |
| LeaderboardProperties.AtMostOneCurrentPlayer | src/JovoPlayFab.ts:292-301 | At most one returned entry is flagged as the current player |
| LeaderboardProperties.LeaderboardCalls | src/JovoPlayFab.ts:254-312 | A successful run issues the configured fetches and then, when keys are configured, one user-data fetch per returned player, in the returned order, for that player's id |
| Plugin.DialogueStart | src/PlayFabPlugin.ts:114-163 | When a check fails the hook reports its error and leaves the session untouched; otherwise the session holds the state, and the hook the calls, of `Started` (`init`, then `login` iff `autoLogin`) |
| Plugin.StartRejectsInvalidConfig | src/PlayFabPlugin.ts:117-154 | The hook fails exactly when a check fails; a missing title id is reported first, then a missing user id |
| Plugin.DefaultConfigFailsToStart | src/PlayFabPlugin.ts:117-121 | Under the default configuration the hook always fails for the missing title id |
| Plugin.StartInitializesThenLogsIn | src/PlayFabPlugin.ts:157-161 | After passing the checks the hook succeeds; without `autoLogin` it only runs `init` and calls nothing, and with it a session without a ticket first logs in with the user id |
| Plugin.RestartKeepsLogin | src/PlayFabPlugin.ts:157-161 | Once a hook has stored a truthy ticket, the next request's hook in the same session makes no call and only runs `init` |

## Left out

- Network transport, `promisify`, `PlayFab.settings` and the SDK's request shapes are not modelled. Each client call is an `Effect` value, and its settled answer is an input.
- `infoRequestParameters`, `profileConstraints` and `developerSecretKey` are passed through to the SDK unchanged. They are not modelled, and neither is the `PlayFabServer` accessor.
- Concurrency is not modelled. `Promise.all` and `Promise.allSettled` are modelled by their results in issue order. A rejection fails the whole leaderboard, whichever reply settles first.
- `updateStat` and `getStat` are not part of this model.
- `updateUserData`'s own outcome is not modelled. It only logs and returns a boolean that nobody reads, so only its call (records and permission) is recorded.
- An exception thrown by the host's `onNewProfile` callback is not modelled. In the source it would end the login with status Error; here the callback always answers.
- JSON parsing and printing are abstract. JSON numbers are unbounded integers, with no floating point.
- `maxNewProfileRetries`, `topMax` and `neighborMax` are integers. In the source they are JavaScript numbers: a fraction or NaN passes the range checks of `src/PlayFabPlugin.ts:129-154` (2.5 allows 3 retries through `count < 2.5`), which the model does not capture.
- Console logging is not modelled.
- The `mount` check of the parent extension and the assignment of `jovo.$playfab` are not modelled.
- Object aliasing is not modelled. `updateProfile` assigns the returned display name into the caller's profile object and stores that very object; the model commits a copy, and the caller's object is unchanged.
- Leaderboard entries are values. Flagging and attaching user data replace entries instead of mutating the fetched objects in place.
- An entry's player id is a plain string. An entry without a `PlayFabId` is not modelled.
