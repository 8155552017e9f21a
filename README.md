# Scrum Status coordinator: a Dafny model

This project models the decision logic of the Scrum Status Teams bot. A scrum
master configures a team. The bot starts a scrum by posting a summary card
that holds a map from member user ids to activity ids. Members open a task
module to submit their status (yesterday, today, blockers). Any member can end
the scrum from the channel; ending marks it completed and refreshes the card.

The model covers these parts:

- **Membership gate** (`ActivityHelper.GetActivityIdToMatch` and the
  `IsNullOrEmpty` test its callers apply). A user passes exactly when they have
  a non-empty activity id in the members map.
- **End-scrum transition** (`GetEndScrumSummaryActivityAsync`). It checks its
  guards in a fixed order: scrum missing or completed, then not a participant,
  then members string missing. It then sets `IsCompleted` and
  `ThreadConversationId` on the scrum object in place and upserts it. It
  returns null if the upsert fails, and otherwise builds the activity that
  replaces the summary card. Ending is one-shot.
- **Task module fetch**: a null payload, case-insensitive dispatch, the
  details case, and the update-status case (running is checked before
  membership).
- **Task module submit**: blank-field validation, then the scrum-master-active
  check, then save status, recompute the summary and update the card, in that
  order. The code does not re-check membership or completion here, and
  neither does the model.
- **Channel commands**: the command text is the message text, or the card's
  action type when the text is empty. It is upper-cased and trimmed before
  dispatch. Unknown commands get the help card. The end-scrum update is sent
  only for a non-null summary activity.
- **Card helper decisions**: the two missing-field flags; the boolean results
  of the two summary-card updates; the member-paging loop; the valid-user
  filter.

The state the bot changes in place is modelled as classes in module `State`:

- `Scrum` is the entity object that the end-scrum path mutates.
- `ScrumStore` holds table storage as maps. Its `online` flag says whether an
  upsert lands.
- `Turn` is the turn context. `fromId` is the sender. `conversationId` is
  overwritten by the details fetch. `trace` records, in order, every message
  sent, every activity updated, and every call of `ScrumHelper`'s
  `SaveScrumStatusDetailsAsync` (`StatusSaved`) and `GetScrumSummaryAsync`
  (`SummaryComputed`). `GetActiveScrumAsync` is a read: its result is a
  parameter and the call is not recorded.

Teams and `ScrumHelper` results are parameters of the operations, because
their code is not part of this model. These are `GetActiveScrumAsync`,
`GetScrumSummaryAsync`, the status rows and the roster pages. Localized messages
and cards are replaced by their resource keys (`Domain.Notice`,
`Domain.Title`) and by the data a card is built from. Two kinds of C# `null`
are modelled explicitly:

- a nullable string is `Text.NStr`;
- a members JSON string is `Domain.MembersJson`, which is null, empty, or the
  dictionary it parses to.

A null dereference that the code reaches and a catch-all then handles is
modelled as `Wrappers.Completion.Threw`, or as the response the catch-all returns.

### Behaviour of the code worth knowing

- A submission is not checked against membership or against completion of
  the scrum. `OnTeamsTaskModuleSubmitAsync` validates the fields, checks the
  scrum master is active, and saves.
- There is no separate "already completed" rejection. The code reports
  `ErrorScrumDoesNotExist` both for a missing scrum and for a completed one.
- The membership test is "has a non-empty activity id", not "is a key". A user
  mapped to `""` is rejected like a stranger. `MembershipGate` states both
  forms.
- Ending persists the completed scrum before it reads the scrum master. If the
  scrum master cannot be found, line 136 dereferences null, the channel
  handler sends the generic error, and no card update is sent. The scrum is
  nevertheless stored as completed. `EndScrum` states this case.
- The details fetch searches for the scrum master of the stored scrum, not the
  one named in the card. It overwrites the turn's conversation id with that
  team id before it pages the roster.

## Model

| member | source | states |
|---|---|---|
| `ActivityHelper.GetActivityIdToMatch` | Source/Microsoft.Teams.Apps.ScrumStatus/Helpers/ActivityHelper.cs:78-87 | null when the members string is null or empty; the mapped activity id when the caller is a key; "" otherwise |
| `ActivityHelper.MembershipGate` | Source/Microsoft.Teams.Apps.ScrumStatus/Helpers/ActivityHelper.cs:107-108 | the lookup is null-or-empty iff the caller is not a participant; when every mapped id is non-empty this is iff the caller is not a key |
| `ActivityHelper.EndGuard` | Source/Microsoft.Teams.Apps.ScrumStatus/Helpers/ActivityHelper.cs:101-120 | guard order: missing or completed scrum first, regardless of caller and members; then non-participant; then null/empty members; proceeds iff all three pass |
| `ActivityHelper.EndIsOneShot` | Source/Microsoft.Teams.Apps.ScrumStatus/Helpers/ActivityHelper.cs:101-124 | the record stored by a successful end is rejected by the first guard of any later end, by any caller and with any members |
| `ActivityHelper.GetEndScrumSummaryActivity` | Source/Microsoft.Teams.Apps.ScrumStatus/Helpers/ActivityHelper.cs:98-141 | a rejection returns null, sends its message, and changes neither the object nor storage; an accepted end sets only IsCompleted and ThreadConversationId; a failed upsert returns null and writes nothing; a successful one upserts the ended record and returns an activity whose Id is ScrumStartCardResponseId, or throws when the scrum master is missing |
| `State.ScrumStore.CreateOrUpdateScrum` | Source/Microsoft.Teams.Apps.ScrumStatus/Helpers/ActivityHelper.cs:125-126 | the upsert reports whether it landed and, if so, replaces exactly the record under the scrum's id |
| `State.ScrumStore.GetScrumByScrumStartActivityId` | Source/Microsoft.Teams.Apps.ScrumStatus/Bot/ScrumStatusActivityHandler.cs:311 | FirstOrDefault: a stored record with that start activity id, or null iff there is none |
| `Domain.Deserialize` | Source/Microsoft.Teams.Apps.ScrumStatus/Bot/ScrumStatusActivityHandler.cs:313 | deserializing the members string throws iff it is null, yields a null dictionary iff it is empty, and yields the parsed map otherwise (a non-empty string that parses to null is not represented; see Left out) |
| `Text.Trim` | Source/Microsoft.Teams.Apps.ScrumStatus/Bot/ScrumStatusActivityHandler.cs:392 | the result is the slice of the input left once its leading and trailing white space is cut off (both cut parts are white space, everything between is kept), and it neither starts nor ends with white space |
| `Text.TrimEmptyIffWhiteSpace` | Source/Microsoft.Teams.Apps.ScrumStatus/Bot/ScrumStatusActivityHandler.cs:298 | IsNullOrWhiteSpace of a string holds iff it trims to nothing iff every character is white space |
| `Text.TrimIgnoresSurroundingWhiteSpace` | Source/Microsoft.Teams.Apps.ScrumStatus/Bot/ScrumStatusActivityHandler.cs:392 | white space around a string does not change its trimmed form |
| `Text.UpperIdempotentAndCaseBlind` | Source/Microsoft.Teams.Apps.ScrumStatus/Bot/ScrumStatusActivityHandler.cs:213 | upper-casing is idempotent and gives the same result for the lower-cased input |
| `ScrumStatusActivityHandler.ParseTaskModuleCommand` | Source/Microsoft.Teams.Apps.ScrumStatus/Bot/ScrumStatusActivityHandler.cs:213-247 | each case is selected iff the upper-cased action type equals its constant and no earlier one |
| `ScrumStatusActivityHandler.TaskModuleCommandIgnoresCase` | Source/Microsoft.Teams.Apps.ScrumStatus/Bot/ScrumStatusActivityHandler.cs:213 | action types equal ignoring case dispatch alike; a lower-cased action type dispatches like the original; update-status is reachable only if its constant is upper case |
| `ScrumStatusActivityHandler.UpdateStatusFetch` | Source/Microsoft.Teams.Apps.ScrumStatus/Bot/ScrumStatusActivityHandler.cs:223-238 | "scrum does not exist" when there is no active scrum or it is completed, before membership; "not part of scrum" for a non-participant; otherwise an update card with an empty status, iff running and a participant |
| `ScrumStatusActivityHandler.OnTeamsTaskModuleFetch` | Source/Microsoft.Teams.Apps.ScrumStatus/Bot/ScrumStatusActivityHandler.cs:191-256 | null payload or null action type gives the failure card; settings and invalid commands their responses; update-status gives UpdateStatusFetch; all of these leave the trace and conversation id alone; details with an empty start id gives null; otherwise the details helper's effects, with an exception turned into the failure card |
| `ScrumStatusActivityHandler.SubmitSwitchAgreesWithFetch` | Source/Microsoft.Teams.Apps.ScrumStatus/Bot/ScrumStatusActivityHandler.cs:292-294 | with distinct details and update-status constants, the submit switch accepts exactly the action types the fetch switch sends to its update-status case |
| `ScrumStatusActivityHandler.SubmitGateFor` | Source/Microsoft.Teams.Apps.ScrumStatus/Bot/ScrumStatusActivityHandler.cs:298-309 | fields missing iff yesterday or today is null/white space; a master-unavailable stop only for a missing or inactive master; acceptance only with an active master |
| `ScrumStatusActivityHandler.FieldsCheckedFirst` | Source/Microsoft.Teams.Apps.ScrumStatus/Bot/ScrumStatusActivityHandler.cs:298-301 | a blank-field status is turned back whatever the scrum master, and its validation card flags at least one field |
| `ScrumStatusActivityHandler.OnTeamsTaskModuleSubmit` | Source/Microsoft.Teams.Apps.ScrumStatus/Bot/ScrumStatusActivityHandler.cs:268-327 | null data or action type gives the failure card; an action type that does not upper-case to the update-status constant gives null; blank fields give the validation card and an inactive/missing master its error, both with nothing saved; otherwise status saved, then summary recomputed, then card updated when there is a summary, returning null |
| `ScrumStatusActivityHandler.CommandText` | Source/Microsoft.Teams.Apps.ScrumStatus/Bot/ScrumStatusActivityHandler.cs:390 | the message text when it is non-empty, else the card's action type |
| `ScrumStatusActivityHandler.ParseChannelCommand` | Source/Microsoft.Teams.Apps.ScrumStatus/Bot/ScrumStatusActivityHandler.cs:392-425 | end, help and settings are selected iff the upper-cased trimmed text equals their constant (in that order); every other text is unknown |
| `ScrumStatusActivityHandler.NormalizeIdempotent` | Source/Microsoft.Teams.Apps.ScrumStatus/Bot/ScrumStatusActivityHandler.cs:392 | upper-casing and trimming twice is doing it once |
| `ScrumStatusActivityHandler.ChannelCommandIgnoresCaseAndSpacing` | Source/Microsoft.Teams.Apps.ScrumStatus/Bot/ScrumStatusActivityHandler.cs:392 | surrounding white space and case do not change the command; a constant matches only if it is itself upper case and trimmed |
| `ScrumStatusActivityHandler.EndScrum` | Source/Microsoft.Teams.Apps.ScrumStatus/Bot/ScrumStatusActivityHandler.cs:394-435 | a rejection sends only its message and changes neither the scrum object nor storage; an accepted end marks the object completed in this thread; a failed save sends the saving error; after a landed save the trace is the summary computation followed by the generic error when the scrum master is missing, or by the card update (its id, conversation and card) and the success message |
| `ScrumStatusActivityHandler.OnMessageActivityInChannel` | Source/Microsoft.Teams.Apps.ScrumStatus/Bot/ScrumStatusActivityHandler.cs:378-437 | non-message activities get the installation notice; a null command text the generic error; help and unknown commands the help card; settings the settings card; end-scrum without a scrum master id the generic error; all of these leave the scrum object and storage alone; otherwise the effects stated for EndScrum |
| `CardHelper.GetScrumStatusValidationCardResponse` | Source/Microsoft.Teams.Apps.ScrumStatus/Helpers/CardHelper.cs:330-345 | the card carries the submitted form; each flag is set iff its field is null or trims to nothing |
| `CardHelper.ValidationFlagsIndependent` | Source/Microsoft.Teams.Apps.ScrumStatus/Helpers/CardHelper.cs:338 | each flag depends on its own field only; both are set when both fields are blank |
| `CardHelper.UpdateSummaryCard` | Source/Microsoft.Teams.Apps.ScrumStatus/Helpers/CardHelper.cs:159-173 | false and no update for a null summary; otherwise one update of the activity with Id summaryCardActivityId in the turn's conversation, and true |
| `CardHelper.FindChannel` | Source/Microsoft.Teams.Apps.ScrumStatus/Helpers/CardHelper.cs:192 | the first channel equal to the id ignoring case, or null iff no channel is |
| `CardHelper.UpdateSummaryCardWithEndScrum` | Source/Microsoft.Teams.Apps.ScrumStatus/Helpers/CardHelper.cs:186-212 | returns true iff the summary is non-null, even if no channel matched; updates the scrum's card in the channel thread only when a channel matches ignoring case |
| `CardHelper.GetPagedMembers` | Source/Microsoft.Teams.Apps.ScrumStatus/Helpers/CardHelper.cs:251 | no token reads the first page; each page's token names the next page and is null on the last |
| `CardHelper.FlattenAppend` | Source/Microsoft.Teams.Apps.ScrumStatus/Helpers/CardHelper.cs:253 | appending a page appends its members to the joined roster |
| `CardHelper.CollectTeamMembers` | Source/Microsoft.Teams.Apps.ScrumStatus/Helpers/CardHelper.cs:247-255 | the loop ends when the token is null, holding the members of every page joined in order |
| `CardHelper.ValidUsers` | Source/Microsoft.Teams.Apps.ScrumStatus/Helpers/CardHelper.cs:257 | exactly the accounts whose id is a key of the members map, each as often as in the input |
| `CardHelper.ValidUsersConcat` | Source/Microsoft.Teams.Apps.ScrumStatus/Helpers/CardHelper.cs:257 | filtering keeps relative order: the filter of a concatenation is the concatenation of the filters |
| `CardHelper.ValidUsersOfPages` | Source/Microsoft.Teams.Apps.ScrumStatus/Helpers/CardHelper.cs:249-257 | the valid users of the paged roster are those of the first page followed by those of the rest |
| `CardHelper.GetScrumDetailsCardResponse` | Source/Microsoft.Teams.Apps.ScrumStatus/Helpers/CardHelper.cs:223-271 | relative to the scrum the lookup picked: none gives "does not exist" with nothing computed; a null members string throws; else the summary is computed once; missing status rows or summary give "does not exist"; an unknown master of that scrum throws; otherwise the conversation id becomes the master's team id, and an empty members string with a non-empty roster throws, else the details card holds the rows, the summary, the valid users of the whole roster and the master's time zone |

## Left out

- Bot Framework transport. `SendActivityAsync` and `UpdateActivityAsync` are entries in `Turn.trace`. They are assumed to succeed; their own failures are not modelled.
- Adaptive card construction, task module sizes and localized text. They are replaced by resource keys and by the data a card is built from.
- JSON parsing. A non-empty members string is represented by the dictionary it parses to. These cases are not modelled:
  - malformed JSON;
  - JSON `null` values inside the map;
  - a non-empty members string that parses to a null dictionary: the literal `null`, or white space only. The membership lookup would then dereference null instead of answering.
- `ScrumHelper`, whose code is not part of this model. `GetActiveScrumAsync`, `GetScrumSummaryAsync` and `SaveScrumStatusDetailsAsync` are not interpreted. The results of the first two are parameters. The calls of `SaveScrumStatusDetailsAsync` and `GetScrumSummaryAsync` are `Turn.trace` entries. The `GetActiveScrumAsync` call is not recorded. The status storage read in the details fetch is also a parameter. The aggregation semantics and the status upsert are not modelled.
- The storage providers. They are in-memory maps keyed by scrum id and scrum master id. Which of several records with the same start activity id is "first" is left open.
- Token generation and the settings URL (the settings task module and `GetSettingsCardResponse`). These are authentication plumbing and string formatting; the response is the constant `SettingsPage`.
- `OnMembersAddedAsync` and the welcome card: these are presentation. The conversation-type switch of `OnMessageActivityAsync` is transport dispatch; only its channel branch is modelled.
- Telemetry and logging. `RecordEvent` and `logger` have no effect on decisions.
- Time-zone conversion. The time zone is passed on opaquely.
- Exceptions. Only the null dereferences the code visibly reaches are modelled, as `Threw` or as the catch-all's response. Exceptions raised inside storage, Teams or `ScrumHelper` calls are not.
- Concurrency. Racing ends or submits are not modelled because the code has no locking; each operation runs alone against the store.
- `RemoveRecipientMention`. The message text is taken after the bot mention has been removed.
- The values of the command constants are defined outside this model and are passed in as `Domain.Constants`.
- Text.ToUpperChar: upper-cases ASCII letters only. The invariant-culture mapping of other letters is not modelled, so `ToUpperInvariant` and `EqualsIgnoreCase` follow it only for ASCII text.
- CardHelper.GetPagedMembers: continuation tokens are modelled as indices of the page that follows. The page size of 100 the bot asks for is not modelled; the pages the service produces are taken as given.
- CardHelper.UpdateSummaryCardWithEndScrum: takes a non-null scrum and scrum master. The source tolerates null ones while building the card, but then reads the team and channel of the master and the card id of the scrum, so a null one with a summary raises instead of returning true. No visible caller passes null, so that path is not modelled.
- The TypeScript client models (`ClientApp/src/models/type.ts`): they declare types only, with no behaviour.
