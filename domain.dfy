/** The values the coordinator reads, returns and records. Card layouts and
    localized strings are replaced by the resource keys and the data a card is
    built from. */
module Domain {
  import opened Wrappers
  import opened Text

  /** A members JSON string (user id -> activity id), as carried in card
      payloads and scrum records. JSON parsing is not modelled: a non-empty
      string is represented by the dictionary it parses to. */
  datatype MembersJson =
    | NullJson                                 // the string is null
    | EmptyJson                                // the string is ""
    | Parsed(ids: map<string, string>)         // a non-empty JSON object

  /** `string.IsNullOrEmpty` on the members string. */
  predicate MembersNullOrEmpty(m: MembersJson) {
    !m.Parsed?
  }

  /** Deserializing the members string into a dictionary: throws on a
      null string and yields a null dictionary for the empty one. */
  function Deserialize(m: MembersJson): (r: Completion<Option<map<string, string>>>)
    ensures r.Threw? <==> m.NullJson?
    ensures r == Returned(None) <==> m.EmptyJson?
    ensures m.Parsed? ==> r == Returned(Some(m.ids))
  {
    match m
    case NullJson => Threw
    case EmptyJson => Returned(None)
    case Parsed(ids) => Returned(Some(ids))
  }

  /** The persisted scrum entity (the fields this model uses). */
  datatype ScrumRecord = ScrumRecord(
    scrumId: string,
    isCompleted: bool,
    membersActivityIdMap: MembersJson,
    threadConversationId: string,
    scrumStartCardResponseId: string,
    scrumStartActivityId: string,
    scrumMasterId: string)

  /** The scrum master (team configuration) entity. */
  datatype ScrumMaster = ScrumMaster(
    scrumMasterId: string,
    teamId: string,
    channelId: string,
    timeZone: string,
    isActive: bool)

  /** A status update as filled in by a member. */
  datatype ScrumStatus = ScrumStatus(
    yesterdayTaskDescription: NStr,
    todayTaskDescription: NStr,
    blockerDescription: NStr)

  /** A freshly constructed status: every field null. */
  const EmptyStatus := ScrumStatus(Null, Null, Null)

  /** `AdaptiveSubmitActionData`: the data carried by a card action. */
  datatype ActionData = ActionData(
    adaptiveActionType: NStr,
    scrumStartActivityId: NStr,
    scrumMembers: MembersJson,
    scrumMasterId: string)

  /** The command strings compared against by the bot's `switch` statements.
      Their values live in a file that is not part of this model. */
  datatype Constants = Constants(
    endScrum: string,
    help: string,
    settings: string,
    scrumDetailsTaskModuleCommand: string,
    updateStatusTaskModuleCommand: string,
    settingsTaskModuleCommand: string)

  /** The aggregate computed by `ScrumHelper.GetScrumSummaryAsync`, and the
      status rows read from status storage. Neither is interpreted here. */
  type ScrumSummary(==)
  type StatusDetails(==)

  /** A team member as returned by the Teams roster API. */
  datatype TeamsAccount = TeamsAccount(id: string, name: string)

  /** Localized string keys of the messages the bot sends. */
  datatype Notice =
    | ErrorMessage
    | ErrorScrumDoesNotExist
    | ErrorUserIsNotPartOfRunningScrumAndTryToEndScrum
    | ErrorUserIsNotPartOfRunningScrumAndTryUpdateStatus
    | ErrorSavingScrumData
    | ErrorScrumMasterDetailsNullOrInactive
    | TaskModuleInvalidCommandText(command: string)
    | SuccessMessageAfterEndingScrum
    | InformationAboutBotInstallationLimitation

  /** Localized task module titles. */
  datatype Title = BotFailureTitle | UpdateStatusTitle | ScrumDetailsTitle

  /** The data the scrum start (summary) card is rendered from. */
  datatype StartCard = StartCard(
    summary: Option<ScrumSummary>,
    membersActivityIdMap: Option<map<string, string>>,
    scrumMasterId: string,
    scrumStartActivityId: NStr,
    timeZone: string)

  /** An activity sent to `UpdateActivityAsync`: the id of the message to
      replace, the conversation it lives in, and its card. */
  datatype SummaryActivity = SummaryActivity(id: NStr, conversationId: string, card: StartCard)

  /** The fields shared by the status update and status validation cards. */
  datatype StatusForm = StatusForm(
    scrumMembers: MembersJson,
    scrumMasterId: string,
    scrumStartActivityId: NStr,
    status: ScrumStatus)

  /** A task module response; `NoResponse` is C#'s `null`. */
  datatype TaskModuleResponse =
    | NoResponse
    | ErrorCard(message: Notice, title: Title)
    | StatusUpdateCard(form: StatusForm)
    | StatusValidationCard(form: StatusForm, missingYesterday: bool, missingToday: bool)
    | ScrumDetailsCard(details: StatusDetails, summary: ScrumSummary, validUsers: seq<TeamsAccount>, timeZone: string)
    | SettingsPage

  /** An externally visible step a turn takes, in the order it takes them:
      messages and cards sent, activities updated, and the calls into
      `ScrumHelper` whose effects are not modelled. */
  datatype Effect =
    | Sent(notice: Notice)
    | SentHelpCard
    | SentSettingsCard
    | Updated(activity: SummaryActivity)
    | StatusSaved(status: ScrumStatus, summaryCardId: NStr)
    | SummaryComputed(scrumMasterId: string, summaryCardId: NStr, members: Option<map<string, string>>)
}
