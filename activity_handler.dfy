/** `ScrumStatusActivityHandler`: the guards and dispatch of the task module
    fetch and submit handlers and of channel messages. */
module ScrumStatusActivityHandler {
  import opened Wrappers
  import opened Text
  import opened Domain
  import opened State
  import opened ActivityHelper
  import opened CardHelper

  // ---------------------------------------------------------------------
  // Command dispatch

  datatype TaskModuleCommand = ScrumDetailsCommand | UpdateStatusCommand | SettingsCommand | InvalidCommand

  /** The fetch handler's dispatch on the upper-cased action type (the
      submit handler switches on the same value, with only the update-status
      case). */
  function ParseTaskModuleCommand(c: Constants, adaptiveActionType: string): (cmd: TaskModuleCommand)
    ensures var u := ToUpperInvariant(adaptiveActionType);
      && (cmd == ScrumDetailsCommand <==> u == c.scrumDetailsTaskModuleCommand)
      && (cmd == UpdateStatusCommand <==>
            u != c.scrumDetailsTaskModuleCommand && u == c.updateStatusTaskModuleCommand)
      && (cmd == SettingsCommand <==>
            u != c.scrumDetailsTaskModuleCommand && u != c.updateStatusTaskModuleCommand
            && u == c.settingsTaskModuleCommand)
  {
    var u := ToUpperInvariant(adaptiveActionType);
    if u == c.scrumDetailsTaskModuleCommand then ScrumDetailsCommand
    else if u == c.updateStatusTaskModuleCommand then UpdateStatusCommand
    else if u == c.settingsTaskModuleCommand then SettingsCommand
    else InvalidCommand
  }

  /** The action type is matched without regard to case, and a command whose
      constant is not upper case can never be selected. */
  lemma TaskModuleCommandIgnoresCase(c: Constants, s: string, t: string)
    ensures EqualsIgnoreCase(s, t) ==> ParseTaskModuleCommand(c, s) == ParseTaskModuleCommand(c, t)
    ensures ParseTaskModuleCommand(c, ToLowerInvariant(s)) == ParseTaskModuleCommand(c, s)
    ensures ParseTaskModuleCommand(c, s) == UpdateStatusCommand ==>
              ToUpperInvariant(c.updateStatusTaskModuleCommand) == c.updateStatusTaskModuleCommand
  {
    UpperIdempotentAndCaseBlind(s);
  }

  /** With distinct constants, as the fetch switch's case labels must be, the
      submit handler's one-case switch selects the same action types as the
      update-status case of the fetch handler. */
  lemma SubmitSwitchAgreesWithFetch(c: Constants, adaptiveActionType: string)
    requires c.scrumDetailsTaskModuleCommand != c.updateStatusTaskModuleCommand
    ensures ToUpperInvariant(adaptiveActionType) == c.updateStatusTaskModuleCommand
            <==> ParseTaskModuleCommand(c, adaptiveActionType) == UpdateStatusCommand
  {
  }

  datatype ChannelCommand = EndScrumCommand | HelpCommand | SettingsCardCommand | UnknownCommand

  /** The text a channel message is dispatched on: the message text, or the
      card's action type when the text is null or empty. */
  function CommandText(text: NStr, actionType: NStr): (r: NStr)
    ensures !IsNullOrEmpty(text) ==> r == text
    ensures IsNullOrEmpty(text) ==> r == actionType
  {
    if IsNullOrEmpty(text) then actionType else text
  }

  /** The channel command text upper-cased, then trimmed. */
  function NormalizeCommand(text: string): string {
    Trim(ToUpperInvariant(text))
  }

  function ParseChannelCommand(c: Constants, text: string): (cmd: ChannelCommand)
    ensures var n := NormalizeCommand(text);
      && (cmd == EndScrumCommand <==> n == c.endScrum)
      && (cmd == HelpCommand <==> n != c.endScrum && n == c.help)
      && (cmd == SettingsCardCommand <==> n != c.endScrum && n != c.help && n == c.settings)
      && (cmd == UnknownCommand <==> n != c.endScrum && n != c.help && n != c.settings)
  {
    var n := NormalizeCommand(text);
    if n == c.endScrum then EndScrumCommand
    else if n == c.help then HelpCommand
    else if n == c.settings then SettingsCardCommand
    else UnknownCommand
  }

  /** Normalizing twice is normalizing once. */
  lemma NormalizeIdempotent(s: string)
    ensures NormalizeCommand(NormalizeCommand(s)) == NormalizeCommand(s)
  {
    var u := ToUpperInvariant(s);
    UpperIdempotentAndCaseBlind(s);
    UpperCommutesWithTrimStart(u);
    UpperCommutesWithTrimEnd(TrimStart(u));
    TrimIdempotent(u);
  }

  lemma UpperOfConcat(a: string, b: string)
    ensures ToUpperInvariant(a + b) == ToUpperInvariant(a) + ToUpperInvariant(b)
  {
  }

  /** A channel command is recognised whatever its case and whatever white
      space surrounds it; and a constant only matches if it is itself in
      normal form, upper case and trimmed. */
  lemma ChannelCommandIgnoresCaseAndSpacing(c: Constants, w1: string, s: string, w2: string)
    requires AllWhiteSpace(w1) && AllWhiteSpace(w2)
    ensures ParseChannelCommand(c, w1 + ToLowerInvariant(s) + w2) == ParseChannelCommand(c, s)
    ensures ParseChannelCommand(c, s) == EndScrumCommand ==> NormalizeCommand(c.endScrum) == c.endScrum
    ensures ParseChannelCommand(c, s) == HelpCommand ==> NormalizeCommand(c.help) == c.help
    ensures ParseChannelCommand(c, s) == SettingsCardCommand ==> NormalizeCommand(c.settings) == c.settings
  {
    var l := ToLowerInvariant(s);
    UpperOfConcat(w1 + l, w2);
    UpperOfConcat(w1, l);
    UpperKeepsWhiteSpace(w1);
    UpperKeepsWhiteSpace(w2);
    UpperIdempotentAndCaseBlind(s);
    TrimIgnoresSurroundingWhiteSpace(ToUpperInvariant(w1), ToUpperInvariant(l), ToUpperInvariant(w2));
    NormalizeIdempotent(s);
  }

  // ---------------------------------------------------------------------
  // Task module fetch

  /** The update-status case of the fetch handler, given the scrum
      `GetActiveScrumAsync` returned: running is checked before membership,
      and a member gets an empty status form. */
  function UpdateStatusFetch(scrumInfo: Option<ScrumRecord>, fromId: string, data: ActionData): (r: TaskModuleResponse)
    ensures scrumInfo.None? || scrumInfo.value.isCompleted ==>
              r == ErrorCard(ErrorScrumDoesNotExist, UpdateStatusTitle)
    ensures scrumInfo.Some? && !scrumInfo.value.isCompleted && !IsParticipant(scrumInfo.value.membersActivityIdMap, fromId) ==>
              r == ErrorCard(ErrorUserIsNotPartOfRunningScrumAndTryUpdateStatus, UpdateStatusTitle)
    ensures r.StatusUpdateCard? <==>
              scrumInfo.Some? && !scrumInfo.value.isCompleted && IsParticipant(scrumInfo.value.membersActivityIdMap, fromId)
    ensures r.StatusUpdateCard? ==>
              r.form == StatusForm(data.scrumMembers, data.scrumMasterId, data.scrumStartActivityId, EmptyStatus)
  {
    if scrumInfo.None? || scrumInfo.value.isCompleted then
      ErrorCard(ErrorScrumDoesNotExist, UpdateStatusTitle)
    else if IsNullOrEmpty(GetActivityIdToMatch(scrumInfo.value.membersActivityIdMap, fromId)) then
      MembershipGate(scrumInfo.value.membersActivityIdMap, fromId);
      ErrorCard(ErrorUserIsNotPartOfRunningScrumAndTryUpdateStatus, UpdateStatusTitle)
    else
      MembershipGate(scrumInfo.value.membersActivityIdMap, fromId);
      StatusUpdateCard(StatusForm(data.scrumMembers, data.scrumMasterId, data.scrumStartActivityId, EmptyStatus))
  }

  /** The generic failure card of the handlers' null checks and catch-alls. */
  const FailureCard := ErrorCard(ErrorMessage, BotFailureTitle)

  /** The handler's answer for what the details helper produced: its
      catch-all turns an exception into the generic failure card. */
  function DetailsReply(d: Completion<TaskModuleResponse>): (r: TaskModuleResponse)
    ensures d.Threw? ==> r == FailureCard
    ensures d.Returned? ==> r == d.value
  {
    if d.Threw? then FailureCard else d.value
  }

  /** `OnTeamsTaskModuleFetchAsync`. `data` is the deserialized payload,
      `scrumInfo` what `GetActiveScrumAsync` returns for its scrum master, and
      the remaining parameters feed the scrum details case. In that case
      `found` is the scrum the start-activity lookup picked and `details` what
      the details helper produced. */
  method OnTeamsTaskModuleFetch(data: Option<ActionData>, c: Constants, store: ScrumStore, turn: Turn,
                                scrumInfo: Option<ScrumRecord>, statusDetails: Option<StatusDetails>,
                                summary: Option<ScrumSummary>, pages: seq<seq<TeamsAccount>>)
    returns (r: TaskModuleResponse, ghost found: Option<ScrumRecord>, ghost details: Completion<TaskModuleResponse>)
    requires |pages| > 0
    modifies turn
    ensures data.None? || data.value.adaptiveActionType.Null? ==>
              r == FailureCard && turn.trace == old(turn.trace) && turn.conversationId == old(turn.conversationId)
    ensures data.Some? && data.value.adaptiveActionType.Val? ==>
      var d := data.value;
      match ParseTaskModuleCommand(c, d.adaptiveActionType.s)
      case UpdateStatusCommand =>
        r == UpdateStatusFetch(scrumInfo, turn.fromId, d)
        && turn.trace == old(turn.trace) && turn.conversationId == old(turn.conversationId)
      case SettingsCommand =>
        r == SettingsPage && turn.trace == old(turn.trace) && turn.conversationId == old(turn.conversationId)
      case InvalidCommand =>
        r == ErrorCard(TaskModuleInvalidCommandText(d.adaptiveActionType.s), BotFailureTitle)
        && turn.trace == old(turn.trace) && turn.conversationId == old(turn.conversationId)
      case ScrumDetailsCommand =>
        if IsNullOrEmpty(d.scrumStartActivityId) then
          r == NoResponse && turn.trace == old(turn.trace) && turn.conversationId == old(turn.conversationId)
        else
          && DetailsEffects(d.scrumMembers, d.scrumMasterId, d.scrumStartActivityId.s, store, turn,
                            statusDetails, summary, pages, found, details)
          && r == DetailsReply(details)
  {
    found, details := None, Threw;
    if data.None? {
      return FailureCard, found, details;
    }
    var adaptiveSubmitActionData := data.value;
    var scrumStartActivityId := adaptiveSubmitActionData.scrumStartActivityId;
    var adaptiveActionType := adaptiveSubmitActionData.adaptiveActionType;
    if adaptiveActionType.Null? {
      // upper-casing a null action type raises, and the catch-all answers
      return FailureCard, found, details;
    }

    match ParseTaskModuleCommand(c, adaptiveActionType.s)
    case ScrumDetailsCommand =>
      if !IsNullOrEmpty(scrumStartActivityId) {
        var response;
        response, found := GetScrumDetailsCardResponse(adaptiveSubmitActionData.scrumMembers,
                             adaptiveSubmitActionData.scrumMasterId, scrumStartActivityId.s, store, turn,
                             statusDetails, summary, pages);
        details := response;
        return DetailsReply(response), found, details;
      }
      return NoResponse, found, details;
    case UpdateStatusCommand =>
      return UpdateStatusFetch(scrumInfo, turn.fromId, adaptiveSubmitActionData), found, details;
    case SettingsCommand =>
      return SettingsPage, found, details;
    case InvalidCommand =>
      return ErrorCard(TaskModuleInvalidCommandText(adaptiveActionType.s), BotFailureTitle), found, details;
  }

  // ---------------------------------------------------------------------
  // Task module submit

  /** Which step of the submit protocol stops a status update. */
  datatype SubmitGate = FieldsMissing | MasterUnavailable | Accepted

  /** Blank fields are reported before the scrum master is looked at. */
  function SubmitGateFor(status: ScrumStatus, scrumMaster: Option<ScrumMaster>): (g: SubmitGate)
    ensures g == FieldsMissing <==>
              IsNullOrWhiteSpace(status.yesterdayTaskDescription) || IsNullOrWhiteSpace(status.todayTaskDescription)
    ensures g == MasterUnavailable ==> scrumMaster.None? || !scrumMaster.value.isActive
    ensures g == Accepted ==> scrumMaster.Some? && scrumMaster.value.isActive
  {
    if IsNullOrWhiteSpace(status.yesterdayTaskDescription) || IsNullOrWhiteSpace(status.todayTaskDescription) then
      FieldsMissing
    else if scrumMaster.None? || !scrumMaster.value.isActive then
      MasterUnavailable
    else
      Accepted
  }

  /** A status with a blank field is turned back whatever the scrum master's
      state, and the validation card it gets flags at least one field. */
  lemma FieldsCheckedFirst(status: ScrumStatus, m1: Option<ScrumMaster>, m2: Option<ScrumMaster>,
                           scrumMembers: MembersJson, scrumMasterId: string, scrumStartActivityId: NStr)
    requires SubmitGateFor(status, m1) == FieldsMissing
    ensures SubmitGateFor(status, m2) == FieldsMissing
    ensures var v := GetScrumStatusValidationCardResponse(scrumMembers, scrumMasterId, scrumStartActivityId, status);
              v.missingYesterday || v.missingToday
  {
    NullOrWhiteSpaceIffTrimmedEmpty(status.yesterdayTaskDescription);
    NullOrWhiteSpaceIffTrimmedEmpty(status.todayTaskDescription);
  }

  /** The summary card id the submit handler uses: that of some scrum started
      by the given activity, or null when storage has none. */
  ghost predicate SummaryCardIdOf(scrums: map<string, ScrumRecord>, scrumStartActivityId: NStr, cardId: NStr) {
    if forall k | k in scrums :: Val(scrums[k].scrumStartActivityId) != scrumStartActivityId then cardId == Null
    else exists k | k in scrums :: Val(scrums[k].scrumStartActivityId) == scrumStartActivityId
                                   && cardId == Val(scrums[k].scrumStartCardResponseId)
  }

  /** The `data` object of a submit payload deserialized both as a status and
      as action data. */
  datatype SubmitData = SubmitData(status: Option<ScrumStatus>, actionData: Option<ActionData>)

  /** `OnTeamsTaskModuleSubmitAsync`. `payload` is None when the activity has
      no value or the value has no `data` object; `summary` is what
      `GetScrumSummaryAsync` returns after the save. Neither membership nor
      completion of the scrum is checked here. */
  method OnTeamsTaskModuleSubmit(payload: Option<SubmitData>, c: Constants, store: ScrumStore, turn: Turn,
                                 summary: Option<ScrumSummary>)
    returns (r: TaskModuleResponse)
    modifies turn`trace
    ensures payload.None? || payload.value.status.None? || payload.value.actionData.None?
            || payload.value.actionData.value.adaptiveActionType.Null? ==>
              r == FailureCard && turn.trace == old(turn.trace)
    ensures payload.Some? && payload.value.status.Some? && payload.value.actionData.Some?
            && payload.value.actionData.value.adaptiveActionType.Val? ==>
      var status := payload.value.status.value;
      var d := payload.value.actionData.value;
      var master := store.ScrumMasterDetails(d.scrumMasterId);
      var n := |old(turn.trace)|;
      if ToUpperInvariant(d.adaptiveActionType.s) != c.updateStatusTaskModuleCommand then
        r == NoResponse && turn.trace == old(turn.trace)
      else match SubmitGateFor(status, master)
        case FieldsMissing =>
          r == GetScrumStatusValidationCardResponse(d.scrumMembers, d.scrumMasterId, d.scrumStartActivityId, status)
          && turn.trace == old(turn.trace)
        case MasterUnavailable =>
          r == ErrorCard(ErrorScrumMasterDetailsNullOrInactive, UpdateStatusTitle) && turn.trace == old(turn.trace)
        case Accepted =>
          // the status is saved first, whatever follows
          && |turn.trace| > n && turn.trace[..n] == old(turn.trace)
          && turn.trace[n].StatusSaved? && turn.trace[n].status == status
          && SummaryCardIdOf(store.scrums, d.scrumStartActivityId, turn.trace[n].summaryCardId)
          && (d.scrumMembers.NullJson? ==> r == FailureCard && |turn.trace| == n + 1)
          // then the summary is recomputed, then the card updated when there is a summary
          && (!d.scrumMembers.NullJson? ==>
                var members := Deserialize(d.scrumMembers).value;
                var cardId := turn.trace[n].summaryCardId;
                && r == NoResponse
                && turn.trace == old(turn.trace) + [StatusSaved(status, cardId),
                                                    SummaryComputed(d.scrumMasterId, cardId, members)]
                     + (if summary.Some? then
                          [Updated(SummaryActivity(cardId, turn.conversationId,
                             StartCard(summary, members, d.scrumMasterId, d.scrumStartActivityId, master.value.timeZone)))]
                        else []))
  {
    if payload.None? || payload.value.status.None? || payload.value.actionData.None? {
      return FailureCard;
    }
    var scrumStatus := payload.value.status.value;
    var adaptiveSubmitActionData := payload.value.actionData.value;
    if adaptiveSubmitActionData.adaptiveActionType.Null? {
      return FailureCard;
    }

    // the submit switch has the update-status case only
    if ToUpperInvariant(adaptiveSubmitActionData.adaptiveActionType.s) != c.updateStatusTaskModuleCommand {
      return NoResponse;
    }
    var scrumStartActivityId := adaptiveSubmitActionData.scrumStartActivityId;
    var scrumMembers := adaptiveSubmitActionData.scrumMembers;
    var scrumMasterId := adaptiveSubmitActionData.scrumMasterId;
    if IsNullOrWhiteSpace(scrumStatus.yesterdayTaskDescription) || IsNullOrWhiteSpace(scrumStatus.todayTaskDescription) {
      return GetScrumStatusValidationCardResponse(scrumMembers, scrumMasterId, scrumStartActivityId, scrumStatus);
    }

    var scrumMasterDetails := store.ScrumMasterDetails(scrumMasterId);
    if scrumMasterDetails.None? || !scrumMasterDetails.value.isActive {
      return ErrorCard(ErrorScrumMasterDetailsNullOrInactive, UpdateStatusTitle);
    }

    var scrum := store.GetScrumByScrumStartActivityId(scrumStartActivityId);
    var summaryCardId := if scrum.Some? then Val(scrum.value.scrumStartCardResponseId) else Null;
    turn.Emit(StatusSaved(scrumStatus, summaryCardId));
    var parsed := Deserialize(scrumMembers);
    if parsed.Threw? {
      return FailureCard;
    }
    var membersActivityIdMap := parsed.value;
    turn.Emit(SummaryComputed(scrumMasterId, summaryCardId, membersActivityIdMap));
    var _ := UpdateSummaryCard(summary, summaryCardId, scrumMasterId, scrumStartActivityId, membersActivityIdMap,
                               scrumMasterDetails.value.timeZone, turn);
    return NoResponse;
  }

  // ---------------------------------------------------------------------
  // Channel messages

  /** The fields of a card action's value that the channel handler reads. */
  datatype MessageValue = MessageValue(adaptiveActionType: NStr, scrumMembers: MembersJson, scrumMasterId: Option<string>)

  /** A message activity in a channel, with the bot mention already removed. */
  datatype ChannelMessage = ChannelMessage(activityType: string, text: NStr, value: Option<MessageValue>)

  /** The text the channel switch dispatches on, if any. */
  function MessageCommandText(message: ChannelMessage): NStr {
    CommandText(message.text, if message.value.Some? then message.value.value.adaptiveActionType else Null)
  }

  /** The effects appended by the end-scrum case once the summary activity
      has been asked for: the update and confirmation only for a non-null
      activity, the generic error for an exception. */
  function EndScrumReplies(r: Completion<Option<SummaryActivity>>): seq<Effect> {
    match r
    case Threw => [Sent(ErrorMessage)]
    case Returned(None) => []
    case Returned(Some(a)) => [Updated(a), Sent(SuccessMessageAfterEndingScrum)]
  }

  /** What the end-scrum case of the channel switch does to the scrum object,
      to storage and to the turn, relative to the state before it: the effects
      of `GetEndScrumSummaryActivityAsync` followed by the handler's replies. */
  twostate predicate EndScrumEffects(scrumMembers: MembersJson, store: ScrumStore, turn: Turn, scrumInfo: Scrum?,
                                     summary: Option<ScrumSummary>)
    reads scrumInfo, store, turn
  {
    var check := EndGuard(old(Snapshot(scrumInfo)), scrumMembers, turn.fromId);
    // a rejection sends its message and changes nothing else
    && (check != Proceed ==>
          && Snapshot(scrumInfo) == old(Snapshot(scrumInfo))
          && store.scrums == old(store.scrums)
          && turn.trace == old(turn.trace) + [Sent(RejectionNotice(check))])
    // an accepted end marks the object completed, whatever follows
    && (check == Proceed ==>
          && scrumInfo != null
          && scrumInfo.Record() == Ended(old(scrumInfo.Record()), turn.conversationId)
          && (!store.online ==>
                store.scrums == old(store.scrums) && turn.trace == old(turn.trace) + [Sent(ErrorSavingScrumData)])
          && (store.online ==>
                && store.scrums == old(store.scrums)[scrumInfo.scrumId := scrumInfo.Record()]
                && (var computed := SummaryComputed(scrumInfo.scrumMasterId, Val(scrumInfo.scrumStartCardResponseId),
                                                    Some(scrumMembers.ids));
                    if scrumInfo.scrumMasterId !in store.masters then
                      // the ended scrum stays stored, but the master's time zone is read from null
                      turn.trace == old(turn.trace) + [computed, Sent(ErrorMessage)]
                    else
                      turn.trace == old(turn.trace) +
                        [ computed,
                          Updated(SummaryActivity(Val(scrumInfo.scrumStartCardResponseId), turn.conversationId,
                                    StartCard(summary, Some(scrumMembers.ids), scrumInfo.scrumMasterId,
                                              Val(scrumInfo.scrumStartActivityId),
                                              store.masters[scrumInfo.scrumMasterId].timeZone))),
                          Sent(SuccessMessageAfterEndingScrum) ])))
  }

  /** The end-scrum case of the channel switch, once the scrum master id has
      been read from the card. */
  method EndScrum(scrumMembers: MembersJson, store: ScrumStore, turn: Turn, scrumInfo: Scrum?,
                  summary: Option<ScrumSummary>)
    modifies scrumInfo, store`scrums, turn`trace
    ensures EndScrumEffects(scrumMembers, store, turn, scrumInfo, summary)
  {
    var conversationId := turn.conversationId;
    var activitySummary := GetEndScrumSummaryActivity(scrumInfo, conversationId, scrumMembers, store, turn, summary);
    ghost var before := turn.trace;
    match activitySummary {
      case Returned(Some(a)) =>
        turn.Emit(Updated(a));
        turn.Emit(Sent(SuccessMessageAfterEndingScrum));
      case Returned(None) =>
      case Threw =>
        turn.Emit(Sent(ErrorMessage));
    }
    assert turn.trace == before + EndScrumReplies(activitySummary);
  }

  /** The channel handler leaves the scrum object and storage alone. */
  twostate predicate Untouched(store: ScrumStore, scrumInfo: Scrum?)
    reads store, scrumInfo
  {
    store.scrums == old(store.scrums) && Snapshot(scrumInfo) == old(Snapshot(scrumInfo))
  }

  /** `OnMessageActivityInChannelAsync`. `scrumInfo` is what
      `GetActiveScrumAsync` returns for the scrum master named in the card. */
  method OnMessageActivityInChannel(message: ChannelMessage, c: Constants, store: ScrumStore, turn: Turn,
                                    scrumInfo: Scrum?, summary: Option<ScrumSummary>)
    modifies scrumInfo, store`scrums, turn`trace
    ensures !EqualsIgnoreCase(message.activityType, "message") ==>
              turn.trace == old(turn.trace) + [Sent(InformationAboutBotInstallationLimitation)]
              && Untouched(store, scrumInfo)
    ensures EqualsIgnoreCase(message.activityType, "message") && MessageCommandText(message).Null? ==>
              turn.trace == old(turn.trace) + [Sent(ErrorMessage)] && Untouched(store, scrumInfo)
    ensures EqualsIgnoreCase(message.activityType, "message") && MessageCommandText(message).Val? ==>
      match ParseChannelCommand(c, MessageCommandText(message).s)
      case HelpCommand => turn.trace == old(turn.trace) + [SentHelpCard] && Untouched(store, scrumInfo)
      case UnknownCommand => turn.trace == old(turn.trace) + [SentHelpCard] && Untouched(store, scrumInfo)
      case SettingsCardCommand => turn.trace == old(turn.trace) + [SentSettingsCard] && Untouched(store, scrumInfo)
      case EndScrumCommand =>
        if message.value.None? || message.value.value.scrumMasterId.None? then
          turn.trace == old(turn.trace) + [Sent(ErrorMessage)] && Untouched(store, scrumInfo)
        else
          EndScrumEffects(message.value.value.scrumMembers, store, turn, scrumInfo, summary)
  {
    if !EqualsIgnoreCase(message.activityType, "message") {
      turn.Emit(Sent(InformationAboutBotInstallationLimitation));
      return;
    }
    var actionType := if message.value.Some? then message.value.value.adaptiveActionType else Null;
    var text := CommandText(message.text, actionType);
    if text.Null? {
      // upper-casing a null text raises, and the catch-all answers
      turn.Emit(Sent(ErrorMessage));
      return;
    }

    match ParseChannelCommand(c, text.s)
    case EndScrumCommand =>
      if message.value.None? || message.value.value.scrumMasterId.None? {
        // reading the card's value or its scrum master id from null raises
        turn.Emit(Sent(ErrorMessage));
        return;
      }
      EndScrum(message.value.value.scrumMembers, store, turn, scrumInfo, summary);
    case HelpCommand =>
      turn.Emit(SentHelpCard);
    case SettingsCardCommand =>
      turn.Emit(SentSettingsCard);
    case UnknownCommand =>
      turn.Emit(SentHelpCard);
  }
}
