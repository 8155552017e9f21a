/** `ActivityHelper`: the membership lookup and the end-scrum transition. */
module ActivityHelper {
  import opened Wrappers
  import opened Text
  import opened Domain
  import opened State

  /** The user is in the members map with a non-empty activity id: exactly the
      users the membership gate lets through. */
  predicate IsParticipant(members: MembersJson, fromId: string) {
    members.Parsed? && fromId in members.ids && members.ids[fromId] != ""
  }

  /** `GetActivityIdToMatch`: the activity id recorded for `fromId`, "" when
      the user is not in the map, null when there is no map at all. */
  function GetActivityIdToMatch(members: MembersJson, fromId: string): (r: NStr)
    ensures members.NullJson? || members.EmptyJson? ==> r == Null
    ensures members.Parsed? && fromId in members.ids ==> r == Val(members.ids[fromId])
    ensures members.Parsed? && fromId !in members.ids ==> r == Val("")
  {
    match members
    case NullJson => Null
    case EmptyJson => Null
    case Parsed(ids) => if fromId in ids then Val(ids[fromId]) else Val("")
  }

  /** The gate used by every caller (`string.IsNullOrEmpty` on the lookup)
      rejects exactly the non-participants; when no activity id is empty this
      is plain key membership. */
  lemma MembershipGate(members: MembersJson, fromId: string)
    ensures IsNullOrEmpty(GetActivityIdToMatch(members, fromId)) <==> !IsParticipant(members, fromId)
    ensures members.Parsed? && (forall k | k in members.ids :: members.ids[k] != "") ==>
              (IsNullOrEmpty(GetActivityIdToMatch(members, fromId)) <==> fromId !in members.ids)
  {
  }

  /** Which of the guards of `GetEndScrumSummaryActivityAsync` stops an end
      request, checked in the source's order. */
  datatype EndCheck = ScrumNotRunning | NotPartOfScrum | MembersMissing | Proceed

  function EndGuard(scrum: Option<ScrumRecord>, scrumMembers: MembersJson, fromId: string): (c: EndCheck)
    // a missing or completed scrum is reported before anything else is looked at
    ensures scrum.None? || scrum.value.isCompleted ==> c == ScrumNotRunning
    // membership is checked next, before the members string
    ensures c == NotPartOfScrum <==>
              scrum.Some? && !scrum.value.isCompleted && !IsParticipant(scrum.value.membersActivityIdMap, fromId)
    ensures c == MembersMissing <==>
              scrum.Some? && !scrum.value.isCompleted && IsParticipant(scrum.value.membersActivityIdMap, fromId)
              && MembersNullOrEmpty(scrumMembers)
    ensures c == Proceed <==>
              scrum.Some? && !scrum.value.isCompleted && IsParticipant(scrum.value.membersActivityIdMap, fromId)
              && !MembersNullOrEmpty(scrumMembers)
  {
    if scrum.None? || scrum.value.isCompleted then ScrumNotRunning
    else if IsNullOrEmpty(GetActivityIdToMatch(scrum.value.membersActivityIdMap, fromId)) then
      MembershipGate(scrum.value.membersActivityIdMap, fromId);
      NotPartOfScrum
    else if MembersNullOrEmpty(scrumMembers) then MembersMissing
    else
      MembershipGate(scrum.value.membersActivityIdMap, fromId);
      Proceed
  }

  /** The message sent for each rejection. */
  function RejectionNotice(c: EndCheck): Notice
    requires c != Proceed
  {
    match c
    case ScrumNotRunning => ErrorScrumDoesNotExist
    case NotPartOfScrum => ErrorUserIsNotPartOfRunningScrumAndTryToEndScrum
    case MembersMissing => ErrorMessage
  }

  /** The state change of a successful end. */
  function Ended(r: ScrumRecord, conversationId: string): ScrumRecord {
    r.(isCompleted := true, threadConversationId := conversationId)
  }

  /** Ending is one-shot: the record a successful end stores is rejected by
      the first guard of any later end, whoever asks and with whatever members. */
  lemma EndIsOneShot(r: ScrumRecord, scrumMembers: MembersJson, fromId: string, conversationId: string,
                     laterMembers: MembersJson, laterFromId: string)
    requires EndGuard(Some(r), scrumMembers, fromId) == Proceed
    ensures EndGuard(Some(Ended(r, conversationId)), laterMembers, laterFromId) == ScrumNotRunning
    ensures Ended(r, conversationId).isCompleted && !r.isCompleted
  {
  }

  /** `GetEndScrumSummaryActivityAsync`. Returns `Returned(None)` for every
      rejection (after sending its message), `Threw` when the scrum master
      cannot be found after the save, and otherwise the activity that
      replaces the summary card. */
  method GetEndScrumSummaryActivity(scrum: Scrum?, conversationId: string, scrumMembers: MembersJson,
                                    store: ScrumStore, turn: Turn, summary: Option<ScrumSummary>)
    returns (r: Completion<Option<SummaryActivity>>)
    modifies scrum, store`scrums, turn`trace
    ensures var check := EndGuard(old(Snapshot(scrum)), scrumMembers, turn.fromId);
      // a rejected request changes neither the scrum object nor storage
      && (check != Proceed ==>
            && r == Returned(None)
            && Snapshot(scrum) == old(Snapshot(scrum))
            && store.scrums == old(store.scrums)
            && turn.trace == old(turn.trace) + [Sent(RejectionNotice(check))])
      // an accepted one marks the object completed even if the save fails
      && (check == Proceed ==>
            && scrum != null
            && scrum.Record() == Ended(old(scrum.Record()), conversationId)
            && (!store.online ==>
                  && r == Returned(None)
                  && store.scrums == old(store.scrums)
                  && turn.trace == old(turn.trace) + [Sent(ErrorSavingScrumData)])
            && (store.online ==>
                  && store.scrums == old(store.scrums)[scrum.scrumId := scrum.Record()]
                  && turn.trace == old(turn.trace) +
                       [SummaryComputed(scrum.scrumMasterId, Val(scrum.scrumStartCardResponseId), Some(scrumMembers.ids))]
                  && (scrum.scrumMasterId !in store.masters ==> r == Threw)
                  && (scrum.scrumMasterId in store.masters ==>
                        r == Returned(Some(SummaryActivity(
                               Val(scrum.scrumStartCardResponseId), turn.conversationId,
                               StartCard(summary, Some(scrumMembers.ids), scrum.scrumMasterId,
                                         Val(scrum.scrumStartActivityId),
                                         store.masters[scrum.scrumMasterId].timeZone)))))))
  {
    if scrum == null || scrum.isCompleted {
      turn.Emit(Sent(ErrorScrumDoesNotExist));
      return Returned(None);
    }

    var activityId := GetActivityIdToMatch(scrum.membersActivityIdMap, turn.fromId);
    if IsNullOrEmpty(activityId) {
      MembershipGate(scrum.membersActivityIdMap, turn.fromId);
      turn.Emit(Sent(ErrorUserIsNotPartOfRunningScrumAndTryToEndScrum));
      return Returned(None);
    }
    MembershipGate(scrum.membersActivityIdMap, turn.fromId);

    if MembersNullOrEmpty(scrumMembers) {
      turn.Emit(Sent(ErrorMessage));
      return Returned(None);
    }

    var membersActivityIdMap := scrumMembers.ids;
    scrum.isCompleted := true;
    scrum.threadConversationId := conversationId;
    var savedData := store.CreateOrUpdateScrum(scrum);
    if !savedData {
      turn.Emit(Sent(ErrorSavingScrumData));
      return Returned(None);
    }

    var scrumStartCardResponseId := scrum.scrumStartCardResponseId;
    var scrumMaster := store.ScrumMasterDetails(scrum.scrumMasterId);
    turn.Emit(SummaryComputed(scrum.scrumMasterId, Val(scrumStartCardResponseId), Some(membersActivityIdMap)));
    if scrumMaster.None? {
      // the time zone of a missing scrum master is read from null
      return Threw;
    }
    var card := StartCard(summary, Some(membersActivityIdMap), scrum.scrumMasterId,
                          Val(scrum.scrumStartActivityId), scrumMaster.value.timeZone);
    r := Returned(Some(SummaryActivity(Val(scrumStartCardResponseId), turn.conversationId, card)));
  }
}
