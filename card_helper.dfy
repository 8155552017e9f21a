/** `CardHelper`: the decisions taken while building task module responses
    and updating the summary card. */
module CardHelper {
  import opened Wrappers
  import opened Text
  import opened Domain
  import opened State

  // ---------------------------------------------------------------------
  // Status validation card

  /** `GetScrumStatusValidationCardResponse`: the card marks each of the two
      required fields that is null or white space. */
  function GetScrumStatusValidationCardResponse(scrumMembers: MembersJson, scrumMasterId: string,
                                                scrumStartActivityId: NStr, status: ScrumStatus): (r: TaskModuleResponse)
    ensures r.StatusValidationCard?
    ensures r.form == StatusForm(scrumMembers, scrumMasterId, scrumStartActivityId, status)
    ensures r.missingYesterday <==>
              status.yesterdayTaskDescription.Null? || Trim(status.yesterdayTaskDescription.s) == []
    ensures r.missingToday <==>
              status.todayTaskDescription.Null? || Trim(status.todayTaskDescription.s) == []
  {
    NullOrWhiteSpaceIffTrimmedEmpty(status.yesterdayTaskDescription);
    NullOrWhiteSpaceIffTrimmedEmpty(status.todayTaskDescription);
    StatusValidationCard(StatusForm(scrumMembers, scrumMasterId, scrumStartActivityId, status),
                         IsNullOrWhiteSpace(status.yesterdayTaskDescription),
                         IsNullOrWhiteSpace(status.todayTaskDescription))
  }

  /** The two flags are computed independently: each depends on its own field
      only, and both are set when both fields are blank. */
  lemma ValidationFlagsIndependent(scrumMembers: MembersJson, scrumMasterId: string, scrumStartActivityId: NStr,
                                   status: ScrumStatus, otherYesterday: NStr, otherToday: NStr)
    ensures GetScrumStatusValidationCardResponse(scrumMembers, scrumMasterId, scrumStartActivityId,
              status.(yesterdayTaskDescription := otherYesterday)).missingToday
            == GetScrumStatusValidationCardResponse(scrumMembers, scrumMasterId, scrumStartActivityId, status).missingToday
    ensures GetScrumStatusValidationCardResponse(scrumMembers, scrumMasterId, scrumStartActivityId,
              status.(todayTaskDescription := otherToday)).missingYesterday
            == GetScrumStatusValidationCardResponse(scrumMembers, scrumMasterId, scrumStartActivityId, status).missingYesterday
    ensures IsNullOrWhiteSpace(status.yesterdayTaskDescription) && IsNullOrWhiteSpace(status.todayTaskDescription) ==>
              var v := GetScrumStatusValidationCardResponse(scrumMembers, scrumMasterId, scrumStartActivityId, status);
              v.missingYesterday && v.missingToday
  {
    NullOrWhiteSpaceIffTrimmedEmpty(status.yesterdayTaskDescription);
    NullOrWhiteSpaceIffTrimmedEmpty(status.todayTaskDescription);
    NullOrWhiteSpaceIffTrimmedEmpty(otherYesterday);
    NullOrWhiteSpaceIffTrimmedEmpty(otherToday);
  }

  // ---------------------------------------------------------------------
  // Summary card updates

  /** `UpdateSummaryCardAsync`: replaces the summary card message with a card
      rendered from `summary`, or does nothing and returns false when there is
      no summary. */
  method UpdateSummaryCard(summary: Option<ScrumSummary>, summaryCardActivityId: NStr, scrumMasterId: string,
                           scrumStartActivityId: NStr, membersActivityIdMap: Option<map<string, string>>,
                           timeZone: string, turn: Turn)
    returns (updated: bool)
    modifies turn`trace
    ensures updated <==> summary.Some?
    ensures turn.trace == old(turn.trace) +
      if updated then
        [Updated(SummaryActivity(summaryCardActivityId, turn.conversationId,
                   StartCard(summary, membersActivityIdMap, scrumMasterId, scrumStartActivityId, timeZone)))]
      else []
  {
    if summary.None? {
      return false;
    }
    var card := StartCard(summary, membersActivityIdMap, scrumMasterId, scrumStartActivityId, timeZone);
    turn.Emit(Updated(SummaryActivity(summaryCardActivityId, turn.conversationId, card)));
    return true;
  }

  /** The first channel whose id equals `channelId` ignoring case. */
  function FindChannel(channelIds: seq<string>, channelId: string): (r: Option<string>)
    ensures r.Some? ==> r.value in channelIds && EqualsIgnoreCase(r.value, channelId)
    ensures r.None? <==> forall i | 0 <= i < |channelIds| :: !EqualsIgnoreCase(channelIds[i], channelId)
    // it is the first match: no earlier channel equals the id ignoring case
    ensures r.Some? ==> exists i | 0 <= i < |channelIds| ::
              && channelIds[i] == r.value
              && forall j | 0 <= j < i :: !EqualsIgnoreCase(channelIds[j], channelId)
  {
    if channelIds == [] then None
    else if EqualsIgnoreCase(channelIds[0], channelId) then
      Some(channelIds[0])
    else
      var r := FindChannel(channelIds[1..], channelId);
      if r.None? then r
      else
        var i :| 0 <= i < |channelIds[1..]| && channelIds[1..][i] == r.value
                 && forall j | 0 <= j < i :: !EqualsIgnoreCase(channelIds[1..][j], channelId);
        assert channelIds[i + 1] == r.value;
        assert forall j | 0 <= j < i + 1 :: !EqualsIgnoreCase(channelIds[j], channelId) by {
          forall j | 0 <= j < i + 1 ensures !EqualsIgnoreCase(channelIds[j], channelId) {
            if j > 0 { assert channelIds[j] == channelIds[1..][j - 1]; }
          }
        }
        r
  }

  /** The conversation id that addresses a message inside a channel thread. */
  function ChannelThreadAddress(channelId: string, messageId: string): string {
    channelId + ";messageid=" + messageId
  }

  /** `UpdateSummaryCardWithEndScrumAsync`: with a summary, updates the
      scrum's summary card when the team still has the scrum master's channel
      (compared ignoring case) and returns true in either case; without a
      summary returns false. `channelIds` are the team's channels as Teams
      reports them. */
  method UpdateSummaryCardWithEndScrum(summary: Option<ScrumSummary>, scrum: ScrumRecord, scrumMaster: ScrumMaster,
                                       membersActivityIdMap: Option<map<string, string>>, timeZone: string,
                                       channelIds: seq<string>, turn: Turn)
    returns (updated: bool)
    modifies turn`trace
    ensures updated <==> summary.Some?
    ensures turn.trace == old(turn.trace) +
      if summary.Some? && FindChannel(channelIds, scrumMaster.channelId).Some? then
        [Updated(SummaryActivity(Val(scrum.scrumStartCardResponseId),
                   ChannelThreadAddress(scrumMaster.channelId, scrum.scrumStartCardResponseId),
                   StartCard(summary, membersActivityIdMap, scrumMaster.scrumMasterId,
                             Val(scrum.scrumStartActivityId), timeZone)))]
      else []
  {
    if summary.Some? {
      var card := StartCard(summary, membersActivityIdMap, scrumMaster.scrumMasterId,
                            Val(scrum.scrumStartActivityId), timeZone);
      var channelInfo := FindChannel(channelIds, scrumMaster.channelId);
      if channelInfo.Some? {
        var conversation := ChannelThreadAddress(scrumMaster.channelId, scrum.scrumStartCardResponseId);
        turn.Emit(Updated(SummaryActivity(Val(scrum.scrumStartCardResponseId), conversation, card)));
      }
      return true;
    } else {
      return false;
    }
  }

  // ---------------------------------------------------------------------
  // Team roster paging and the valid-user filter

  /** One page of `TeamsInfo.GetPagedMembersAsync`. */
  datatype Page = Page(members: seq<TeamsAccount>, continuationToken: Option<nat>)

  /** The roster service over `pages`, the partition of the team's members it
      returns for the bot's fixed page size: no token asks for the first page,
      and the token of the last page is null. */
  function GetPagedMembers(pages: seq<seq<TeamsAccount>>, continuationToken: Option<nat>): (p: Page)
    requires continuationToken.None? || 0 < continuationToken.value < |pages|
    requires |pages| > 0
    ensures p.members == pages[continuationToken.GetOr(0)]
    ensures p.continuationToken.Some? <==> continuationToken.GetOr(0) + 1 < |pages|
    ensures p.continuationToken.Some? ==> p.continuationToken.value == continuationToken.GetOr(0) + 1
  {
    var i := continuationToken.GetOr(0);
    Page(pages[i], if i + 1 < |pages| then Some(i + 1) else None)
  }

  /** The pages joined in order. */
  function Flatten(pages: seq<seq<TeamsAccount>>): seq<TeamsAccount> {
    if pages == [] then [] else pages[0] + Flatten(pages[1..])
  }

  lemma {:induction false} FlattenAppend(pages: seq<seq<TeamsAccount>>, page: seq<TeamsAccount>)
    ensures Flatten(pages + [page]) == Flatten(pages) + page
  {
    if pages == [] {
      assert [] + [page] == [page];
    } else {
      assert (pages + [page])[1..] == pages[1..] + [page];
      FlattenAppend(pages[1..], page);
    }
  }

  /** The do-while loop of `GetScrumDetailsCardResponseAsync`: fetches pages
      until the continuation token is null and appends their members. */
  method CollectTeamMembers(pages: seq<seq<TeamsAccount>>) returns (teamsChannelAccounts: seq<TeamsAccount>)
    requires |pages| > 0
    ensures teamsChannelAccounts == Flatten(pages)
  {
    teamsChannelAccounts := [];
    var continuationToken: Option<nat> := None;
    ghost var fetched := 0;
    var more := true;
    while more
      invariant 0 <= fetched <= |pages|
      invariant teamsChannelAccounts == Flatten(pages[..fetched])
      invariant more <==> fetched < |pages|
      invariant more ==> continuationToken == (if fetched == 0 then None else Some(fetched))
      decreases |pages| - fetched
    {
      var currentPage := GetPagedMembers(pages, continuationToken);
      continuationToken := currentPage.continuationToken;
      FlattenAppend(pages[..fetched], pages[fetched]);
      assert pages[..fetched + 1] == pages[..fetched] + [pages[fetched]];
      teamsChannelAccounts := teamsChannelAccounts + currentPage.members;
      fetched := fetched + 1;
      more := continuationToken.Some?;
    }
    assert pages[..fetched] == pages;
  }

  /** The accounts of the roster whose user id is a key of the members map,
      in roster order. */
  function ValidUsers(accounts: seq<TeamsAccount>, membersActivityIdMap: map<string, string>): (r: seq<TeamsAccount>)
    ensures forall a :: a in r <==> a in accounts && a.id in membersActivityIdMap
    ensures forall a :: multiset(r)[a] == if a.id in membersActivityIdMap then multiset(accounts)[a] else 0
  {
    if accounts == [] then []
    else
      var rest := ValidUsers(accounts[1..], membersActivityIdMap);
      assert accounts == [accounts[0]] + accounts[1..];
      if accounts[0].id in membersActivityIdMap then [accounts[0]] + rest else rest
  }

  /** Filtering keeps relative order: the valid users of a joined roster are
      the valid users of each part, joined in the same order. */
  lemma {:induction false} ValidUsersConcat(a: seq<TeamsAccount>, b: seq<TeamsAccount>, m: map<string, string>)
    ensures ValidUsers(a + b, m) == ValidUsers(a, m) + ValidUsers(b, m)
  {
    if a == [] {
      assert a + b == b;
    } else {
      assert (a + b)[1..] == a[1..] + b;
      ValidUsersConcat(a[1..], b, m);
    }
  }

  /** So the details card lists, page by page, exactly the members of each
      page that are in the scrum. */
  lemma {:induction false} ValidUsersOfPages(pages: seq<seq<TeamsAccount>>, m: map<string, string>)
    ensures pages != [] ==> ValidUsers(Flatten(pages), m) == ValidUsers(pages[0], m) + ValidUsers(Flatten(pages[1..]), m)
  {
    if pages != [] {
      ValidUsersConcat(pages[0], Flatten(pages[1..]), m);
    }
  }

  // ---------------------------------------------------------------------
  // Scrum details task module

  /** Storage holds a scrum started by the given activity. */
  predicate HasScrum(scrums: map<string, ScrumRecord>, scrumStartActivityId: string) {
    exists k | k in scrums :: scrums[k].scrumStartActivityId == scrumStartActivityId
  }

  /** What `GetScrumDetailsCardResponseAsync` returns and does to the turn,
      given `found`, the scrum the start-activity lookup picked (none exactly
      when storage holds no scrum for that activity). */
  twostate predicate DetailsEffects(scrumMembers: MembersJson, scrumMasterId: string, scrumStartActivityId: string,
                                    store: ScrumStore, turn: Turn, statusDetails: Option<StatusDetails>,
                                    summary: Option<ScrumSummary>, pages: seq<seq<TeamsAccount>>,
                                    new found: Option<ScrumRecord>, new r: Completion<TaskModuleResponse>)
    reads store, turn
  {
    && (found.None? <==> !HasScrum(store.scrums, scrumStartActivityId))
    && (found.Some? ==> found.value in store.scrums.Values && found.value.scrumStartActivityId == scrumStartActivityId)
    // no scrum: an error card, nothing computed
    && (found.None? ==>
          && r == Returned(ErrorCard(ErrorScrumDoesNotExist, ScrumDetailsTitle))
          && turn.trace == old(turn.trace) && turn.conversationId == old(turn.conversationId))
    && (found.Some? ==>
          var scrum := found.value;
          if scrumMembers.NullJson? then
            // a null members string fails to parse before the summary is computed
            r.Threw? && turn.trace == old(turn.trace) && turn.conversationId == old(turn.conversationId)
          else
            // the summary is recomputed once, for the card's scrum master and the found scrum's card
            && turn.trace == old(turn.trace) + [SummaryComputed(scrumMasterId, Val(scrum.scrumStartCardResponseId),
                                                                Deserialize(scrumMembers).value)]
            && if statusDetails.None? || summary.None? then
                 r == Returned(ErrorCard(ErrorScrumDoesNotExist, ScrumDetailsTitle))
                 && turn.conversationId == old(turn.conversationId)
               else if scrum.scrumMasterId !in store.masters then
                 // the found scrum's master is unknown: its team id is read from null
                 r.Threw? && turn.conversationId == old(turn.conversationId)
               else
                 var master := store.masters[scrum.scrumMasterId];
                 && turn.conversationId == master.teamId
                 && if scrumMembers.EmptyJson? && Flatten(pages) != [] then
                      // the filter looks keys up in a null dictionary
                      r.Threw?
                    else
                      r == Returned(ScrumDetailsCard(statusDetails.value, summary.value,
                                      if scrumMembers.Parsed? then ValidUsers(Flatten(pages), scrumMembers.ids) else [],
                                      master.timeZone)))
  }

  /** `GetScrumDetailsCardResponseAsync`. `statusDetails` and `summary` are
      what status storage and `ScrumHelper.GetScrumSummaryAsync` return;
      `pages` is the team roster as the paging service returns it. `Threw`
      stands for the exceptions the fetch handler turns into its generic
      error card. */
  method GetScrumDetailsCardResponse(scrumMembers: MembersJson, scrumMasterId: string, scrumStartActivityId: string,
                                     store: ScrumStore, turn: Turn, statusDetails: Option<StatusDetails>,
                                     summary: Option<ScrumSummary>, pages: seq<seq<TeamsAccount>>)
    returns (r: Completion<TaskModuleResponse>, ghost found: Option<ScrumRecord>)
    requires |pages| > 0
    modifies turn
    ensures DetailsEffects(scrumMembers, scrumMasterId, scrumStartActivityId, store, turn,
                           statusDetails, summary, pages, found, r)
  {
    var scrum := store.GetScrumByScrumStartActivityId(Val(scrumStartActivityId));
    found := scrum;
    if scrum.None? {
      return Returned(ErrorCard(ErrorScrumDoesNotExist, ScrumDetailsTitle)), found;
    }
    var record := scrum.value;
    var parsed := Deserialize(scrumMembers);
    if parsed.Threw? {
      return Threw, found;
    }
    var membersActivityIdMap := parsed.value;
    turn.Emit(SummaryComputed(scrumMasterId, Val(record.scrumStartCardResponseId), membersActivityIdMap));
    if statusDetails.None? || summary.None? {
      return Returned(ErrorCard(ErrorScrumDoesNotExist, ScrumDetailsTitle)), found;
    }

    var scrumMasterDetails := store.ScrumMasterDetails(record.scrumMasterId);
    if scrumMasterDetails.None? {
      // the team id of a missing scrum master is read from null
      return Threw, found;
    }
    turn.conversationId := scrumMasterDetails.value.teamId;
    var teamsChannelAccounts := CollectTeamMembers(pages);
    var validUsers: seq<TeamsAccount>;
    if membersActivityIdMap.None? {
      if teamsChannelAccounts != [] {
        // the filter looks keys up in a null dictionary
        return Threw, found;
      }
      validUsers := [];
    } else {
      validUsers := ValidUsers(teamsChannelAccounts, membersActivityIdMap.value);
    }
    r := Returned(ScrumDetailsCard(statusDetails.value, summary.value, validUsers, scrumMasterDetails.value.timeZone));
  }
}
