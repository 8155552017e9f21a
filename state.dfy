/** The mutable objects of a turn: the scrum entity the handlers change in
    place, the storage they upsert into, and the turn context that collects
    what is sent. */
module State {
  import opened Wrappers
  import opened Text
  import opened Domain

  /** A scrum entity loaded from storage; `GetEndScrumSummaryActivityAsync`
      changes two of its fields in place before saving it. */
  class Scrum {
    var scrumId: string
    var isCompleted: bool
    var membersActivityIdMap: MembersJson
    var threadConversationId: string
    var scrumStartCardResponseId: string
    var scrumStartActivityId: string
    var scrumMasterId: string

    /** The value this object would be persisted as. */
    function Record(): ScrumRecord
      reads this
    {
      ScrumRecord(scrumId, isCompleted, membersActivityIdMap, threadConversationId,
                  scrumStartCardResponseId, scrumStartActivityId, scrumMasterId)
    }

    constructor (r: ScrumRecord)
      ensures Record() == r
    {
      scrumId := r.scrumId;
      isCompleted := r.isCompleted;
      membersActivityIdMap := r.membersActivityIdMap;
      threadConversationId := r.threadConversationId;
      scrumStartCardResponseId := r.scrumStartCardResponseId;
      scrumStartActivityId := r.scrumStartActivityId;
      scrumMasterId := r.scrumMasterId;
    }
  }

  /** The record behind a possibly-null scrum reference. */
  function Snapshot(s: Scrum?): (r: Option<ScrumRecord>)
    reads s
    ensures r.Some? <==> s != null
  {
    if s == null then None else Some(s.Record())
  }

  /** Table storage for scrums (keyed by scrum id) and scrum masters (keyed by
      scrum master id). `online` is false while storage rejects writes. */
  class ScrumStore {
    var scrums: map<string, ScrumRecord>
    var masters: map<string, ScrumMaster>
    var online: bool

    constructor (scrums: map<string, ScrumRecord>, masters: map<string, ScrumMaster>, online: bool)
      ensures this.scrums == scrums && this.masters == masters && this.online == online
    {
      this.scrums := scrums;
      this.masters := masters;
      this.online := online;
    }

    /** `CreateOrUpdateScrumAsync`: an upsert that reports whether it landed. */
    method CreateOrUpdateScrum(scrum: Scrum) returns (saved: bool)
      modifies this`scrums
      ensures saved == online
      ensures scrums == if saved then old(scrums)[scrum.scrumId := scrum.Record()] else old(scrums)
    {
      saved := online;
      if saved {
        scrums := scrums[scrum.scrumId := scrum.Record()];
      }
    }

    /** `GetScrumByScrumStartActivityIdAsync` followed by `FirstOrDefault`: some record
      with that start activity id, or null when there is none. Which one is
      first among several is up to storage. */
    method GetScrumByScrumStartActivityId(id: NStr) returns (r: Option<ScrumRecord>)
      ensures r.Some? ==> r.value in scrums.Values && Val(r.value.scrumStartActivityId) == id
      ensures r.None? ==> forall k | k in scrums :: Val(scrums[k].scrumStartActivityId) != id
    {
      if exists k | k in scrums :: Val(scrums[k].scrumStartActivityId) == id {
        var k :| k in scrums && Val(scrums[k].scrumStartActivityId) == id;
        r := Some(scrums[k]);
      } else {
        r := None;
      }
    }

    /** `GetScrumMasterDetailsByScrumMasterIdAsync`. */
    function ScrumMasterDetails(id: string): (r: Option<ScrumMaster>)
      reads this
      ensures r.Some? <==> id in masters
      ensures r.Some? ==> r.value == masters[id]
    {
      if id in masters then Some(masters[id]) else None
    }
  }

  /** The turn context: who the activity is from, the conversation it belongs
      to (which the details fetch overwrites), and what the turn has done. */
  class Turn {
    const fromId: string
    var conversationId: string
    var trace: seq<Effect>

    constructor (fromId: string, conversationId: string)
      ensures this.fromId == fromId && this.conversationId == conversationId && trace == []
    {
      this.fromId := fromId;
      this.conversationId := conversationId;
      trace := [];
    }

    method Emit(e: Effect)
      modifies this`trace
      ensures trace == old(trace) + [e]
    {
      trace := trace + [e];
    }
  }
}
