/** Conversation threads: creation under an active agent of the caller,
    listing, the owner check, soft deletion (which also drops the thread's
    chat memory) and the paged message history. */
module ThreadService {
  import opened Wrappers
  import opened Domain
  import opened ResultCodes
  import opened ThreadRepo
  import opened DefinitionRepo
  import opened MessageRepo
  import MemoryStore
  import ChatApp
  import AgentManagement

  /** The checks of `createThread`, in order: a missing agent is
      AGENT_NOT_FOUND, another user's AGENT_ACCESS_DENIED, an inactive one
      AGENT_NOT_FOUND again. */
  function ThreadAgent(defs: seq<AgentDefinition>, userId: int, agentId: int): (r: Result<AgentDefinition, BusinessException>)
    ensures r.Ok? ==> r.value in defs && r.value.id == agentId && r.value.userId == userId && r.value.IsActive()
    ensures r.Err? ==> r.error == Biz(AGENT_NOT_FOUND) || r.error == Biz(AGENT_ACCESS_DENIED)
  {
    match AgentManagement.GetAgent(defs, userId, agentId)
    case Err(e) => Err(e)
    case Ok(d) => if !d.IsActive() then Err(Biz(AGENT_NOT_FOUND)) else Ok(d)
  }

  /** With unique ids, the verdict in terms of the stored row: accepted
      exactly for an active row of the caller, denied exactly for a row of
      another user (active or not). */
  lemma ThreadAgentSpec(defs: seq<AgentDefinition>, next: int, userId: int, agentId: int)
    requires IdsIncreasing(defs, DefinitionId, next)
    ensures ThreadAgent(defs, userId, agentId).Ok? <==>
      exists d :: d in defs && d.id == agentId && d.userId == userId && d.IsActive()
    ensures ThreadAgent(defs, userId, agentId) == Err(Biz(AGENT_ACCESS_DENIED)) <==>
      exists d :: d in defs && d.id == agentId && d.userId != userId
  {
    AgentManagement.GetAgentDenied(defs, next, userId, agentId);
    forall d | d in defs && d.id == agentId
      ensures Lookup(defs, agentId, DefinitionId) == Some(d)
    {
      LookupOfRow(defs, d, DefinitionId, next);
    }
  }

  /** The row `createThread` stores (before the table gives it an id and a
      time): active, with no messages and no tokens used. */
  function NewThread(userId: int, agentId: int, title: Option<string>): AgentThread {
    AgentThread(0, agentId, userId, title, ACTIVE, Some(0), Some(0), None, false, 0)
  }

  /** A created thread is at once visible to its owner: it passes the owner
      check and is listed under its agent. */
  lemma CreatedThreadIsReadable(rows: seq<AgentThread>, next: int, userId: int, agentId: int, title: Option<string>, now: int)
    requires IdsIncreasing(rows, ThreadId, next)
    ensures var t := NewThread(userId, agentId, title).(id := next, createdAt := now);
      && ChatApp.CheckThread(rows + [t], userId, next) == Ok(t)
      && t in Listing(rows + [t], userId, Some(agentId))
      && t in Listing(rows + [t], userId, None)
  {
    var t := NewThread(userId, agentId, title).(id := next, createdAt := now);
    LookupAppendFresh(rows, t, ThreadId, next);
  }

  /** The row `deleteThread` writes back. */
  function Deleted(t: AgentThread): AgentThread {
    t.(status := DELETED, isDeleted := true)
  }

  /** `deleteThread` on the thread table: the owner check, then the row
      stored as deleted. */
  function DeleteThreadOn(rows: seq<AgentThread>, userId: int, threadId: int): Result<seq<AgentThread>, BusinessException> {
    match ChatApp.CheckThread(rows, userId, threadId)
    case Err(e) => Err(e)
    case Ok(t) => Ok(Replace(rows, Deleted(t), ThreadId))
  }

  /** After `deleteThread` the thread is gone for everyone: the owner check
      fails with THREAD_NOT_FOUND and no listing shows it, while every other
      thread reads back as before. A failed deletion changes nothing. */
  lemma DeleteThreadSpec(rows: seq<AgentThread>, next: int, userId: int, threadId: int)
    requires IdsIncreasing(rows, ThreadId, next)
    ensures var r := DeleteThreadOn(rows, userId, threadId);
      && (r.Err? <==> ChatApp.CheckThread(rows, userId, threadId).Err?)
      && (r.Err? ==> r.error == ChatApp.CheckThread(rows, userId, threadId).error)
      && (r.Ok? ==>
            && IdsIncreasing(r.value, ThreadId, next)
            && (forall u :: ChatApp.CheckThread(r.value, u, threadId) == Err(Biz(THREAD_NOT_FOUND)))
            && (forall u, a :: forall t :: t in Listing(r.value, u, a) ==> t.id != threadId)
            && (forall id :: id != threadId ==> Lookup(r.value, id, ThreadId) == Lookup(rows, id, ThreadId)))
  {
    var c := ChatApp.CheckThread(rows, userId, threadId);
    if c.Ok? {
      var d := Deleted(c.value);
      LookupOfRow(rows, c.value, ThreadId, next);
      ReplaceKeepsIdsIncreasing(rows, d, ThreadId, next);
      LookupAfterReplace(rows, d, ThreadId, next, threadId);
      var after := Replace(rows, d, ThreadId);
      forall id | id != threadId
        ensures Lookup(after, id, ThreadId) == Lookup(rows, id, ThreadId)
      {
        LookupReplaceOther(rows, d, ThreadId, id);
      }
      forall u, a, t | t in Listing(after, u, a)
        ensures t.id != threadId
      {
        if t.id == threadId {
          LookupOfRow(after, t, ThreadId, next);
        }
      }
    }
  }

  /** `getMessageHistory`: the owner check, then one page of the thread's
      messages in creation order, the limit clamped into [1, 200] and the
      offset to at least 0. */
  function History(threads: seq<AgentThread>, messages: seq<AgentMessage>, userId: int, threadId: int,
                   limit: int, offset: int): (r: Result<seq<AgentMessage>, BusinessException>)
    ensures r.Err? <==> ChatApp.CheckThread(threads, userId, threadId).Err?
    ensures r.Err? ==> r.error == ChatApp.CheckThread(threads, userId, threadId).error
    ensures r.Ok? && ClampOffset(offset) < |OfThread(messages, threadId)| ==> |r.value| >= 1
    ensures r.Ok? ==> |r.value| <= MAX_PAGE && forall m :: m in r.value ==> m in messages && m.threadId == threadId
  {
    match ChatApp.CheckThread(threads, userId, threadId)
    case Err(e) => Err(e)
    case Ok(_) => Ok(Page(OfThread(messages, threadId), ClampOffset(offset), ClampLimit(limit)))
  }

  class AgentThreadService {
    const threads: AgentThreadRepository
    const definitions: AgentDefinitionRepository
    const messages: AgentMessageRepository
    /** The chat memory; the service deletes through the underlying store
        (the `memories` map), so the summarizer's cooldown entry stays. */
    const memoryStore: MemoryStore.SummarizingChatMemoryStore

    ghost predicate Valid()
      reads this, threads, definitions, messages
    {
      threads.Valid() && definitions.Valid() && messages.Valid()
    }

    constructor (threads: AgentThreadRepository, definitions: AgentDefinitionRepository,
                 messages: AgentMessageRepository, memoryStore: MemoryStore.SummarizingChatMemoryStore)
      requires threads.Valid() && definitions.Valid() && messages.Valid()
      ensures Valid()
      ensures this.threads == threads && this.definitions == definitions
      ensures this.messages == messages && this.memoryStore == memoryStore
    {
      this.threads := threads;
      this.definitions := definitions;
      this.messages := messages;
      this.memoryStore := memoryStore;
    }

    /** `createThread`. */
    method CreateThread(userId: int, agentId: int, title: Option<string>, now: int) returns (r: Result<AgentThread, BusinessException>)
      requires Valid()
      modifies threads
      ensures Valid()
      ensures match ThreadAgent(definitions.rows, userId, agentId)
        case Err(e) => r == Err(e) && threads.rows == old(threads.rows)
        case Ok(_) =>
          && r == Ok(NewThread(userId, agentId, title).(id := old(threads.nextId), createdAt := now))
          && threads.rows == old(threads.rows) + [r.value]
    {
      var agent := ThreadAgent(definitions.rows, userId, agentId);
      if agent.Err? {
        return Err(agent.error);
      }
      var thread := NewThread(userId, agentId, title);
      var id := threads.Insert(thread, now);
      r := Ok(thread.(id := id, createdAt := now));
    }

    /** `listThreads`: restricted to one agent exactly when one is given. */
    method ListThreads(userId: int, agentId: Option<int>) returns (r: seq<AgentThread>)
      requires Valid()
      ensures NewestFirstOrder(r)
      ensures forall t :: t in r <==>
        t in threads.rows && t.userId == userId && t.status != DELETED && (agentId.Some? ==> t.agentId == agentId.value)
    {
      if agentId.Some? {
        r := threads.FindByUserIdAndAgentId(userId, agentId.value);
      } else {
        r := threads.FindByUserId(userId);
      }
    }

    /** `getThread`: a missing or deleted thread is THREAD_NOT_FOUND, another
        user's THREAD_ACCESS_DENIED. */
    method GetThread(userId: int, threadId: int) returns (r: Result<AgentThread, BusinessException>)
      requires Valid()
      ensures r.Ok? <==> exists t :: t in threads.rows && t.id == threadId && t.status != DELETED && t.userId == userId
      ensures r == Err(Biz(THREAD_ACCESS_DENIED)) <==>
        exists t :: t in threads.rows && t.id == threadId && t.status != DELETED && t.userId != userId
      ensures r.Err? ==> r.error == Biz(THREAD_NOT_FOUND) || r.error == Biz(THREAD_ACCESS_DENIED)
      ensures r.Ok? ==> r.value in threads.rows && r.value.id == threadId
    {
      ChatApp.CheckThreadSpec(threads.rows, threads.nextId, userId, threadId);
      r := ChatApp.CheckThread(threads.rows, userId, threadId);
    }

    /** `deleteThread`: on success the row is stored deleted and the
        thread's chat memory dropped. */
    method DeleteThread(userId: int, threadId: int) returns (failure: Option<BusinessException>)
      requires Valid()
      modifies threads, memoryStore
      ensures Valid()
      ensures match DeleteThreadOn(old(threads.rows), userId, threadId)
        case Err(e) =>
          failure == Some(e) && threads.rows == old(threads.rows) && memoryStore.memories == old(memoryStore.memories)
        case Ok(rows) =>
          failure.None? && threads.rows == rows && memoryStore.memories == old(memoryStore.memories) - {threadId}
      ensures memoryStore.recentlySummarized == old(memoryStore.recentlySummarized)
    {
      var thread := ChatApp.CheckThread(threads.rows, userId, threadId);
      if thread.Err? {
        return Some(thread.error);
      }
      threads.Update(Deleted(thread.value));
      memoryStore.memories := memoryStore.memories - {threadId};
      failure := None;
    }

    /** `getMessageHistory`: the limit and offset clamped here, the access
        checked, then the page read. */
    method GetMessageHistory(userId: int, threadId: int, limit: int, offset: int) returns (r: Result<seq<AgentMessage>, BusinessException>)
      requires Valid()
      ensures r == History(threads.rows, messages.rows, userId, threadId, limit, offset)
    {
      var safeLimit := ClampLimit(limit);
      var safeOffset := ClampOffset(offset);
      var thread := ChatApp.CheckThread(threads.rows, userId, threadId);
      if thread.Err? {
        return Err(thread.error);
      }
      r := Ok(messages.FindByThreadId(threadId, safeLimit, safeOffset));
    }
  }
}
