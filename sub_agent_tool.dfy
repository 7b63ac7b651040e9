/** The tools a Lead Agent calls to run its team: create a sub-agent, hand it
    a task in the background, collect finished results, destroy it, and list
    the team. Each tool takes and returns plain text and reports every
    failure as text instead of throwing. */
module SubAgentTools {
  import opened Wrappers
  import opened Strs
  import opened ResultCodes
  import opened Causes
  import opened TaskBus
  import opened SubAgents

  const CREATED_HEAD := "Sub-agent created successfully:\n- Name: "
  const CREATED_ID := "\n- threadId: "
  const CREATED_ID_NOTE := "  ← USE THIS EXACT NUMERIC ID for dispatchTask/destroySubAgent"
  const CREATED_TYPE := "\n- Type: "
  const CREATED_ROLE := "\n- Role: "
  const CREATE_FAILED := "Failed to create sub-agent: "
  const DISPATCH_FAILED := "Failed to dispatch task: "
  const AWAIT_FAILED := "Error waiting for results: "
  const DESTROY_FAILED := "Failed to destroy sub-agent: "
  const LIST_FAILED := "Failed to list team agents: "
  const NOT_IN_TEAM_PREFIX := "Sub-agent thread not found in current team: "
  const NO_PENDING := "No pending tasks and no results available."
  const ALL_DONE := "[All agents completed]"
  const NO_TEAM := "No sub-agents in team. Use createSubAgent to create specialists."
  const TEAM_HEAD := "Team agents:\n"

  // ---------------------------------------------------------------------------
  // Arguments
  // ---------------------------------------------------------------------------

  /** `normalizeEmpty`: null, blank text and any spelling of "null" become
      null; everything else is kept as given. */
  function NormalizeEmpty(value: Option<string>): (r: Option<string>)
    ensures r.None? <==> value.None? || IsBlank(value.value) || EqualsIgnoreCase(value.value, "null")
    ensures r.Some? ==> r == value
  {
    if value.None? || IsBlank(value.value) || EqualsIgnoreCase(value.value, "null") then None else value
  }

  /** The message of the `NumberFormatException` that `Long.parseLong`
      throws for text that is not a long. */
  function NumberFormatMessage(s: string): string {
    "For input string: \"" + s + "\""
  }

  /** `i` is the first index of the thread among the listed entries. */
  predicate FirstAt(agents: seq<SubAgentInfo>, threadId: int, i: int) {
    0 <= i < |agents| && agents[i].threadId == threadId && forall j :: 0 <= j < i ==> agents[j].threadId != threadId
  }

  /** The first listed entry for the thread, if any. */
  function FirstWithThread(agents: seq<SubAgentInfo>, threadId: int): (r: Option<SubAgentInfo>)
    ensures r.None? <==> forall i :: 0 <= i < |agents| ==> agents[i].threadId != threadId
    ensures r.Some? ==> r.value.threadId == threadId && exists i :: FirstAt(agents, threadId, i) && agents[i] == r.value
  {
    if |agents| == 0 then None
    else if agents[0].threadId == threadId then Some(agents[0])
    else
      var rest := FirstWithThread(agents[1..], threadId);
      if rest.Some? then
        var i :| FirstAt(agents[1..], threadId, i) && agents[1..][i] == rest.value;
        assert FirstAt(agents, threadId, i + 1);
        rest
      else rest
  }

  /** `resolveTeamAgent`: the team listing (whose own failure propagates),
      then its first entry for the thread, else an IllegalArgumentException. */
  function ResolveTeamAgent(listing: Result<seq<SubAgentInfo>, BusinessException>, threadId: int): Result<SubAgentInfo, string> {
    match listing
    case Err(e) => Err(Text(e.message))
    case Ok(agents) =>
      match FirstWithThread(agents, threadId)
      case None => Err(NOT_IN_TEAM_PREFIX + IntToString(threadId))
      case Some(a) => Ok(a)
  }

  /** The sub-agent a `threadId` argument names: it must parse as a long and
      be listed on the team; otherwise the failure's message. */
  function TargetOf(listing: Result<seq<SubAgentInfo>, BusinessException>, threadId: string): Result<SubAgentInfo, string> {
    match ParseLong(threadId)
    case None => Err(NumberFormatMessage(threadId))
    case Some(id) => ResolveTeamAgent(listing, id)
  }

  /** A tool only reaches a sub-agent that its text parses to and that the
      team listing holds, and then it reaches the first such entry. */
  lemma TargetOfSpec(listing: Result<seq<SubAgentInfo>, BusinessException>, threadId: string)
    ensures TargetOf(listing, threadId).Ok? <==>
      ParseLong(threadId).Some? && listing.Ok?
      && exists a :: a in listing.value && a.threadId == ParseLong(threadId).value
    ensures TargetOf(listing, threadId).Ok? ==>
      TargetOf(listing, threadId).value in listing.value
      && TargetOf(listing, threadId).value.threadId == ParseLong(threadId).value
    ensures ParseLong(threadId).None? ==> TargetOf(listing, threadId) == Err(NumberFormatMessage(threadId))
  {
    if ParseLong(threadId).Some? && listing.Ok? {
      var id := ParseLong(threadId).value;
      var first := FirstWithThread(listing.value, id);
      if first.Some? {
        var i :| FirstAt(listing.value, id, i) && listing.value[i] == first.value;
        assert listing.value[i] in listing.value;
      } else {
        forall a | a in listing.value ensures a.threadId != id {
          var i :| 0 <= i < |listing.value| && listing.value[i] == a;
        }
      }
    }
  }

  /** The bus is keyed by the text of the argument, not by the thread it
      names: while "12" is pending, "012" names the same sub-agent and is
      dispatched beside it. */
  lemma AliasedIdsBypassGuard(b: Bus, agentName: string)
    requires "12" in b.pending && "012" !in b.pending
    ensures ParseLong("12") == ParseLong("012") == Some(12)
    ensures DispatchOn(b, "12", agentName).Err?
    ensures DispatchOn(b, "012", agentName).Ok?
  {
    assert "12"[0] != '-' && "12"[0] != '+' && AllDigits("12");
    assert "12"[..1] == "1" && "1"[..0] == "";
    assert "012"[0] != '-' && "012"[0] != '+' && AllDigits("012");
    assert "012"[..2] == "01" && "01"[..1] == "0" && "0"[..0] == "";
  }

  // ---------------------------------------------------------------------------
  // Rendering
  // ---------------------------------------------------------------------------

  function CreatedReply(info: SubAgentInfo): string {
    CREATED_HEAD + info.agentName + CREATED_ID + IntToString(info.threadId) + CREATED_ID_NOTE
      + CREATED_TYPE + info.agentType + CREATED_ROLE + Text(info.displayName)
  }

  function CreatedNote(info: SubAgentInfo): string {
    "创建子Agent: " + Text(info.displayName) + " (" + info.agentType + ")"
  }

  function DispatchedReply(agentName: string, threadId: string, pendingCount: int): string {
    "Task dispatched to " + agentName + " (threadId: " + threadId + "). "
      + IntToString(pendingCount) + " agent(s) now working in background."
  }

  function DispatchedNote(agentName: string, pendingCount: int): string {
    "分发任务给 " + agentName + "，当前 " + IntToString(pendingCount) + " 个Agent在后台工作"
  }

  function WaitNote(timeoutSeconds: int): string {
    "等待子Agent结果（超时 " + IntToString(timeoutSeconds) + " 秒）..."
  }

  /** One result in the summary note, a failure marked. */
  function SummaryItem(r: TaskResult): string {
    r.agentName + (if r.isError then "(失败)" else "")
  }

  function SummaryItems(results: seq<TaskResult>): (r: seq<string>)
    ensures |r| == |results|
  {
    if |results| == 0 then [] else SummaryItems(results[..|results| - 1]) + [SummaryItem(results[|results| - 1])]
  }

  function ReceivedNote(results: seq<TaskResult>): string {
    "收到 " + IntToString(|results|) + " 个子Agent的结果: " + Join(SummaryItems(results), ", ")
  }

  /** The block one finished task contributes to the `awaitResults` reply. */
  function Block(r: TaskResult): string {
    "=== Agent " + r.agentName + " (threadId: " + r.threadId + ") "
      + (if r.isError then "FAILED" else "completed") + " ===\n" + r.result + "\n\n"
  }

  /** The blocks of the results, in the order they were returned. */
  function Blocks(results: seq<TaskResult>): string {
    if |results| == 0 then "" else Blocks(results[..|results| - 1]) + Block(results[|results| - 1])
  }

  /** The closing line: how many tasks are still pending, if any. */
  function Tail(remaining: int): string {
    if remaining > 0 then "[" + IntToString(remaining) + " agent(s) still pending]" else ALL_DONE
  }

  /** The `awaitResults` reply for the drained results and the pending count. */
  function AwaitReply(timeoutSeconds: int, results: seq<TaskResult>, remaining: int): string {
    if |results| == 0 then
      if remaining == 0 then NO_PENDING
      else "Timeout after " + IntToString(timeoutSeconds) + " seconds. " + IntToString(remaining) + " agent(s) still working."
    else Blocks(results) + Tail(remaining)
  }

  lemma {:induction false} BlocksContain(results: seq<TaskResult>, i: int)
    requires 0 <= i < |results|
    ensures exists pre, post :: Blocks(results) == pre + Block(results[i]) + post
  {
    var init := results[..|results| - 1];
    if i == |results| - 1 {
      assert Blocks(results) == Blocks(init) + Block(results[i]) + "";
    } else {
      assert init[i] == results[i];
      BlocksContain(init, i);
      var pre, post :| Blocks(init) == pre + Block(results[i]) + post;
      AppendAssoc(pre + Block(results[i]), post, Block(results[|results| - 1]));
    }
  }

  /** With nothing drained, the `awaitResults` reply says "no pending
      tasks" exactly when nothing is pending. */
  lemma AwaitReplyIdle(timeoutSeconds: int, remaining: nat)
    ensures AwaitReply(timeoutSeconds, [], remaining) == NO_PENDING <==> remaining == 0
  {
    if remaining > 0 {
      var reply := AwaitReply(timeoutSeconds, [], remaining);
      assert reply[0] == 'T';
      assert NO_PENDING[0] == 'N';
    }
  }

  /** With results drained, the reply closes with "[All agents completed]"
      exactly when nothing is pending any more. */
  lemma AwaitReplyClosing(timeoutSeconds: int, results: seq<TaskResult>, remaining: nat)
    requires |results| > 0
    ensures EndsWith(AwaitReply(timeoutSeconds, results, remaining), ALL_DONE) <==> remaining == 0
  {
    var reply := AwaitReply(timeoutSeconds, results, remaining);
    var tail := Tail(remaining);
    assert reply == Blocks(results) + tail;
    if remaining > 0 {
      var count := IntToString(remaining);
      assert tail == "[" + count + " agent(s) still pending]";
      assert tail[|tail| - 2] == 'g';
      assert reply[|reply| - 2] == 'g';
      assert ALL_DONE[|ALL_DONE| - 2] == 'd';
    } else {
      assert reply[|reply| - |ALL_DONE|..] == ALL_DONE;
    }
  }

  lemma AwaitReplyOfResults(timeoutSeconds: int, results: seq<TaskResult>, remaining: int)
    requires |results| > 0
    ensures AwaitReply(timeoutSeconds, results, remaining) == Blocks(results) + Tail(remaining)
  {
  }

  /** With results drained, the reply holds each result's block. */
  lemma AwaitReplyBlocks(timeoutSeconds: int, results: seq<TaskResult>, remaining: nat, i: int)
    requires 0 <= i < |results|
    ensures Contains(AwaitReply(timeoutSeconds, results, remaining), Block(results[i]))
  {
    AwaitReplyOfResults(timeoutSeconds, results, remaining);
    BlocksContain(results, i);
    var pre, post :| Blocks(results) == pre + Block(results[i]) + post;
    AppendAssoc(pre + Block(results[i]), post, Tail(remaining));
    ContainsItself(AwaitReply(timeoutSeconds, results, remaining), pre, Block(results[i]), post + Tail(remaining));
  }

  /** A listed sub-agent is busy when a task is pending under its id text. */
  predicate Working(a: SubAgentInfo, pendingIds: set<string>) {
    IntToString(a.threadId) in pendingIds
  }

  function StatusOf(a: SubAgentInfo, pendingIds: set<string>): string {
    if Working(a, pendingIds) then "WORKING" else "IDLE"
  }

  function TeamLine(a: SubAgentInfo, pendingIds: set<string>): string {
    "- " + a.agentName + " (threadId: " + IntToString(a.threadId) + ", type: " + a.agentType
      + ", status: " + StatusOf(a, pendingIds) + ")\n"
  }

  function TeamLines(agents: seq<SubAgentInfo>, pendingIds: set<string>): string {
    if |agents| == 0 then "" else TeamLines(agents[..|agents| - 1], pendingIds) + TeamLine(agents[|agents| - 1], pendingIds)
  }

  lemma TeamLinesStep(agents: seq<SubAgentInfo>, i: int, pendingIds: set<string>)
    requires 0 <= i < |agents|
    ensures TeamLines(agents[..i + 1], pendingIds) == TeamLines(agents[..i], pendingIds) + TeamLine(agents[i], pendingIds)
  {
    assert agents[..i + 1][..i] == agents[..i];
  }

  /** How many listed sub-agents are busy. */
  function WorkingCount(agents: seq<SubAgentInfo>, pendingIds: set<string>): (r: nat)
    ensures r <= |agents|
  {
    if |agents| == 0 then 0
    else WorkingCount(agents[..|agents| - 1], pendingIds) + (if Working(agents[|agents| - 1], pendingIds) then 1 else 0)
  }

  /** How many listed sub-agents are idle. */
  function IdleCount(agents: seq<SubAgentInfo>, pendingIds: set<string>): nat {
    if |agents| == 0 then 0
    else IdleCount(agents[..|agents| - 1], pendingIds) + (if Working(agents[|agents| - 1], pendingIds) then 0 else 1)
  }

  /** The working and idle counts partition the team. */
  lemma {:induction false} WorkingPlusIdle(agents: seq<SubAgentInfo>, pendingIds: set<string>)
    ensures WorkingCount(agents, pendingIds) + IdleCount(agents, pendingIds) == |agents|
  {
    if |agents| > 0 {
      WorkingPlusIdle(agents[..|agents| - 1], pendingIds);
    }
  }

  /** The closing line of the team reply. */
  function Totals(total: int, working: int): string {
    "\nTotal: " + IntToString(total) + " agent(s), " + IntToString(working) + " working, "
      + IntToString(total - working) + " idle"
  }

  /** The `listTeamAgents` reply for a listing and the pending ids. */
  function TeamReply(agents: seq<SubAgentInfo>, pendingIds: set<string>): string {
    if |agents| == 0 then NO_TEAM
    else TEAM_HEAD + TeamLines(agents, pendingIds) + Totals(|agents|, WorkingCount(agents, pendingIds))
  }

  /** The result blocks, appended one by one. */
  method RenderBlocks(results: seq<TaskResult>) returns (sb: string)
    ensures sb == Blocks(results)
  {
    sb := "";
    for i := 0 to |results|
      invariant sb == Blocks(results[..i])
    {
      assert results[..i + 1][..i] == results[..i];
      sb := sb + Block(results[i]);
    }
    assert results[..|results|] == results;
  }

  /** The heading and a line per listed sub-agent, its status read off the
      ids of the pending tasks. */
  method RenderTeam(agents: seq<SubAgentInfo>, pendingIds: set<string>) returns (sb: string)
    ensures sb == TEAM_HEAD + TeamLines(agents, pendingIds)
  {
    sb := TEAM_HEAD;
    for i := 0 to |agents|
      invariant sb == TEAM_HEAD + TeamLines(agents[..i], pendingIds)
    {
      var line := TeamLine(agents[i], pendingIds);
      TeamLinesStep(agents, i, pendingIds);
      AppendAssoc(TEAM_HEAD, TeamLines(agents[..i], pendingIds), line);
      sb := sb + line;
    }
    assert agents[..|agents|] == agents;
  }

  // ---------------------------------------------------------------------------
  // The tool object
  // ---------------------------------------------------------------------------

  /** One Lead Agent conversation's tool set: the caller, the Lead Agent's
      thread, the service and the thread's bus. Each tool also returns the
      progress events it sent, which are none when the conversation has no
      progress callback. */
  class SubAgentTool {
    const userId: int
    const parentThreadId: int
    const service: SubAgentService
    const taskManager: AsyncTaskManager
    const hasProgressCallback: bool

    ghost predicate Valid()
      reads service, service.agentTypeRegistry, service.definitions, service.threads, service.messages, taskManager
    {
      service.Valid() && taskManager.Valid()
    }

    /** The service keeps its invariant while only the bus changes. */
    twostate lemma ServiceUntouched()
      requires old(service.Valid())
      requires unchanged(service, service.agentTypeRegistry, service.definitions, service.threads, service.messages)
      ensures service.Valid() && service.Snapshot() == old(service.Snapshot())
    {
    }

    /** The team listing as the service would report it now. */
    function Listing(): Result<seq<SubAgentInfo>, BusinessException>
      reads service, service.threads, service.definitions
    {
      TeamListing(service.Snapshot(), userId, parentThreadId)
    }

    /** `emitProgress`: the event is sent only when there is a callback. */
    function Note(content: string): (events: seq<string>)
      ensures |events| <= 1
      ensures events == [] <==> !hasProgressCallback
    {
      if hasProgressCallback then [content] else []
    }

    constructor (userId: int, parentThreadId: int, service: SubAgentService, taskManager: AsyncTaskManager,
                 hasProgressCallback: bool)
      requires service.Valid() && taskManager.Valid()
      ensures Valid()
      ensures this.userId == userId && this.parentThreadId == parentThreadId
      ensures this.service == service && this.taskManager == taskManager
      ensures this.hasProgressCallback == hasProgressCallback
    {
      this.userId := userId;
      this.parentThreadId := parentThreadId;
      this.service := service;
      this.taskManager := taskManager;
      this.hasProgressCallback := hasProgressCallback;
    }

    /** The `createSubAgent` tool: the service call with the optional prompt
        and tools normalised; a failure becomes "Failed to create
        sub-agent: " and the exception's message. */
    method CreateSubAgent(agentType: string, task: Option<string>, additionalPrompt: Option<string>,
                          additionalTools: Option<string>, uuidPrefix: string, now: int)
      returns (reply: string, events: seq<string>)
      requires Valid()
      modifies service.definitions, service.threads
      ensures Valid()
      ensures var check := CreationCheck(old(service.Snapshot()), service.agentTypeRegistry.types,
                                         service.agentTypeRegistry.order, userId, parentThreadId, agentType);
        && (check.Err? ==>
              && reply == CREATE_FAILED + Text(check.error.message)
              && service.Snapshot() == old(service.Snapshot()) && events == [])
        && (check.Ok? ==>
              var info := SubAgentInfo(SubAgentName(agentType, uuidPrefix), old(service.threads.nextId), agentType,
                                       Some(check.value.descriptor.description));
              && service.Snapshot() == AfterCreation(old(service.Snapshot()), check.value, userId, parentThreadId,
                   info.agentName, task, NormalizeEmpty(additionalPrompt), NormalizeEmpty(additionalTools),
                   old(service.definitions.nextId), old(service.threads.nextId), now)
              && reply == CreatedReply(info)
              && events == Note(CreatedNote(info)))
    {
      var r := service.CreateSubAgent(userId, parentThreadId, agentType, task,
                                      NormalizeEmpty(additionalPrompt), NormalizeEmpty(additionalTools), uuidPrefix, now);
      if r.Err? {
        return CREATE_FAILED + Text(r.error.message), [];
      }
      events := Note(CreatedNote(r.value));
      reply := CreatedReply(r.value);
    }

    /** The sub-agent a `threadId` argument names: `Long.parseLong`, then
        `resolveTeamAgent`. */
    method Target(threadId: string) returns (agent: Result<SubAgentInfo, string>)
      requires Valid()
      ensures agent == TargetOf(Listing(), threadId)
    {
      var parsed := ParseLong(threadId);
      if parsed.None? {
        return Err(NumberFormatMessage(threadId));
      }
      var listing := service.ListTeamAgents(userId, parentThreadId);
      agent := ResolveTeamAgent(listing, parsed.value);
    }

    /** The `dispatchTask` tool: the id must parse and name a team member;
        the bus then refuses an id whose task is still pending. Only a
        successful dispatch changes the bus. */
    method DispatchTask(threadId: string, message: string) returns (reply: string, events: seq<string>)
      requires Valid()
      modifies taskManager
      ensures Valid()
      ensures var target := TargetOf(old(Listing()), threadId);
        && (target.Err? ==>
              && reply == DISPATCH_FAILED + target.error
              && taskManager.State() == old(taskManager.State()) && events == [])
        && (target.Ok? ==> (reply, events, taskManager.State()) == Dispatched(old(taskManager.State()), threadId, target.value.agentName))
    {
      var agent := Target(threadId);
      if agent.Err? {
        return DISPATCH_FAILED + agent.error, [];
      }
      reply, events := DispatchTo(threadId, agent.value.agentName);
    }

    /** The reply, the events and the new bus of a dispatch to a resolved
        sub-agent: refused while a task is pending under the id text. */
    function Dispatched(b: Bus, threadId: string, agentName: string): (string, seq<string>, Bus) {
      match DispatchOn(b, threadId, agentName)
      case Err(m) => (DISPATCH_FAILED + m, [], b)
      case Ok(after) =>
        (DispatchedReply(agentName, threadId, |after.pending|), Note(DispatchedNote(agentName, |after.pending|)), after)
    }

    /** The bus part of `dispatchTask`, once the sub-agent is resolved. */
    method DispatchTo(threadId: string, agentName: string) returns (reply: string, events: seq<string>)
      requires Valid()
      modifies taskManager
      ensures Valid()
      ensures (reply, events, taskManager.State()) == Dispatched(old(taskManager.State()), threadId, agentName)
    {
      var busy := taskManager.Dispatch(threadId, agentName);
      ServiceUntouched();
      if busy.Some? {
        return DISPATCH_FAILED + busy.value, [];
      }
      var count := taskManager.PendingCount();
      events := Note(DispatchedNote(agentName, count));
      reply := DispatchedReply(agentName, threadId, count);
    }

    /** The `awaitResults` tool: the bus's drain (with `arrival` the
        completion, if any, that ends the wait), rendered. */
    method AwaitResults(timeoutSeconds: int, arrival: Option<Arrival>) returns (reply: string, events: seq<string>)
      requires Valid()
      requires arrival.Some? ==> Running(taskManager.State(), arrival.value.task)
      modifies taskManager
      ensures Valid()
      ensures var drained := AwaitOn(old(taskManager.State()), arrival);
        && taskManager.State() == drained.0
        && reply == AwaitReply(timeoutSeconds, drained.1, |drained.0.pending|)
        && events == Note(WaitNote(timeoutSeconds)) + (if |drained.1| > 0 then Note(ReceivedNote(drained.1)) else [])
    {
      events := Note(WaitNote(timeoutSeconds));
      var results := taskManager.AwaitResults(arrival);
      if |results| == 0 {
        var pending := taskManager.PendingCount();
        if pending == 0 {
          return NO_PENDING, events;
        }
        return "Timeout after " + IntToString(timeoutSeconds) + " seconds. " + IntToString(pending) + " agent(s) still working.", events;
      }
      events := events + Note(ReceivedNote(results));
      var sb := RenderBlocks(results);
      var remaining := taskManager.PendingCount();
      reply := sb + Tail(remaining);
    }

    /** The `destroySubAgent` tool: the id must parse and name a team member;
        the bus task under the id text is cancelled, then the sub-agent is
        soft-deleted. */
    method DestroySubAgent(threadId: string) returns (reply: string, events: seq<string>)
      requires Valid()
      modifies taskManager, service.definitions, service.threads
      ensures Valid()
      ensures var target := TargetOf(old(Listing()), threadId);
        && (target.Err? ==>
              && reply == DESTROY_FAILED + target.error
              && taskManager.State() == old(taskManager.State())
              && service.Snapshot() == old(service.Snapshot()) && events == [])
        && (target.Ok? ==>
              var d := Destroy(old(service.Snapshot()), userId, parentThreadId, target.value.threadId);
              && taskManager.State() == CancelOn(old(taskManager.State()), threadId)
              && (d.Err? ==>
                    && reply == DESTROY_FAILED + Text(d.error.message)
                    && service.Snapshot() == old(service.Snapshot()) && events == [])
              && (d.Ok? ==>
                    && service.Snapshot() == d.value
                    && reply == "Sub-agent (threadId: " + threadId + ") destroyed successfully."
                    && events == Note("销毁子Agent: " + target.value.agentName)))
    {
      var agent := Target(threadId);
      if agent.Err? {
        return DESTROY_FAILED + agent.error, [];
      }
      var failure := CancelThenDestroy(threadId, agent.value.threadId);
      if failure.Some? {
        return DESTROY_FAILED + Text(failure.value.message), [];
      }
      events := Note("销毁子Agent: " + agent.value.agentName);
      reply := "Sub-agent (threadId: " + threadId + ") destroyed successfully.";
    }

    /** The two effects of a destroy: the bus task under the id text is
        cancelled first, then the service soft-deletes the sub-agent. */
    method CancelThenDestroy(threadId: string, id: int) returns (failure: Option<BusinessException>)
      requires Valid()
      modifies taskManager, service.definitions, service.threads
      ensures Valid()
      ensures taskManager.State() == CancelOn(old(taskManager.State()), threadId)
      ensures var d := Destroy(old(service.Snapshot()), userId, parentThreadId, id);
        && (d.Err? ==> failure == Some(d.error) && service.Snapshot() == old(service.Snapshot()))
        && (d.Ok? ==> failure == None && service.Snapshot() == d.value)
    {
      taskManager.Cancel(threadId);
      ServiceUntouched();
      failure := service.DestroySubAgent(userId, parentThreadId, id);
    }

    /** The `listTeamAgents` tool: a line per listed sub-agent, WORKING when
        a task is pending under its id, then the totals. */
    method ListTeamAgents() returns (reply: string)
      requires Valid()
      ensures Listing().Err? ==> reply == LIST_FAILED + Text(Listing().error.message)
      ensures Listing().Ok? ==> reply == TeamReply(Listing().value, taskManager.pending)
    {
      var listing := service.ListTeamAgents(userId, parentThreadId);
      if listing.Err? {
        return LIST_FAILED + Text(listing.error.message);
      }
      var agents := listing.value;
      var pendingAgents := taskManager.GetPendingAgents();
      if |agents| == 0 {
        return NO_TEAM;
      }
      var sb := RenderTeam(agents, pendingAgents.Keys);
      var working := WorkingCount(agents, pendingAgents.Keys);
      reply := sb + Totals(|agents|, working);
    }
  }
}
