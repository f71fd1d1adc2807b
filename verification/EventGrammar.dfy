/** The grammar of the events a streaming run sends, as an automaton, and what every accepted stream satisfies. */
module EventGrammar {
  import opened Wrappers
  import opened Protocol
  import opened History
  import opened ToolGroups
  import opened AgentModel
  import Sequences

  /** `Working`: the group of `current` calls, from the `offset`-th of the step on, is running; `owed` are its results
      still to come, `groups` the groups after it. `Calling`: `announced` calls of a group have been announced. */
  datatype Phase =
    | Between(next: nat)
    | Streaming(step: nat, deltas: seq<AgentEvent>)
    | Finishing(step: nat)
    | Ending(step: nat)
    | Working(step: nat, offset: nat, current: seq<ToolCall>, owed: multiset<Message>, groups: seq<Group>)
    | Calling(step: nat, offset: nat, group: Group, announced: nat, groups: seq<Group>)
    | Closed
    | Rejected

  function Begun(w: World, step: nat): Phase {
    Working(step, 0, [], multiset{}, StepGroups(w, step))
  }

  predicate FailedIn(attempts: seq<Attempt>, tool: string) {
    exists i | 0 <= i < |attempts| :: ToolGroups.Failure(attempts[i]) == Some(tool)
  }

  /** Between steps only the next step may start, or the run end because no step is left. Within one, its deltas come
      before its answer: an error, an empty reply or the assistant message. Without calls a step end and the final
      outcome follow. With calls the groups come in order: all calls of a group, then exactly the messages these calls
      add, in any order, before the next group or the step end; a failed call of the group may end a fail-fast run.
      Nothing follows the end. */
  function Next(w: World, p: Phase, e: AgentEvent): Phase {
    match p
    case Between(n) =>
      if e == StepStart(n) && n <= w.maxSteps then Streaming(n, w.reply(n).deltas)
      else if e == Ended(Aborted(StepsExceeded(w.maxSteps))) && n == w.maxSteps + 1 then Closed
      else Rejected
    case Streaming(n, deltas) =>
      if deltas != [] then (if e == deltas[0] && IsDelta(e) then Streaming(n, deltas[1..]) else Rejected)
      else Answered(w, n, w.reply(n).answer, e)
    case Finishing(n) => if e == StepEnd(n) then Ending(n) else Rejected
    case Ending(n) =>
      if e.Ended? && e.outcome.Finished? && e.outcome.steps == n && e.outcome.finishReason == w.reply(n).finishReason
      then Closed else Rejected
    case Working(n, offset, current, owed, groups) =>
      if e.ToolResult? then
        (if e.message in owed then Working(n, offset, current, owed - multiset{e.message}, groups) else Rejected)
      else if e.Ended? then (if w.failFast && EndsGroup(w, n, offset, current, e.outcome) then Closed else Rejected)
      else if owed != multiset{} then Rejected
      else if groups == [] then (if e == StepEnd(n) then Between(n + 1) else Rejected)
      else Announced(w, n, offset + |current|, groups[0], 0, groups[1..], e)
    case Calling(n, offset, group, announced, groups) => Announced(w, n, offset, group, announced, groups, e)
    case Closed => Rejected
    case Rejected => Rejected
  }

  function Answered(w: World, n: nat, answer: Result<Message, string>, e: AgentEvent): Phase {
    match answer
    case Failure(reason) => if e == Ended(Aborted(LlmFailed(reason))) then Closed else Rejected
    case Success(m) =>
      if IsEmptyAssistant(m) then (if e == Ended(Aborted(EmptyReply(n))) then Closed else Rejected)
      else if e != AssistantMessage(m) then Rejected
      else if CallsOf(m) == [] then Finishing(n)
      else Begun(w, n)
  }

  function EndsGroup(w: World, n: nat, offset: nat, current: seq<ToolCall>, outcome: Outcome): bool {
    outcome.Aborted? && outcome.error.ToolFailed? && FailedIn(AttemptsAt(w, n, offset, |current|), outcome.error.tool)
  }

  function Announced(w: World, n: nat, offset: nat, group: Group, announced: nat, groups: seq<Group>, e: AgentEvent)
    : Phase {
    var calls := GroupCalls(group);
    if announced >= |calls| || e != ToolCalled(calls[announced]) then Rejected
    else if announced + 1 == |calls| then Working(n, offset, calls, multiset(Added(w, n, offset, calls)), groups)
    else Calling(n, offset, group, announced + 1, groups)
  }

  function After(w: World, p: Phase, events: seq<AgentEvent>): Phase {
    if events == [] then p else Next(w, After(w, p, events[..|events| - 1]), events[|events| - 1])
  }

  lemma {:induction false} AfterConcat(w: World, p: Phase, a: seq<AgentEvent>, b: seq<AgentEvent>)
    ensures After(w, p, a + b) == After(w, After(w, p, a), b)
  {
    hide Next;
    if b == [] {
      assert a + b == a;
    } else {
      AfterConcat(w, p, a, b[..|b| - 1]);
      assert (a + b)[..|a + b| - 1] == a + b[..|b| - 1];
    }
  }

  lemma {:induction false} AfterPush(w: World, p: Phase, events: seq<AgentEvent>, e: AgentEvent)
    ensures After(w, p, events + [e]) == Next(w, After(w, p, events), e)
  {
    hide Next;
    assert (events + [e])[..|events|] == events;
  }

  lemma {:induction false} AfterNothing(w: World, p: Phase)
    ensures After(w, p, []) == p
  {
    hide Next;
  }

  lemma {:induction false} AfterOne(w: World, p: Phase, e: AgentEvent)
    ensures After(w, p, [e]) == Next(w, p, e)
  {
    hide Next;
    assert [] + [e] == [e];
    AfterPush(w, p, [], e);
  }

  // ---- the events of one group ----

  lemma {:induction false} AfterDeltas(w: World, n: nat, deltas: seq<AgentEvent>, later: seq<AgentEvent>)
    requires forall i | 0 <= i < |deltas| :: IsDelta(deltas[i])
    ensures After(w, Streaming(n, deltas + later), deltas) == Streaming(n, later)
  {
    if deltas == [] {
      assert deltas + later == later;
    } else {
      var init, last := deltas[..|deltas| - 1], deltas[|deltas| - 1];
      assert deltas + later == init + ([last] + later);
      AfterDeltas(w, n, init, [last] + later);
      assert ([last] + later)[1..] == later;
    }
  }

  function Results(messages: seq<Message>): seq<AgentEvent> {
    seq(|messages|, i requires 0 <= i < |messages| => ToolResult(messages[i]))
  }

  lemma {:induction false} AfterResult(w: World, p: Phase, message: Message)
    requires p.Working? && message in p.owed
    ensures Next(w, p, ToolResult(message)) == p.(owed := p.owed - multiset{message})
  {
  }

  lemma {:induction false} AfterResults(w: World, p: Phase, messages: seq<Message>)
    requires p.Working? && multiset(messages) <= p.owed
    ensures After(w, p, Results(messages)) == p.(owed := p.owed - multiset(messages))
  {
    if messages == [] {
      assert p.owed - multiset(messages) == p.owed;
    } else {
      hide Next;
      var init, last := messages[..|messages| - 1], messages[|messages| - 1];
      assert messages == init + [last];
      assert multiset(messages) == multiset(init) + multiset{last};
      AfterResults(w, p, init);
      assert Results(messages) == Results(init) + [ToolResult(last)];
      AfterPush(w, p, Results(init), ToolResult(last));
      AfterResult(w, p.(owed := p.owed - multiset(init)), last);
      assert p.owed - multiset(init) - multiset{last} == p.owed - multiset(messages);
    }
  }

  function Called(calls: seq<ToolCall>): seq<AgentEvent> {
    seq(|calls|, i requires 0 <= i < |calls| => ToolCalled(calls[i]))
  }

  /** The phase once a group has been announced. */
  function GroupUnderway(w: World, n: nat, offset: nat, group: Group, groups: seq<Group>): Phase {
    Working(n, offset, GroupCalls(group), multiset(Added(w, n, offset, GroupCalls(group))), groups)
  }

  /** A phase in which `group` may be announced next. */
  ghost predicate MayCall(p: Phase, n: nat, offset: nat, group: Group, groups: seq<Group>) {
    && p.Working? && p.step == n && p.offset + |p.current| == offset
    && p.owed == multiset{} && p.groups == [group] + groups
  }

  /** The phase once `k` calls of a group have been announced. */
  function CallsUnderway(w: World, n: nat, offset: nat, group: Group, groups: seq<Group>, k: nat): Phase {
    if k == |GroupCalls(group)| then GroupUnderway(w, n, offset, group, groups)
    else Calling(n, offset, group, k, groups)
  }

  lemma {:induction false} AfterCall(w: World, p: Phase, n: nat, offset: nat, group: Group, groups: seq<Group>, k: nat)
    requires k < |GroupCalls(group)|
    requires if k == 0 then MayCall(p, n, offset, group, groups) else p == Calling(n, offset, group, k, groups)
    ensures Next(w, p, ToolCalled(GroupCalls(group)[k])) == CallsUnderway(w, n, offset, group, groups, k + 1)
  {
    hide Added, EndsGroup;
    if k == 0 {
      assert p.groups[0] == group && p.groups[1..] == groups;
    }
  }

  lemma {:induction false} CalledPush(calls: seq<ToolCall>, k: nat)
    requires k < |calls|
    ensures Called(calls[..k + 1]) == Called(calls[..k]) + [ToolCalled(calls[k])]
  {
  }

  lemma {:induction false} AfterNone(w: World, p: Phase, calls: seq<ToolCall>)
    ensures After(w, p, Called(calls[..0])) == p
  {
    AfterNothing(w, p);
    assert Called(calls[..0]) == [];
  }

  lemma {:induction false} AfterCalls(w: World, p: Phase, n: nat, offset: nat, group: Group, groups: seq<Group>, k: nat)
    requires MayCall(p, n, offset, group, groups) && 0 < k <= |GroupCalls(group)|
    ensures After(w, p, Called(GroupCalls(group)[..k])) == CallsUnderway(w, n, offset, group, groups, k)
  {
    hide Next, After, Called, GroupUnderway, MayCall, GroupCalls;
    var calls := GroupCalls(group);
    CalledPush(calls, k - 1);
    AfterPush(w, p, Called(calls[..k - 1]), ToolCalled(calls[k - 1]));
    if k == 1 {
      AfterNone(w, p, calls);
    } else {
      AfterCalls(w, p, n, offset, group, groups, k - 1);
    }
    AfterCall(w, After(w, p, Called(calls[..k - 1])), n, offset, group, groups, k - 1);
  }

  function GroupEvents(group: Group, sent: seq<Message>): seq<AgentEvent> {
    Called(GroupCalls(group)) + Results(sent)
  }

  /** A group's calls, then some of what they add. */
  lemma {:induction false} AfterGroup(w: World, start: Phase, before: seq<AgentEvent>, n: nat, offset: nat,
                                      group: Group, groups: seq<Group>, sent: seq<Message>)
    requires MayCall(After(w, start, before), n, offset, group, groups) && GroupCalls(group) != []
    requires multiset(sent) <= multiset(Added(w, n, offset, GroupCalls(group)))
    ensures var p := GroupUnderway(w, n, offset, group, groups);
      After(w, start, before + GroupEvents(group, sent)) == p.(owed := p.owed - multiset(sent))
  {
    hide Next;
    var calls, p := GroupCalls(group), After(w, start, before);
    AfterCalls(w, p, n, offset, group, groups, |calls|);
    assert calls[..|calls|] == calls;
    AfterConcat(w, p, Called(calls), Results(sent));
    AfterResults(w, GroupUnderway(w, n, offset, group, groups), sent);
    AfterConcat(w, start, before, GroupEvents(group, sent));
  }

  // ---- the events of finished groups ----

  function CallCount(groups: seq<Group>): nat {
    if groups == [] then 0 else CallCount(groups[..|groups| - 1]) + |GroupCalls(groups[|groups| - 1])|
  }

  /** Each group has sent exactly what its calls add. */
  ghost predicate Served(w: World, n: nat, groups: seq<Group>, sent: seq<seq<Message>>)
    decreases |groups|
  {
    if groups == [] then sent == []
    else
      var last := |groups| - 1;
      && |sent| == |groups| && GroupCalls(groups[last]) != []
      && multiset(sent[last]) == multiset(Added(w, n, CallCount(groups[..last]), GroupCalls(groups[last])))
      && Served(w, n, groups[..last], sent[..last])
  }

  lemma {:induction false} ServedPush(w: World, n: nat, groups: seq<Group>, sent: seq<seq<Message>>, group: Group,
                                      results: seq<Message>)
    requires Served(w, n, groups, sent) && GroupCalls(group) != []
    requires multiset(results) == multiset(Added(w, n, CallCount(groups), GroupCalls(group)))
    ensures Served(w, n, groups + [group], sent + [results])
    ensures CallCount(groups + [group]) == CallCount(groups) + |GroupCalls(group)|
  {
    assert (groups + [group])[..|groups|] == groups && (sent + [results])[..|sent|] == sent;
  }

  function GroupsEvents(groups: seq<Group>, sent: seq<seq<Message>>): seq<AgentEvent>
    requires |groups| == |sent|
  {
    if groups == [] then []
    else
      var last := |groups| - 1;
      GroupsEvents(groups[..last], sent[..last]) + GroupEvents(groups[last], sent[last])
  }

  /** The events of finished groups leave the later ones, with nothing owed. */
  lemma {:induction false} AfterGroups(w: World, start: Phase, n: nat, groups: seq<Group>, sent: seq<seq<Message>>,
                                       later: seq<Group>)
    requires Served(w, n, groups, sent) && |groups| == |sent|
    requires start == Working(n, 0, [], multiset{}, groups + later)
    ensures var p := After(w, start, GroupsEvents(groups, sent));
      && p.Working? && p.step == n && p.offset + |p.current| == CallCount(groups)
      && p.owed == multiset{} && p.groups == later
  {
    hide Next, Added, GroupEvents;
    if groups == [] {
      assert groups + later == later;
    } else {
      var last := |groups| - 1;
      var init, group, offset := groups[..last], groups[last], CallCount(groups[..last]);
      assert groups + later == init + ([group] + later);
      AfterGroups(w, start, n, init, sent[..last], [group] + later);
      AfterGroup(w, start, GroupsEvents(init, sent[..last]), n, offset, group, later, sent[last]);
    }
  }

  // ---- what every accepted stream satisfies ----

  function Starts(events: seq<AgentEvent>): seq<nat> {
    if events == [] then []
    else
      var before, last := Starts(events[..|events| - 1]), events[|events| - 1];
      if last.StepStart? then before + [last.step] else before
  }

  /** The step a phase belongs to; between steps, the one before. */
  function StepOf(p: Phase): nat {
    match p
    case Between(n) => if n > 0 then n - 1 else 0
    case Streaming(n, _) => n
    case Finishing(n) => n
    case Ending(n) => n
    case Working(n, _, _, _, _) => n
    case Calling(n, _, _, _, _) => n
    case Closed => 0
    case Rejected => 0
  }

  function Counted(n: nat): (r: seq<nat>)
    ensures |r| == n && forall i | 0 <= i < n :: r[i] == i + 1
  {
    seq(n, i requires 0 <= i < n => i + 1)
  }

  lemma {:induction false} CountedPush(n: nat)
    ensures Counted(n) + [n + 1] == Counted(n + 1)
  {
  }

  lemma {:induction false} CountedLength(n: nat)
    ensures |Counted(n)| == n
  {
  }

  lemma {:induction false} StepOfNext(w: World, p: Phase, e: AgentEvent)
    requires !Next(w, p, e).Rejected?
    ensures var q := Next(w, p, e);
      && (e.StepStart? ==>
            && p.Between? && e.step == p.next <= w.maxSteps
            && StepOf(q) == p.next && !q.Between? && !q.Closed?)
      && (!e.StepStart? && !q.Closed? ==> StepOf(q) == StepOf(p))
      && (q.Between? ==> q.next == StepOf(p) + 1)
      && !p.Closed?
  {
  }

  /** In a stream that has not been rejected the steps started are 1, 2, 3, ... in order, at most the allowed number. */
  lemma {:induction false} GrammarOrdersSteps(w: World, events: seq<AgentEvent>)
    requires !After(w, Between(1), events).Rejected?
    ensures var p, starts := After(w, Between(1), events), Starts(events);
      && |starts| <= w.maxSteps && starts == Counted(|starts|)
      && (!p.Closed? ==> StepOf(p) == |starts| && (p.Between? ==> p.next == |starts| + 1))
  {
    if events == [] {
      assert Counted(0) == [];
    } else {
      hide Next, StepOf, Counted;
      var init, last := events[..|events| - 1], events[|events| - 1];
      GrammarOrdersSteps(w, init);
      StepOfNext(w, After(w, Between(1), init), last);
      CountedPush(|Starts(init)|);
      CountedLength(|Starts(init)| + 1);
    }
  }

  lemma {:induction false} NothingAfterEnd(w: World, p: Phase, e: AgentEvent)
    requires p.Rejected? || p.Closed?
    ensures Next(w, p, e).Rejected?
  {
  }

  lemma {:induction false} NothingFollows(w: World, p: Phase, events: seq<AgentEvent>)
    requires (p.Closed? || p.Rejected?) && events != []
    ensures After(w, p, events).Rejected?
  {
    hide Next;
    var init, last := events[..|events| - 1], events[|events| - 1];
    if init != [] {
      NothingFollows(w, p, init);
    }
    NothingAfterEnd(w, After(w, p, init), last);
  }

  lemma {:induction false} EndIsLast(w: World, events: seq<AgentEvent>)
    requires events != [] && events[|events| - 1].Ended?
    ensures After(w, Between(1), events).Closed? || After(w, Between(1), events).Rejected?
  {
  }

  /** An end only ever comes last. */
  lemma {:induction false} EndsOnce(w: World, events: seq<AgentEvent>, i: nat)
    requires !After(w, Between(1), events).Rejected? && i < |events| - 1
    ensures !events[i].Ended?
  {
    hide Next;
    if events[i].Ended? {
      var before, later := events[..i + 1], events[i + 1..];
      assert events == before + later;
      AfterConcat(w, Between(1), before, later);
      EndIsLast(w, before);
      NothingFollows(w, After(w, Between(1), before), later);
    }
  }

  // ---- results come after their calls, and none is missing ----

  function ResultsIn(events: seq<AgentEvent>): multiset<Message> {
    if events == [] then multiset{}
    else
      ResultsIn(events[..|events| - 1]) + ResultOf(events[|events| - 1])
  }

  function ResultOf(e: AgentEvent): multiset<Message> {
    if e.ToolResult? then multiset{e.message} else multiset{}
  }

  /** The messages that the calls of the first `n` steps add. */
  function StepsAdd(w: World, n: nat): multiset<Message> {
    if n == 0 then multiset{} else StepsAdd(w, n - 1) + multiset(Added(w, n, 0, StepCalls(w, n)))
  }

  /** The messages that the first `n` calls of a step and all earlier steps add. */
  function Due(w: World, step: nat, n: nat): multiset<Message>
    requires step > 0 && n <= |StepCalls(w, step)|
  {
    StepsAdd(w, step - 1) + multiset(Added(w, step, 0, StepCalls(w, step)[..n]))
  }

  /** How many calls of its step a phase has in announced groups. */
  function CallsAnnounced(p: Phase): nat {
    if p.Working? then p.offset + |p.current| else if p.Calling? then p.offset else 0
  }

  ghost predicate Sound(w: World, p: Phase) {
    match p
    case Between(n) => n > 0
    case Streaming(n, _) => n > 0
    case Finishing(n) => n > 0 && StepCalls(w, n) == []
    case Ending(n) => n > 0 && StepCalls(w, n) == []
    case Working(n, offset, current, _, groups) =>
      && n > 0 && offset + |current| <= |StepCalls(w, n)|
      && StepCalls(w, n)[offset + |current|..] == Ungrouped(groups)
    case Calling(n, offset, group, _, groups) =>
      && n > 0 && offset <= |StepCalls(w, n)| && StepCalls(w, n)[offset..] == GroupCalls(group) + Ungrouped(groups)
    case Closed => true
    case Rejected => true
  }

  function Owed(p: Phase): multiset<Message> {
    if p.Working? then p.owed else multiset{}
  }

  /** What the calls announced up to a phase add. */
  ghost function DueAt(w: World, p: Phase): multiset<Message>
    requires Sound(w, p) && !p.Closed? && !p.Rejected?
  {
    if p.Between? then StepsAdd(w, p.next - 1) else Due(w, p.step, CallsAnnounced(p))
  }

  lemma {:induction false} NothingDue(w: World, n: nat)
    requires n > 0
    ensures Due(w, n, 0) == StepsAdd(w, n - 1)
    ensures Due(w, n, |StepCalls(w, n)|) == StepsAdd(w, n)
  {
    assert StepCalls(w, n)[..0] == [];
    assert StepCalls(w, n)[..|StepCalls(w, n)|] == StepCalls(w, n);
  }

  lemma {:induction false} DueMore(w: World, n: nat, offset: nat, calls: seq<ToolCall>, rest: seq<ToolCall>)
    requires n > 0 && offset <= |StepCalls(w, n)| && StepCalls(w, n)[offset..] == calls + rest
    ensures offset + |calls| <= |StepCalls(w, n)| && StepCalls(w, n)[offset + |calls|..] == rest
    ensures Due(w, n, offset + |calls|) == Due(w, n, offset) + multiset(Added(w, n, offset, calls))
  {
    hide StepsAdd, StepCalls, Added;
    Sequences.SplitAt(StepCalls(w, n), offset, calls, rest);
    SplitAdded(w, n, 0, StepCalls(w, n)[..offset], calls);
  }

  /** Announcing a call keeps the balance: a whole group owes exactly what its calls add. */
  lemma {:induction false} AnnouncedBalances(w: World, n: nat, offset: nat, group: Group, announced: nat,
                                             groups: seq<Group>, e: AgentEvent)
    requires n > 0 && offset <= |StepCalls(w, n)| && StepCalls(w, n)[offset..] == GroupCalls(group) + Ungrouped(groups)
    ensures var q := Announced(w, n, offset, group, announced, groups, e);
      !q.Rejected? ==> Sound(w, q) && !q.Closed? && !e.ToolResult? && DueAt(w, q) == Due(w, n, offset) + Owed(q)
  {
    hide StepsAdd, Due, Added, StepCalls;
    DueMore(w, n, offset, GroupCalls(group), Ungrouped(groups));
  }

  lemma {:induction false} BegunBalances(w: World, n: nat)
    requires n > 0
    ensures Sound(w, Begun(w, n)) && DueAt(w, Begun(w, n)) == StepsAdd(w, n - 1)
  {
    GroupingKeepsCalls(StepCalls(w, n), w.parallel);
    NothingDue(w, n);
    assert StepCalls(w, n)[0..] == StepCalls(w, n);
  }

  /** One event keeps the balance of results sent, owed and due. */
  ghost predicate Balanced(w: World, p: Phase, e: AgentEvent, q: Phase)
    requires Sound(w, p) && !p.Rejected? && !p.Closed?
  {
    !q.Rejected? && !q.Closed? ==> Sound(w, q) && DueAt(w, q) + Owed(p) == DueAt(w, p) + ResultOf(e) + Owed(q)
  }

  lemma {:induction false} BetweenBalances(w: World, p: Phase, e: AgentEvent)
    requires Sound(w, p) && p.Between?
    ensures Balanced(w, p, e, Next(w, p, e))
  {
    hide StepsAdd, Added;
    NothingDue(w, p.next);
  }

  lemma {:induction false} AnswerBalances(w: World, n: nat, e: AgentEvent)
    requires n > 0
    ensures var q := Answered(w, n, w.reply(n).answer, e);
      !q.Rejected? && !q.Closed? ==>
        Sound(w, q) && !e.ToolResult? && Owed(q) == multiset{} && DueAt(w, q) == StepsAdd(w, n - 1)
  {
    hide StepsAdd, StepGroups, Due, Added;
    NothingDue(w, n);
    BegunBalances(w, n);
  }

  lemma {:induction false} StreamingBalances(w: World, p: Phase, e: AgentEvent)
    requires Sound(w, p) && p.Streaming?
    ensures Balanced(w, p, e, Next(w, p, e))
  {
    hide StepsAdd, Due, Answered;
    NothingDue(w, p.step);
    AnswerBalances(w, p.step, e);
  }

  lemma {:induction false} ResultBalances(w: World, p: Phase, e: AgentEvent)
    requires Sound(w, p) && p.Working? && e.ToolResult?
    ensures Balanced(w, p, e, Next(w, p, e))
  {
    hide StepsAdd, Due;
    if e.message in p.owed {
      assert p.owed == multiset{e.message} + (p.owed - multiset{e.message});
    }
  }

  lemma {:induction false} StepEndBalances(w: World, p: Phase, e: AgentEvent)
    requires Sound(w, p) && p.Working? && !e.ToolResult? && p.groups == []
    ensures Balanced(w, p, e, Next(w, p, e))
  {
    hide StepsAdd, Due, Added, EndsGroup;
    NothingDue(w, p.step);
    assert |StepCalls(w, p.step)[p.offset + |p.current|..]| == 0;
  }

  lemma {:induction false} WorkingBalances(w: World, p: Phase, e: AgentEvent)
    requires Sound(w, p) && p.Working? && !e.ToolResult? && p.groups != []
    ensures Balanced(w, p, e, Next(w, p, e))
  {
    hide StepsAdd, Due, Added, EndsGroup, Announced, StepCalls;
    AnnouncedBalances(w, p.step, p.offset + |p.current|, p.groups[0], 0, p.groups[1..], e);
  }

  lemma {:induction false} NextBalances(w: World, p: Phase, e: AgentEvent)
    requires Sound(w, p) && !p.Rejected? && !p.Closed?
    ensures Balanced(w, p, e, Next(w, p, e))
  {
    hide StepsAdd, Due;
    if p.Between? {
      BetweenBalances(w, p, e);
    } else if p.Streaming? {
      StreamingBalances(w, p, e);
    } else if p.Working? && e.ToolResult? {
      ResultBalances(w, p, e);
    } else if p.Working? && p.groups == [] {
      StepEndBalances(w, p, e);
    } else if p.Working? {
      WorkingBalances(w, p, e);
    } else if p.Calling? {
      AnnouncedBalances(w, p.step, p.offset, p.group, p.announced, p.groups, e);
    } else {
      NothingDue(w, p.step);
    }
  }

  lemma {:induction false} Cancel(a: multiset<Message>, b: multiset<Message>, c: multiset<Message>)
    requires a + c == b + c
    ensures a == b
  {
    forall m ensures a[m] == b[m] {
      assert (a + c)[m] == (b + c)[m];
    }
  }

  lemma {:induction false} BetweenSound(w: World)
    ensures Sound(w, Between(1)) && DueAt(w, Between(1)) == StepsAdd(w, 0) && Owed(Between(1)) == multiset{}
  {
  }

  /** In every accepted stream, at every point, the results sent and those still owed by the group that is running are
      exactly what the calls of the groups announced so far add: no result comes before its call, none after the group
      that follows it, and none is missing, repeated or foreign. */
  lemma {:induction false} ResultsFollowCalls(w: World, events: seq<AgentEvent>)
    ensures var p := After(w, Between(1), events);
      !p.Rejected? && !p.Closed? ==> Sound(w, p) && ResultsIn(events) + Owed(p) == DueAt(w, p)
  {
    hide Next, Sound, DueAt, Owed;
    if events == [] {
      assert StepsAdd(w, 0) == multiset{};
      BetweenSound(w);
    } else {
      var init, e := events[..|events| - 1], events[|events| - 1];
      var p := After(w, Between(1), init);
      ResultsFollowCalls(w, init);
      if !p.Rejected? && !p.Closed? {
        var q := Next(w, p, e);
        NextBalances(w, p, e);
        if !q.Rejected? && !q.Closed? {
          Cancel(ResultsIn(events) + Owed(q), DueAt(w, q), Owed(p));
        }
      } else {
        NothingAfterEnd(w, p, e);
      }
    }
  }

  predicate ToolEnded(e: AgentEvent) {
    e.Ended? && e.outcome.Aborted? && e.outcome.error.ToolFailed?
  }

  lemma {:induction false} LastPhase(w: World, p: Phase, e: AgentEvent)
    requires Next(w, p, e).Closed? && !ToolEnded(e)
    ensures e.Ended? && (p.Between? || ((p.Streaming? || p.Ending?) && (p.Streaming? ==> StepCalls(w, p.step) == [])))
  {
  }

  /** A stream that ended, unless a tool ended it, holds exactly the messages that the calls of its steps add. */
  lemma {:induction false} EndedStreamReportsAll(w: World, events: seq<AgentEvent>)
    requires After(w, Between(1), events).Closed? && !ToolEnded(events[|events| - 1])
    ensures ResultsIn(events) == StepsAdd(w, |Starts(events)|)
  {
    var init, e := events[..|events| - 1], events[|events| - 1];
    var p := After(w, Between(1), init);
    ResultsFollowCalls(w, init);
    GrammarOrdersSteps(w, events);
    LastPhase(w, p, e);
    GrammarOrdersSteps(w, init);
    NothingDue(w, if p.Between? then p.next else p.step);
  }

  // ---- the calls in a stream ----

  function CallsIn(events: seq<AgentEvent>): seq<ToolCall> {
    if events == [] then [] else CallsIn(events[..|events| - 1]) + CallOf(events[|events| - 1])
  }

  function CallOf(e: AgentEvent): seq<ToolCall> {
    if e.ToolCalled? then [e.call] else []
  }

  /** The calls of the first `n` steps. */
  function StepsCalls(w: World, n: nat): seq<ToolCall> {
    if n == 0 then [] else StepsCalls(w, n - 1) + StepCalls(w, n)
  }

  /** How many calls of its step have been announced by a phase. */
  function CallsSoFar(p: Phase): nat {
    CallsAnnounced(p) + (if p.Calling? then p.announced else 0)
  }

  /** The calls of the earlier steps, then those of its step announced by a phase. */
  ghost function CallsBy(w: World, p: Phase): seq<ToolCall> {
    if p.Between? then StepsCalls(w, StepOf(p))
    else if StepOf(p) == 0 || CallsSoFar(p) > |StepCalls(w, StepOf(p))| then []
    else StepsCalls(w, StepOf(p) - 1) + StepCalls(w, StepOf(p))[..CallsSoFar(p)]
  }

  lemma {:induction false} AnnouncedAddsCall(w: World, n: nat, offset: nat, group: Group, announced: nat,
                                             groups: seq<Group>, e: AgentEvent)
    requires n > 0 && offset <= |StepCalls(w, n)|
    requires StepCalls(w, n)[offset..] == GroupCalls(group) + Ungrouped(groups)
    ensures var q := Announced(w, n, offset, group, announced, groups, e);
      !q.Rejected? ==>
        && offset + announced < |StepCalls(w, n)|
        && StepOf(q) == n && !q.Between? && CallsSoFar(q) == offset + announced + 1
        && CallOf(e) == [StepCalls(w, n)[offset + announced]]
  {
    hide StepCalls, Added;
    var calls := GroupCalls(group);
    if announced < |calls| {
      assert StepCalls(w, n)[offset..][announced] == calls[announced];
    }
  }

  lemma {:induction false} OneMoreCall(before: seq<ToolCall>, calls: seq<ToolCall>, n: nat)
    requires n < |calls|
    ensures before + calls[..n + 1] == before + calls[..n] + [calls[n]]
  {
  }

  /** Announcing the call at `n` of a step. */
  lemma {:induction false} CallByCall(w: World, p: Phase, q: Phase, e: AgentEvent, step: nat, n: nat)
    requires step > 0 && n < |StepCalls(w, step)| && CallOf(e) == [StepCalls(w, step)[n]]
    requires StepOf(p) == step == StepOf(q) && !p.Between? && !q.Between?
    requires CallsSoFar(p) == n && CallsSoFar(q) == n + 1
    ensures CallsBy(w, q) == CallsBy(w, p) + CallOf(e)
  {
    hide StepCalls, StepsCalls, StepOf, CallsSoFar;
    OneMoreCall(StepsCalls(w, step - 1), StepCalls(w, step), n);
  }

  lemma {:induction false} WorkingAddsCall(w: World, p: Phase, e: AgentEvent)
    requires Sound(w, p) && p.Working? && p.groups != [] && !e.ToolResult?
    ensures var q := Next(w, p, e);
      !q.Rejected? && !q.Closed? ==> CallsBy(w, q) == CallsBy(w, p) + CallOf(e)
  {
    hide Announced, EndsGroup, CallsBy, StepCalls;
    var q, offset := Next(w, p, e), p.offset + |p.current|;
    AnnouncedAddsCall(w, p.step, offset, p.groups[0], 0, p.groups[1..], e);
    if !q.Rejected? && !q.Closed? {
      CallByCall(w, p, q, e, p.step, offset);
    }
  }

  lemma {:induction false} CallingAddsCall(w: World, p: Phase, e: AgentEvent)
    requires Sound(w, p) && p.Calling?
    ensures var q := Next(w, p, e);
      !q.Rejected? && !q.Closed? ==> CallsBy(w, q) == CallsBy(w, p) + CallOf(e)
  {
    hide Announced, CallsBy, StepCalls;
    var q := Next(w, p, e);
    AnnouncedAddsCall(w, p.step, p.offset, p.group, p.announced, p.groups, e);
    if !q.Rejected? {
      CallByCall(w, p, q, e, p.step, p.offset + p.announced);
    }
  }

  /** At the start of a step none of its calls has been announced, at its end all have. */
  lemma {:induction false} NoCallOrAll(w: World, p: Phase)
    ensures p.Streaming? && p.step > 0 ==> CallsBy(w, p) == StepsCalls(w, p.step - 1)
    ensures StepOf(p) > 0 && !p.Between? && CallsSoFar(p) == |StepCalls(w, StepOf(p))| ==>
      CallsBy(w, p) == StepsCalls(w, StepOf(p))
    ensures p.Working? && p.step > 0 && CallsSoFar(p) == 0 ==> CallsBy(w, p) == StepsCalls(w, p.step - 1)
  {
    hide StepCalls;
    var calls := StepCalls(w, StepOf(p));
    assert calls[..0] == [] && calls[..|calls|] == calls;
  }

  lemma {:induction false} NoCallsAtAll(w: World, p: Phase)
    requires (p.Finishing? || p.Ending?) && p.step > 0 && StepCalls(w, p.step) == []
    ensures CallsBy(w, p) == StepsCalls(w, p.step - 1)
  {
    assert StepCalls(w, p.step)[..0] == [];
  }

  lemma {:induction false} AnswerAddsNoCall(w: World, n: nat, e: AgentEvent)
    requires n > 0
    ensures var q := Answered(w, n, w.reply(n).answer, e);
      !q.Rejected? && !q.Closed? ==> CallOf(e) == [] && CallsBy(w, q) == StepsCalls(w, n - 1)
  {
    hide StepGroups, StepsCalls, CallsBy;
    var q := Answered(w, n, w.reply(n).answer, e);
    NoCallOrAll(w, q);
    if q.Finishing? {
      NoCallsAtAll(w, q);
    }
  }

  lemma {:induction false} BetweenCalls(w: World, p: Phase)
    ensures p.Between? && p.next > 0 ==> CallsBy(w, p) == StepsCalls(w, p.next - 1)
  {
  }

  lemma {:induction false} SameCalls(w: World, p: Phase, q: Phase)
    requires p.Working? && (q.Working? ==> StepOf(p) == StepOf(q) && CallsSoFar(p) == CallsSoFar(q))
    ensures q.Working? ==> CallsBy(w, q) == CallsBy(w, p)
  {
  }

  lemma {:induction false} NextAddsNoCall(w: World, p: Phase, e: AgentEvent)
    requires Sound(w, p) && !p.Rejected? && !p.Closed? && !p.Calling?
    requires p.Working? ==> p.groups == [] || e.ToolResult?
    ensures var q := Next(w, p, e);
      !q.Rejected? && !q.Closed? ==> CallsBy(w, q) == CallsBy(w, p) && CallOf(e) == []
  {
    hide EndsGroup, Answered, StepsCalls, CallsBy;
    var q := Next(w, p, e);
    NoCallOrAll(w, p);
    NoCallOrAll(w, q);
    if p.Between? {
      BetweenCalls(w, p);
    } else if p.Streaming? {
      AnswerAddsNoCall(w, p.step, e);
    } else if p.Finishing? {
      NoCallsAtAll(w, p);
      NoCallsAtAll(w, Ending(p.step));
    } else if p.Working? && e.ToolResult? {
      SameCalls(w, p, q);
    } else if p.Working? {
      assert |StepCalls(w, p.step)[p.offset + |p.current|..]| == 0;
      BetweenCalls(w, q);
    }
  }

  lemma {:induction false} NextAddsCalls(w: World, p: Phase, e: AgentEvent)
    requires Sound(w, p) && !p.Rejected? && !p.Closed?
    ensures var q := Next(w, p, e);
      !q.Rejected? && !q.Closed? ==> CallsBy(w, q) == CallsBy(w, p) + CallOf(e)
  {
    hide Next, Sound, CallsBy;
    if p.Calling? {
      CallingAddsCall(w, p, e);
    } else if p.Working? && p.groups != [] && !e.ToolResult? {
      WorkingAddsCall(w, p, e);
    } else {
      NextAddsNoCall(w, p, e);
    }
  }

  lemma {:induction false} NoCallsYet(w: World)
    ensures CallsBy(w, Between(1)) == []
  {
  }

  /** The calls in an accepted stream are those of the earlier steps, in order, followed by as many of the current
      step's as its phase says. */
  lemma {:induction false} CallsInOrder(w: World, events: seq<AgentEvent>)
    ensures var p := After(w, Between(1), events);
      !p.Rejected? && !p.Closed? ==> CallsIn(events) == CallsBy(w, p)
  {
    hide Next, Sound, CallsBy;
    if events == [] {
      NoCallsYet(w);
    } else {
      var init, e := events[..|events| - 1], events[|events| - 1];
      var p := After(w, Between(1), init);
      CallsInOrder(w, init);
      if !p.Rejected? && !p.Closed? {
        ResultsFollowCalls(w, init);
        NextAddsCalls(w, p, e);
      } else {
        NothingAfterEnd(w, p, e);
      }
    }
  }

  // ---- the replies, the deltas and the step ends in a stream ----

  function RepliesIn(events: seq<AgentEvent>): seq<Message> {
    if events == [] then []
    else
      var before, last := RepliesIn(events[..|events| - 1]), events[|events| - 1];
      before + if last.AssistantMessage? then [last.message] else []
  }

  function DeltasIn(events: seq<AgentEvent>): seq<AgentEvent> {
    if events == [] then []
    else
      var before, last := DeltasIn(events[..|events| - 1]), events[|events| - 1];
      before + if IsDelta(last) then [last] else []
  }

  function StepEndsIn(events: seq<AgentEvent>): seq<nat> {
    if events == [] then []
    else
      var before, last := StepEndsIn(events[..|events| - 1]), events[|events| - 1];
      before + if last.StepEnd? then [last.step] else []
  }

  /** The deltas of the first `n` steps. */
  function StepsDeltas(w: World, n: nat): seq<AgentEvent> {
    if n == 0 then [] else StepsDeltas(w, n - 1) + w.reply(n).deltas
  }

  /** How many replies, and how many step ends, have been sent by a phase. */
  function Replied(p: Phase): int {
    if p.Streaming? then p.step - 1 else StepOf(p)
  }

  function StepsEnded(p: Phase): int {
    if p.Between? || p.Ending? then StepOf(p) else StepOf(p) - 1
  }

  predicate Inside(p: Phase) {
    if p.Between? then p.next > 0 else StepOf(p) > 0
  }

  lemma {:induction false} AnnouncedReportsNothing(w: World, n: nat, offset: nat, group: Group, announced: nat,
                                                   groups: seq<Group>, e: AgentEvent)
    ensures var q := Announced(w, n, offset, group, announced, groups, e);
      !q.Rejected? ==> e.ToolCalled? && (q.Working? || q.Calling?) && q.step == n
  {
  }

  lemma {:induction false} NextReports(w: World, p: Phase, e: AgentEvent)
    requires Inside(p) && !Next(w, p, e).Rejected? && !Next(w, p, e).Closed?
    ensures var q := Next(w, p, e);
      && Inside(q) && Replied(p) >= 0 && StepsEnded(p) >= 0
      && Replied(q) == Replied(p) + (if e.AssistantMessage? then 1 else 0)
      && (e.AssistantMessage? ==> w.reply(Replied(q)).answer == Success(e.message))
      && StepsEnded(q) == StepsEnded(p) + (if e.StepEnd? then 1 else 0)
      && (e.StepEnd? ==> e.step == StepsEnded(q))
      && StepsEnded(q) <= Replied(q) <= StepOf(q) <= StepsEnded(q) + 1
  {
    hide Announced, EndsGroup, StepGroups;
    if p.Working? && p.groups != [] {
      AnnouncedReportsNothing(w, p.step, p.offset + |p.current|, p.groups[0], 0, p.groups[1..], e);
    } else if p.Calling? {
      AnnouncedReportsNothing(w, p.step, p.offset, p.group, p.announced, p.groups, e);
    }
  }

  /** The deltas of its step a phase still has to send. */
  function DeltasLeft(p: Phase): seq<AgentEvent> {
    if p.Streaming? then p.deltas else []
  }

  lemma {:induction false} NextDeltas(w: World, p: Phase, e: AgentEvent)
    requires Inside(p) && !Next(w, p, e).Rejected?
    ensures var q := Next(w, p, e);
      && (if e.StepStart? then DeltasLeft(p) == [] && DeltasLeft(q) == w.reply(e.step).deltas && !IsDelta(e)
          else DeltasLeft(p) == (if IsDelta(e) then [e] else []) + DeltasLeft(q))
      && (q.Closed? ==> e.Ended?)
  {
    hide Announced, EndsGroup, StepGroups;
    if p.Working? && p.groups != [] {
      AnnouncedReportsNothing(w, p.step, p.offset + |p.current|, p.groups[0], 0, p.groups[1..], e);
    } else if p.Calling? {
      AnnouncedReportsNothing(w, p.step, p.offset, p.group, p.announced, p.groups, e);
    }
  }

  /** The replies are those of the first steps. */
  predicate RepliesOf(w: World, replies: seq<Message>) {
    forall i: nat | i < |replies| :: w.reply(i + 1).answer == Success(replies[i])
  }

  lemma {:induction false} RepliesPush(w: World, replies: seq<Message>, reply: Message)
    requires RepliesOf(w, replies) && w.reply(|replies| + 1).answer == Success(reply)
    ensures RepliesOf(w, replies + [reply])
  {
  }

  lemma {:induction false} NothingReported(w: World)
    ensures Inside(Between(1)) && Replied(Between(1)) == 0 == StepsEnded(Between(1)) == StepOf(Between(1))
    ensures RepliesOf(w, []) && Counted(0) == [] && DeltasLeft(Between(1)) == []
  {
  }

  lemma {:induction false} ReportedBy(w: World, events: seq<AgentEvent>)
    requires !After(w, Between(1), events).Rejected? && !After(w, Between(1), events).Closed?
    ensures var p, replies, ends := After(w, Between(1), events), RepliesIn(events), StepEndsIn(events);
      && Inside(p) && StepsEnded(p) <= Replied(p) <= StepOf(p) <= StepsEnded(p) + 1
      && |replies| == Replied(p) && RepliesOf(w, replies)
      && |ends| == StepsEnded(p) && ends == Counted(|ends|)
  {
    hide Next, Inside, Replied, StepsEnded, StepOf, RepliesOf, Counted;
    if events == [] {
      NothingReported(w);
    } else {
      var init, e := events[..|events| - 1], events[|events| - 1];
      var p := After(w, Between(1), init);
      if p.Rejected? || p.Closed? {
        NothingAfterEnd(w, p, e);
      } else {
        ReportedBy(w, init);
        NextReports(w, p, e);
        if e.AssistantMessage? {
          RepliesPush(w, RepliesIn(init), e.message);
        }
        CountedPush(StepsEnded(p));
        assert RepliesIn(init) + [] == RepliesIn(init) && StepEndsIn(init) + [] == StepEndsIn(init);
      }
    }
  }

  lemma {:induction false} ClosedByEnd(w: World, p: Phase, e: AgentEvent)
    requires Next(w, p, e).Closed?
    ensures e.Ended?
  {
    hide EndsGroup, StepGroups;
  }

  /** In an accepted stream the assistant messages are the replies of the first steps and the step ends are numbered 1,
      2, 3, ...; a step ends after its reply and before the next step starts. */
  lemma {:induction false} RepliesInOrder(w: World, events: seq<AgentEvent>)
    requires !After(w, Between(1), events).Rejected?
    ensures var starts, replies, ends := |Starts(events)|, RepliesIn(events), StepEndsIn(events);
      && |ends| <= |replies| <= starts <= |ends| + 1
      && ends == Counted(|ends|)
      && forall i: nat | i < |replies| :: w.reply(i + 1).answer == Success(replies[i])
  {
    hide Next, Inside, Replied, StepsEnded, StepOf, Counted;
    if After(w, Between(1), events).Closed? {
      var init, e := events[..|events| - 1], events[|events| - 1];
      var p := After(w, Between(1), init);
      if p.Rejected? || p.Closed? {
        NothingAfterEnd(w, p, e);
      } else {
        ClosedByEnd(w, p, e);
        ReportedBy(w, init);
        GrammarOrdersSteps(w, init);
      }
    } else {
      ReportedBy(w, events);
      GrammarOrdersSteps(w, events);
    }
  }

  /** In an accepted stream the deltas are those of the steps started, in order, but for what is still to come of the
      current one's before its answer. */
  lemma {:induction false} DeltasInOrder(w: World, events: seq<AgentEvent>)
    requires !After(w, Between(1), events).Rejected?
    ensures DeltasIn(events) + DeltasLeft(After(w, Between(1), events)) == StepsDeltas(w, |Starts(events)|)
  {
    hide Next, StepOf, Inside, DeltasLeft;
    if events == [] {
      NothingReported(w);
    } else {
      var init, e := events[..|events| - 1], events[|events| - 1];
      var p := After(w, Between(1), init);
      if p.Rejected? || p.Closed? {
        NothingAfterEnd(w, p, e);
      } else {
        DeltasInOrder(w, init);
        ReportedBy(w, init);
        GrammarOrdersSteps(w, init);
        NextDeltas(w, p, e);
        StepOfNext(w, p, e);
      }
    }
  }
}
