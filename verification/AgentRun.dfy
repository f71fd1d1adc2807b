/** The agent's step loop, collecting and streaming. */
module AgentRun {
  import opened Wrappers
  import opened Protocol
  import opened History
  import opened ToolGroups
  import opened AgentModel
  import opened EventGrammar
  import Sequences

  // ---- running one group ----

  method RunGroup(w: World, s: Schedules, step: nat, offset: nat, group: Group)
    returns (messages: seq<Message>, failed: Option<string>)
    requires SchedulesFit(w, s) && GroupCalls(group) != []
    ensures failed == Failing(w, step, offset, GroupCalls(group))
    ensures failed.None? ==> messages == Added(w, step, offset, GroupCalls(group))
  {
    var calls := GroupCalls(group);
    var attempts := AttemptsAt(w, step, offset, |calls|);
    GroupAdds(w, step, offset, calls);
    if |calls| > 1 {
      assert ScheduleFits(w, s, step, offset, |calls|);
      messages, failed := RunParallel(calls, attempts, s(step, offset, |calls|), w.failFast);
      return;
    }
    failed := ToolGroups.Failure(attempts[0]);
    if failed.Some? {
      if w.failFast {
        return [], failed;
      }
      return [ErrorMessage(calls[0], failed.value)], None;
    }
    return attempts[0].messages, None;
  }

  /** A call on its own fails in one way only. */
  lemma {:induction false} SingleFailure(attempts: seq<Attempt>, order: seq<nat>)
    requires |attempts| == 1 && IsSchedule(order, attempts)
    ensures StreamFailure(attempts, order) == ToolGroups.Failure(attempts[0])
  {
    FirstDenialIs(attempts, 0);
    if !attempts[0].Denied? {
      assert 0 in order;
      FirstDenialIs(attempts, 1);
      FirstToFailIs(attempts, order, if ToolGroups.Failure(attempts[0]).Some? then 0 else |order|);
    }
  }

  /** What is sent is what is kept, or part of it when a failure ends the group. */
  method StreamGroup(w: World, s: Schedules, step: nat, offset: nat, group: Group)
    returns (messages: seq<Message>, sent: seq<Message>, failed: Option<string>)
    requires SchedulesFit(w, s) && GroupCalls(group) != []
    ensures failed == GroupStreamFailure(w, s, step, offset, |GroupCalls(group)|)
    ensures failed.None? ==>
      messages == Added(w, step, offset, GroupCalls(group)) && multiset(sent) == multiset(messages)
    ensures failed.Some? ==> multiset(sent) <= multiset(Added(w, step, offset, GroupCalls(group)))
  {
    var calls := GroupCalls(group);
    var attempts := AttemptsAt(w, step, offset, |calls|);
    GroupAdds(w, step, offset, calls);
    assert ScheduleFits(w, s, step, offset, |calls|);
    if |calls| > 1 {
      messages, sent, failed := StreamParallel(calls, attempts, s(step, offset, |calls|), w.failFast);
      return;
    }
    SingleFailure(attempts, s(step, offset, |calls|));
    failed := ToolGroups.Failure(attempts[0]);
    if failed.Some? {
      if w.failFast {
        return [], [], failed;
      }
      messages := [ErrorMessage(calls[0], failed.value)];
      return messages, messages, None;
    }
    return attempts[0].messages, attempts[0].messages, None;
  }

  // ---- running the calls of one step, group by group ----

  /** What is left to do: the messages so far and the remaining groups make up the whole step. */
  ghost predicate Remaining(w: World, step: nat, groups: seq<Group>, messages: seq<Message>, offset: nat,
                            rest: seq<Group>) {
    NoneEmpty(rest) && GroupsAdd(w, step, 0, groups) == messages + GroupsAdd(w, step, offset, rest)
  }

  lemma {:induction false} GroupDone(w: World, step: nat, groups: seq<Group>, messages: seq<Message>, offset: nat,
                                     rest: seq<Group>)
    requires rest != [] && Remaining(w, step, groups, messages, offset, rest)
    ensures var calls := GroupCalls(rest[0]);
      Remaining(w, step, groups, messages + Added(w, step, offset, calls), offset + |calls|, rest[1..])
  {
    var calls := GroupCalls(rest[0]);
    Sequences.Associate(messages, Added(w, step, offset, calls), GroupsAdd(w, step, offset + |calls|, rest[1..]));
  }

  method RunGroups(w: World, s: Schedules, step: nat, groups: seq<Group>)
    returns (messages: seq<Message>, failed: Option<string>)
    requires SchedulesFit(w, s) && NoneEmpty(groups)
    ensures failed == GroupsFail(w, step, 0, groups)
    ensures failed.None? ==> messages == GroupsAdd(w, step, 0, groups)
  {
    hide SchedulesFit, Added, Failing;
    var offset: nat, rest := 0, groups;
    messages, failed := [], None;
    while rest != []
      invariant failed.None? && Remaining(w, step, groups, messages, offset, rest)
      invariant GroupsFail(w, step, 0, groups) == GroupsFail(w, step, offset, rest)
      decreases |rest|
    {
      var added;
      added, failed := RunGroup(w, s, step, offset, rest[0]);
      if failed.Some? {
        return;
      }
      GroupDone(w, step, groups, messages, offset, rest);
      messages := messages + added;
      offset, rest := offset + |GroupCalls(rest[0])|, rest[1..];
    }
  }

  lemma {:induction false} TakeFirst(groups: seq<Group>, done: seq<Group>, rest: seq<Group>)
    requires groups == done + rest && rest != []
    ensures groups == (done + [rest[0]]) + rest[1..] && rest == [rest[0]] + rest[1..]
  {
  }

  /** Groups that are done have sent what they add; the others are still to come. */
  ghost predicate StreamedSoFar(w: World, step: nat, groups: seq<Group>, done: seq<Group>, sent: seq<seq<Message>>,
                                events: seq<AgentEvent>, offset: nat, rest: seq<Group>) {
    && groups == done + rest && |done| == |sent| && Served(w, step, done, sent) && CallCount(done) == offset
    && events == GroupsEvents(done, sent)
  }

  lemma {:induction false} GroupStreamed(w: World, step: nat, groups: seq<Group>, done: seq<Group>,
                                         sent: seq<seq<Message>>, events: seq<AgentEvent>, offset: nat,
                                         rest: seq<Group>, results: seq<Message>)
    requires StreamedSoFar(w, step, groups, done, sent, events, offset, rest) && rest != [] && GroupCalls(rest[0]) != []
    requires multiset(results) == multiset(Added(w, step, offset, GroupCalls(rest[0])))
    ensures StreamedSoFar(w, step, groups, done + [rest[0]], sent + [results], events + GroupEvents(rest[0], results),
                          offset + |GroupCalls(rest[0])|, rest[1..])
  {
    hide Added, Served;
    TakeFirst(groups, done, rest);
    ServedPush(w, step, done, sent, rest[0], results);
    assert (done + [rest[0]])[..|done|] == done && (sent + [results])[..|sent|] == sent;
  }

  /** Where the events of a step's groups leave the stream: nothing is owed and no group left, or a failed call of the
      last group may end the run. */
  ghost predicate GroupsStreamed(w: World, step: nat, groups: seq<Group>, events: seq<AgentEvent>,
                                 failed: Option<string>) {
    var p := After(w, Working(step, 0, [], multiset{}, groups), events);
    && p.Working? && p.step == step
    && (failed.None? ==> p.owed == multiset{} && p.groups == [])
    && (failed.Some? ==> w.failFast && FailedIn(AttemptsAt(w, step, p.offset, |p.current|), failed.value))
  }

  lemma {:induction false} AllStreamed(w: World, step: nat, groups: seq<Group>, done: seq<Group>,
                                       sent: seq<seq<Message>>, events: seq<AgentEvent>, offset: nat)
    requires StreamedSoFar(w, step, groups, done, sent, events, offset, [])
    ensures GroupsStreamed(w, step, groups, events, None)
  {
    hide Next, Served;
    AfterGroups(w, Working(step, 0, [], multiset{}, groups), step, done, sent, []);
  }

  lemma {:induction false} DenialIsOne(attempts: seq<Attempt>)
    requires FirstDenial(attempts).Some?
    ensures FailedIn(attempts, FirstDenial(attempts).value)
  {
    if attempts[0].Denied? {
      assert ToolGroups.Failure(attempts[0]) == FirstDenial(attempts);
    } else {
      DenialIsOne(attempts[1..]);
      var i :| 0 <= i < |attempts| - 1 && ToolGroups.Failure(attempts[1..][i]) == FirstDenial(attempts);
      assert ToolGroups.Failure(attempts[i + 1]) == FirstDenial(attempts);
    }
  }

  /** The tool a streaming group names did fail. */
  lemma {:induction false} NamedFailed(attempts: seq<Attempt>, order: seq<nat>)
    requires IsSchedule(order, attempts) && StreamFailure(attempts, order).Some?
    ensures FailedIn(attempts, StreamFailure(attempts, order).value)
  {
    if FirstDenial(attempts).Some? {
      DenialIsOne(attempts);
    } else {
      var k := FirstFailing(attempts, order);
      FirstToFailIs(attempts, order, k);
      assert ToolGroups.Failure(attempts[order[k]]).Some?;
    }
  }

  lemma {:induction false} FailureStreamed(w: World, s: Schedules, step: nat, groups: seq<Group>, done: seq<Group>,
                                           sent: seq<seq<Message>>, events: seq<AgentEvent>, offset: nat,
                                           rest: seq<Group>, results: seq<Message>)
    requires SchedulesFit(w, s) && StreamedSoFar(w, step, groups, done, sent, events, offset, rest)
    requires rest != [] && GroupCalls(rest[0]) != []
    requires multiset(results) <= multiset(Added(w, step, offset, GroupCalls(rest[0])))
    requires GroupStreamFailure(w, s, step, offset, |GroupCalls(rest[0])|).Some?
    ensures GroupsStreamed(w, step, groups, events + GroupEvents(rest[0], results),
                           GroupStreamFailure(w, s, step, offset, |GroupCalls(rest[0])|))
  {
    hide Next, Served, Added;
    var start, calls := Working(step, 0, [], multiset{}, groups), GroupCalls(rest[0]);
    TakeFirst(groups, done, rest);
    AfterGroups(w, start, step, done, sent, rest);
    AfterGroup(w, start, events, step, offset, rest[0], rest[1..], results);
    assert ScheduleFits(w, s, step, offset, |calls|);
    NamedFailed(AttemptsAt(w, step, offset, |calls|), s(step, offset, |calls|));
  }

  lemma {:induction false} NothingStreamed(w: World, step: nat, groups: seq<Group>)
    ensures StreamedSoFar(w, step, groups, [], [], [], 0, groups)
  {
  }

  /** The same with events: each group's calls as it starts, then its results as they come. */
  method StreamGroups(w: World, s: Schedules, step: nat, groups: seq<Group>)
    returns (messages: seq<Message>, events: seq<AgentEvent>, failed: Option<string>)
    requires SchedulesFit(w, s) && NoneEmpty(groups)
    ensures failed == GroupsStreamFail(w, s, step, 0, groups)
    ensures failed.None? ==> messages == GroupsAdd(w, step, 0, groups)
    ensures GroupsStreamed(w, step, groups, events, failed)
  {
    hide SchedulesFit, Added, GroupStreamFailure, GroupsStreamed, StreamedSoFar, GroupEvents;
    var offset: nat, rest := 0, groups;
    ghost var done, sent: seq<seq<Message>> := [], [];
    messages, events, failed := [], [], None;
    NothingStreamed(w, step, groups);
    while rest != []
      invariant failed.None? && Remaining(w, step, groups, messages, offset, rest)
      invariant GroupsStreamFail(w, s, step, 0, groups) == GroupsStreamFail(w, s, step, offset, rest)
      invariant StreamedSoFar(w, step, groups, done, sent, events, offset, rest)
      decreases |rest|
    {
      var added, results;
      added, results, failed := StreamGroup(w, s, step, offset, rest[0]);
      if failed.Some? {
        FailureStreamed(w, s, step, groups, done, sent, events, offset, rest, results);
        events := events + GroupEvents(rest[0], results);
        return;
      }
      GroupDone(w, step, groups, messages, offset, rest);
      GroupStreamed(w, step, groups, done, sent, events, offset, rest, results);
      done, sent := done + [rest[0]], sent + [results];
      messages, events := messages + added, events + GroupEvents(rest[0], results);
      offset, rest := offset + |GroupCalls(rest[0])|, rest[1..];
    }
    AllStreamed(w, step, groups, done, sent, events, offset);
  }

  // ---- running a step ----

  method PrepareStep(w: World, step: nat, messages: seq<Message>) returns (ready: seq<Message>)
    ensures ready == Ready(w, step, messages)
  {
    var compacted := w.compacted(step, messages);
    var report;
    ready, report := Sanitize(if compacted.Some? then compacted.value else messages);
  }

  method RunStep(w: World, s: Schedules, step: nat, messages: seq<Message>)
    returns (end: StepOutcome, request: seq<Message>)
    requires SchedulesFit(w, s)
    ensures request == Ready(w, step, messages) && end == SequentialStep(w, step, messages)
  {
    hide SchedulesFit;
    request := PrepareStep(w, step, messages);
    var reply := w.reply(step);
    if reply.answer.Failure? {
      return Stop(Aborted(LlmFailed(reply.answer.error))), request;
    }
    var m := reply.answer.value;
    if IsEmptyAssistant(m) {
      return Stop(Aborted(EmptyReply(step))), request;
    }
    if CallsOf(m) == [] {
      return Stop(Finished(step, request + [m], reply.finishReason)), request;
    }
    StepByGroups(w, step);
    var groups := GroupToolCalls(CallsOf(m), w.parallel);
    var added, failed := RunGroups(w, s, step, groups);
    if failed.Some? {
      return Stop(Aborted(ToolFailed(failed.value))), request;
    }
    return Continue(request + [m] + added), request;
  }

  /** Runs to the end, collecting: requests and outcome are those of the sequential run, whatever the completion
      orders. */
  method Run(w: World, s: Schedules, messages: seq<Message>) returns (outcome: Outcome, requests: seq<seq<Message>>)
    requires SchedulesFit(w, s)
    ensures outcome == Sequential(w, 0, messages)
    ensures requests == Requests(w, 0, messages)
  {
    hide SchedulesFit, SequentialStep, StreamedStep, Sequential, Requests, Ready;
    var history, step := messages, 0;
    requests := [];
    assert [] + Requests(w, 0, messages) == Requests(w, 0, messages);
    while step < w.maxSteps
      invariant step <= w.maxSteps
      invariant Sequential(w, 0, messages) == Sequential(w, step, history)
      invariant Requests(w, 0, messages) == requests + Requests(w, step, history)
    {
      var end, request := RunStep(w, s, step + 1, history);
      RunsStep(w, s, step, history, StreamedStep(w, s, step + 1, history), end);
      Sequences.Associate(requests, [request], if end.Stop? then [] else Requests(w, step + 1, end.messages));
      requests, step := requests + [request], step + 1;
      if end.Stop? {
        return end.outcome, requests;
      }
      history := end.messages;
    }
    NoStepLeft(w, s, history);
    return Aborted(StepsExceeded(w.maxSteps)), requests;
  }

  // ---- streaming a step ----

  /** Where the events of a step leave the stream. */
  ghost predicate StreamedTo(w: World, p: Phase, events: seq<AgentEvent>, end: StepOutcome, step: nat) {
    match end
    case Continue(_) => After(w, p, events) == Between(step + 1)
    case Stop(outcome) => After(w, p, events) == Closed && events != [] && events[|events| - 1] == Ended(outcome)
  }

  lemma {:induction false} StreamedLater(w: World, p: Phase, before: seq<AgentEvent>, events: seq<AgentEvent>,
                                         end: StepOutcome, step: nat)
    requires StreamedTo(w, After(w, p, before), events, end, step)
    ensures StreamedTo(w, p, before + events, end, step)
  {
    hide Next;
    AfterConcat(w, p, before, events);
  }

  lemma {:induction false} EndPushed(w: World, p: Phase, events: seq<AgentEvent>, outcome: Outcome, step: nat)
    requires Next(w, After(w, p, events), Ended(outcome)).Closed?
    ensures StreamedTo(w, p, events + [Ended(outcome)], Stop(outcome), step)
  {
    hide Next;
    AfterPush(w, p, events, Ended(outcome));
  }

  lemma {:induction false} OpeningEvents(w: World, n: nat)
    requires n <= w.maxSteps && OnlyDeltas(w)
    ensures After(w, Between(n), [StepStart(n)] + w.reply(n).deltas) == Streaming(n, [])
  {
    var deltas := w.reply(n).deltas;
    AfterConcat(w, Between(n), [StepStart(n)], deltas);
    AfterOne(w, Between(n), StepStart(n));
    AfterDeltas(w, n, deltas, []);
    assert deltas + [] == deltas;
  }

  /** The events of a finished step without calls. */
  lemma {:induction false} FinishingEvents(w: World, n: nat, m: Message, outcome: Outcome)
    requires w.reply(n).answer == Success(m) && !IsEmptyAssistant(m) && CallsOf(m) == []
    requires outcome.Finished? && outcome.steps == n && outcome.finishReason == w.reply(n).finishReason
    ensures StreamedTo(w, Streaming(n, []), [AssistantMessage(m), StepEnd(n), Ended(outcome)], Stop(outcome), n)
  {
    AfterOne(w, Streaming(n, []), AssistantMessage(m));
    AfterPush(w, Streaming(n, []), [AssistantMessage(m)], StepEnd(n));
    assert [AssistantMessage(m)] + [StepEnd(n)] == [AssistantMessage(m), StepEnd(n)];
    EndPushed(w, Streaming(n, []), [AssistantMessage(m), StepEnd(n)], outcome, n);
    assert [AssistantMessage(m), StepEnd(n)] + [Ended(outcome)] == [AssistantMessage(m), StepEnd(n), Ended(outcome)];
  }

  /** The events of a step with calls. */
  lemma {:induction false} WorkingEvents(w: World, n: nat, m: Message, events: seq<AgentEvent>, failed: Option<string>,
                                         end: StepOutcome)
    requires w.reply(n).answer == Success(m) && CallsOf(m) != []
    requires GroupsStreamed(w, n, StepGroups(w, n), events, failed)
    requires if failed.None? then end.Continue? else end == Stop(Aborted(ToolFailed(failed.value)))
    ensures var last := if end.Continue? then StepEnd(n) else Ended(end.outcome);
      StreamedTo(w, Streaming(n, []), [AssistantMessage(m)] + (events + [last]), end, n)
  {
    var last := if end.Continue? then StepEnd(n) else Ended(end.outcome);
    AfterPush(w, Begun(w, n), events, last);
    AfterOne(w, Streaming(n, []), AssistantMessage(m));
    StreamedLater(w, Streaming(n, []), [AssistantMessage(m)], events + [last], end, n);
  }

  method StreamAnswer(w: World, s: Schedules, step: nat, ready: seq<Message>, m: Message)
    returns (end: StepOutcome, events: seq<AgentEvent>)
    requires SchedulesFit(w, s) && w.reply(step).answer == Success(m)
    ensures end == AfterAnswer(w, step, ready, m, GroupsStreamFail(w, s, step, 0, StepGroups(w, step)))
    ensures StreamedTo(w, Streaming(step, []), events, end, step)
  {
    hide SchedulesFit;
    if IsEmptyAssistant(m) {
      end := Stop(Aborted(EmptyReply(step)));
      EndPushed(w, Streaming(step, []), [], end.outcome, step);
      return end, [] + [Ended(end.outcome)];
    }
    if CallsOf(m) == [] {
      end := Stop(Finished(step, ready + [m], w.reply(step).finishReason));
      FinishingEvents(w, step, m, end.outcome);
      return end, [AssistantMessage(m), StepEnd(step), Ended(end.outcome)];
    }
    StepByGroups(w, step);
    var groups := GroupToolCalls(CallsOf(m), w.parallel);
    var added, failed;
    added, events, failed := StreamGroups(w, s, step, groups);
    if failed.Some? {
      end := Stop(Aborted(ToolFailed(failed.value)));
      WorkingEvents(w, step, m, events, failed, end);
      return end, [AssistantMessage(m)] + (events + [Ended(end.outcome)]);
    }
    end := Continue(ready + [m] + added);
    WorkingEvents(w, step, m, events, failed, end);
    return end, [AssistantMessage(m)] + (events + [StepEnd(step)]);
  }

  method StreamStep(w: World, s: Schedules, step: nat, messages: seq<Message>)
    returns (end: StepOutcome, request: seq<Message>, events: seq<AgentEvent>)
    requires Sensible(w, s) && step <= w.maxSteps
    ensures request == Ready(w, step, messages) && end == StreamedStep(w, s, step, messages)
    ensures StreamedTo(w, Between(step), events, end, step)
  {
    hide SchedulesFit;
    request := PrepareStep(w, step, messages);
    var reply := w.reply(step);
    OpeningEvents(w, step);
    events := [StepStart(step)] + reply.deltas;
    if reply.answer.Failure? {
      end := Stop(Aborted(LlmFailed(reply.answer.error)));
      EndPushed(w, Between(step), events, end.outcome, step);
      return end, request, events + [Ended(end.outcome)];
    }
    var answerEvents;
    end, answerEvents := StreamAnswer(w, s, step, request, reply.answer.value);
    StreamedLater(w, Between(step), events, answerEvents, end, step);
    events := events + answerEvents;
  }

  // ---- streaming a run ----

  lemma {:induction false} FitsIfSensible(w: World, s: Schedules)
    requires Sensible(w, s)
    ensures SchedulesFit(w, s)
  {
  }

  lemma {:induction false} EndOfSteps(w: World, events: seq<AgentEvent>)
    requires After(w, Between(1), events) == Between(w.maxSteps + 1)
    ensures After(w, Between(1), events + [Ended(Aborted(StepsExceeded(w.maxSteps)))]) == Closed
  {
    AfterPush(w, Between(1), events, Ended(Aborted(StepsExceeded(w.maxSteps))));
  }

  /** Runs to the end, streaming: the events follow the grammar to its end, requests and outcome are those of the
      sequential run, but for the tool a fail-fast run names. */
  method RunStream(w: World, s: Schedules, messages: seq<Message>)
    returns (outcome: Outcome, requests: seq<seq<Message>>, events: seq<AgentEvent>)
    requires Sensible(w, s)
    ensures outcome == Streamed(w, s, 0, messages)
    ensures requests == Requests(w, 0, messages)
    ensures After(w, Between(1), events) == Closed && events != [] && events[|events| - 1] == Ended(outcome)
  {
    hide Sensible, SchedulesFit, OnlyDeltas, Next, After;
    hide StreamedStep, SequentialStep, Streamed, Sequential, Requests, Ready;
    var history, step := messages, 0;
    requests, events := [], [];
    AfterNothing(w, Between(1));
    assert SchedulesFit(w, s) by {
      FitsIfSensible(w, s);
    }
    assert [] + Requests(w, 0, messages) == Requests(w, 0, messages);
    while step < w.maxSteps
      invariant step <= w.maxSteps
      invariant Streamed(w, s, 0, messages) == Streamed(w, s, step, history)
      invariant Requests(w, 0, messages) == requests + Requests(w, step, history)
      invariant After(w, Between(1), events) == Between(step + 1)
    {
      StepsAlike(w, s, step + 1, history);
      var end, request, stepEvents := StreamStep(w, s, step + 1, history);
      RunsStep(w, s, step, history, end, SequentialStep(w, step + 1, history));
      Sequences.Associate(requests, [request], if end.Stop? then [] else Requests(w, step + 1, end.messages));
      StreamedLater(w, Between(1), events, stepEvents, end, step + 1);
      requests, events, step := requests + [request], events + stepEvents, step + 1;
      if end.Stop? {
        return end.outcome, requests, events;
      }
      history := end.messages;
    }
    NoStepLeft(w, s, history);
    EndOfSteps(w, events);
    outcome := Aborted(StepsExceeded(w.maxSteps));
    events := events + [Ended(outcome)];
  }
}
