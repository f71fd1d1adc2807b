/** What an agent run comes to: the sequential reference, and how a streaming run names the tool that ended it. */
module AgentModel {
  import opened Wrappers
  import opened Protocol
  import opened History
  import opened ToolGroups
  import Sequences

  datatype RunError =
    | LlmFailed(reason: string)
    | EmptyReply(step: nat)
    | ToolFailed(tool: string)
    | StepsExceeded(max: nat)

  datatype Outcome =
    | Finished(steps: nat, messages: seq<Message>, finishReason: Option<string>)
    | Aborted(error: RunError)

  datatype AgentEvent =
    | StepStart(step: nat)
    | StepEnd(step: nat)
    | LlmRetry
    | AssistantDelta(text: string)
    | AssistantThinkingDelta(text: string)
    | AssistantMessage(message: Message)
    | ToolCalled(call: ToolCall)
    | ToolResult(message: Message)
    | Ended(outcome: Outcome)

  predicate IsDelta(e: AgentEvent) {
    e.LlmRetry? || e.AssistantDelta? || e.AssistantThinkingDelta?
  }

  /** What the model does in one step: retries and deltas, then an error or a reply. */
  datatype Reply = Reply(deltas: seq<AgentEvent>, answer: Result<Message, string>, finishReason: Option<string>)

  /** Everything the loop cannot decide itself: replies, tool outcomes, compaction, the policy. */
  datatype World = World(
    maxSteps: nat,
    failFast: bool,
    parallel: string -> bool,
    compacted: (nat, seq<Message>) -> Option<seq<Message>>,
    reply: nat -> Reply,
    attempt: (nat, nat) -> Attempt)

  /** In which order calls that run together finish: `count` of them, from the `offset`-th call of a step on. */
  type Schedules = (nat, nat, nat) -> seq<nat>

  function CallsOf(m: Message): seq<ToolCall> {
    if m.Assistant? then m.toolCalls else []
  }

  function StepCalls(w: World, step: nat): seq<ToolCall> {
    var answer := w.reply(step).answer;
    if answer.Success? then CallsOf(answer.value) else []
  }

  /** What becomes of the calls of a step from the `offset`-th on. */
  function AttemptsAt(w: World, step: nat, offset: nat, count: nat): seq<Attempt> {
    seq(count, i requires 0 <= i < count => w.attempt(step, offset + i))
  }

  ghost predicate OnlyDeltas(w: World) {
    forall step, i | 0 <= i < |w.reply(step).deltas| :: IsDelta(w.reply(step).deltas[i])
  }

  ghost predicate ScheduleFits(w: World, s: Schedules, step: nat, offset: nat, count: nat) {
    IsSchedule(s(step, offset, count), AttemptsAt(w, step, offset, count))
  }

  ghost predicate SchedulesFit(w: World, s: Schedules) {
    forall step, offset, count :: ScheduleFits(w, s, step, offset, count)
  }

  /** Deltas really are deltas, and calls that run together finish in some order, each once. */
  ghost predicate Sensible(w: World, s: Schedules) {
    OnlyDeltas(w) && SchedulesFit(w, s)
  }

  // ---- what a run comes to, without any parallelism ----

  /** The history a step sends to the model: compacted if need be, and sanitized. */
  function Ready(w: World, step: nat, messages: seq<Message>): seq<Message> {
    var compacted := w.compacted(step, messages);
    Repair(if compacted.Some? then compacted.value else messages).messages
  }

  /** A step either leaves a history for the next one or decides the outcome. */
  datatype StepOutcome = Continue(messages: seq<Message>) | Stop(outcome: Outcome)

  /** The messages that calls from the `offset`-th of a step on add. */
  function Added(w: World, step: nat, offset: nat, calls: seq<ToolCall>): seq<Message>
    decreases |calls|
  {
    if calls == [] then [] else Settled(calls[0], w.attempt(step, offset)) + Added(w, step, offset + 1, calls[1..])
  }

  /** The first of them whose failure ends the run. */
  function Failing(w: World, step: nat, offset: nat, calls: seq<ToolCall>): Option<string>
    decreases |calls|
  {
    if !w.failFast || calls == [] then None
    else if ToolGroups.Failure(w.attempt(step, offset)).Some? then ToolGroups.Failure(w.attempt(step, offset))
    else Failing(w, step, offset + 1, calls[1..])
  }

  /** What an assistant message leads to, given the failure its calls end the run with, if any. */
  function AfterAnswer(w: World, step: nat, ready: seq<Message>, m: Message, failing: Option<string>): StepOutcome {
    if IsEmptyAssistant(m) then Stop(Aborted(EmptyReply(step)))
    else if CallsOf(m) == [] then Stop(Finished(step, ready + [m], w.reply(step).finishReason))
    else if failing.Some? then Stop(Aborted(ToolFailed(failing.value)))
    else Continue(ready + [m] + Added(w, step, 0, CallsOf(m)))
  }

  function AfterReply(w: World, step: nat, messages: seq<Message>, failing: Option<string>): StepOutcome {
    match w.reply(step).answer
    case Failure(reason) => Stop(Aborted(LlmFailed(reason)))
    case Success(m) => AfterAnswer(w, step, Ready(w, step, messages), m, failing)
  }

  /** A step in which every call runs after the one before it; errors become messages or, in fail-fast mode, the first
      one ends the run. */
  function SequentialStep(w: World, step: nat, messages: seq<Message>): StepOutcome {
    AfterReply(w, step, messages, Failing(w, step, 0, StepCalls(w, step)))
  }

  /** A whole run of such steps, after `step` of them. */
  function Sequential(w: World, step: nat, messages: seq<Message>): Outcome
    decreases w.maxSteps - step
  {
    if step >= w.maxSteps then Aborted(StepsExceeded(w.maxSteps))
    else
      match SequentialStep(w, step + 1, messages)
      case Stop(outcome) => outcome
      case Continue(next) => Sequential(w, step + 1, next)
  }

  /** The requests such a run sends to the model. */
  function Requests(w: World, step: nat, messages: seq<Message>): seq<seq<Message>>
    decreases w.maxSteps - step
  {
    if step >= w.maxSteps then []
    else
      [Ready(w, step + 1, messages)] +
      match SequentialStep(w, step + 1, messages)
      case Stop(_) => []
      case Continue(next) => Requests(w, step + 1, next)
  }

  /** Every request of a run is well formed, and there are at most as many as steps. */
  lemma {:induction false} RequestsWellFormed(w: World, step: nat, messages: seq<Message>)
    requires step <= w.maxSteps
    ensures |Requests(w, step, messages)| <= w.maxSteps - step
    ensures forall i | 0 <= i < |Requests(w, step, messages)| :: WellFormed(Requests(w, step, messages)[i])
    decreases w.maxSteps - step
  {
    if step < w.maxSteps {
      var compacted := w.compacted(step + 1, messages);
      RepairIsWellFormed(if compacted.Some? then compacted.value else messages);
      var end := SequentialStep(w, step + 1, messages);
      if end.Continue? {
        RequestsWellFormed(w, step + 1, end.messages);
      }
    }
  }

  // ---- call by call and group by group ----

  ghost predicate NoneEmpty(groups: seq<Group>) {
    forall i | 0 <= i < |groups| :: GroupCalls(groups[i]) != []
  }

  function GroupsAdd(w: World, step: nat, offset: nat, groups: seq<Group>): seq<Message>
    decreases |groups|
  {
    if groups == [] then []
    else
      Added(w, step, offset, GroupCalls(groups[0])) + GroupsAdd(w, step, offset + |GroupCalls(groups[0])|, groups[1..])
  }

  function GroupsFail(w: World, step: nat, offset: nat, groups: seq<Group>): Option<string>
    decreases |groups|
  {
    if groups == [] then None
    else
      var failing := Failing(w, step, offset, GroupCalls(groups[0]));
      if failing.Some? then failing else GroupsFail(w, step, offset + |GroupCalls(groups[0])|, groups[1..])
  }

  lemma {:induction false} SplitAdded(w: World, step: nat, offset: nat, a: seq<ToolCall>, b: seq<ToolCall>)
    ensures Added(w, step, offset, a + b) == Added(w, step, offset, a) + Added(w, step, offset + |a|, b)
    decreases |a|
  {
    if a == [] {
      assert a + b == b;
    } else {
      hide Settled;
      var rest := a[1..];
      SplitAdded(w, step, offset + 1, rest, b);
      assert (a + b)[0] == a[0] && (a + b)[1..] == rest + b;
      Sequences.Associate(Settled(a[0], w.attempt(step, offset)), Added(w, step, offset + 1, rest),
                          Added(w, step, offset + |a|, b));
    }
  }

  lemma {:induction false} SplitFailing(w: World, step: nat, offset: nat, a: seq<ToolCall>, b: seq<ToolCall>)
    ensures var failing := Failing(w, step, offset, a);
      Failing(w, step, offset, a + b) == if failing.Some? then failing else Failing(w, step, offset + |a|, b)
    decreases |a|
  {
    if a == [] {
      assert a + b == b;
    } else {
      SplitFailing(w, step, offset + 1, a[1..], b);
      assert (a + b)[0] == a[0] && (a + b)[1..] == a[1..] + b;
    }
  }

  lemma {:induction false} GroupwiseIsCallwise(w: World, step: nat, offset: nat, groups: seq<Group>)
    ensures GroupsAdd(w, step, offset, groups) == Added(w, step, offset, Ungrouped(groups))
    ensures GroupsFail(w, step, offset, groups) == Failing(w, step, offset, Ungrouped(groups))
    decreases |groups|
  {
    if groups != [] {
      var calls := GroupCalls(groups[0]);
      GroupwiseIsCallwise(w, step, offset + |calls|, groups[1..]);
      SplitAdded(w, step, offset, calls, Ungrouped(groups[1..]));
      SplitFailing(w, step, offset, calls, Ungrouped(groups[1..]));
    }
  }

  function StepGroups(w: World, step: nat): seq<Group> {
    Groups(StepCalls(w, step), w.parallel)
  }

  lemma {:induction false} StepByGroups(w: World, step: nat)
    ensures var calls, groups := StepCalls(w, step), StepGroups(w, step);
      && NoneEmpty(groups) && Ungrouped(groups) == calls
      && GroupsAdd(w, step, 0, groups) == Added(w, step, 0, calls)
      && GroupsFail(w, step, 0, groups) == Failing(w, step, 0, calls)
  {
    GroupingExact(StepCalls(w, step), w.parallel);
    GroupingKeepsCalls(StepCalls(w, step), w.parallel);
    GroupwiseIsCallwise(w, step, 0, StepGroups(w, step));
  }

  lemma {:induction false} SettledAlone(call: ToolCall, attempt: Attempt)
    ensures InCallOrder([call], [attempt]) == Settled(call, attempt)
  {
    assert [call] == [] + [call] && [attempt] == [] + [attempt];
    InCallOrderLast([], [], call, attempt);
  }

  lemma {:induction false} AttemptsLength(w: World, step: nat, offset: nat, n: nat)
    ensures |AttemptsAt(w, step, offset, n)| == n
  {
  }

  lemma {:induction false} NothingAttempted(w: World, step: nat, offset: nat)
    ensures InCallOrder([], AttemptsAt(w, step, offset, 0)) == [] && FirstFailure(AttemptsAt(w, step, offset, 0)).None?
  {
  }

  lemma {:induction false} AttemptsFirst(w: World, step: nat, offset: nat, n: nat)
    ensures AttemptsAt(w, step, offset, n + 1) == [w.attempt(step, offset)] + AttemptsAt(w, step, offset + 1, n)
  {
  }

  lemma {:induction false} FirstFailureFirst(first: Attempt, rest: seq<Attempt>)
    ensures FirstFailure([first] + rest)
         == if ToolGroups.Failure(first).Some? then ToolGroups.Failure(first) else FirstFailure(rest)
  {
    assert ([first] + rest)[1..] == rest;
  }

  /** Added and Failing, in terms of what a group's parallel run promises. */
  lemma {:induction false} GroupAdds(w: World, step: nat, offset: nat, calls: seq<ToolCall>)
    ensures var attempts := AttemptsAt(w, step, offset, |calls|);
      && Added(w, step, offset, calls) == InCallOrder(calls, attempts)
      && Failing(w, step, offset, calls) == if w.failFast then FirstFailure(attempts) else None
    decreases |calls|
  {
    hide AttemptsAt, InCallOrder, FirstFailure, Settled;
    if calls == [] {
      NothingAttempted(w, step, offset);
    } else {
      var first, rest := w.attempt(step, offset), AttemptsAt(w, step, offset + 1, |calls| - 1);
      GroupAdds(w, step, offset + 1, calls[1..]);
      AttemptsFirst(w, step, offset, |calls| - 1);
      FirstFailureFirst(first, rest);
      AttemptsLength(w, step, offset + 1, |calls| - 1);
      assert calls == [calls[0]] + calls[1..];
      InCallOrderConcat([calls[0]], [first], calls[1..], rest);
      SettledAlone(calls[0], first);
    }
  }

  // ---- the streaming run: the same, but for the tool a failure names ----

  /** The failure a streaming group ends the run with: its first denial, else its first task to fail. */
  function GroupStreamFailure(w: World, s: Schedules, step: nat, offset: nat, count: nat): Option<string> {
    if w.failFast then StreamFailure(AttemptsAt(w, step, offset, count), s(step, offset, count)) else None
  }

  function GroupsStreamFail(w: World, s: Schedules, step: nat, offset: nat, groups: seq<Group>): Option<string>
    decreases |groups|
  {
    if groups == [] then None
    else
      var count := |GroupCalls(groups[0])|;
      var failing := GroupStreamFailure(w, s, step, offset, count);
      if failing.Some? then failing else GroupsStreamFail(w, s, step, offset + count, groups[1..])
  }

  function StreamedStep(w: World, s: Schedules, step: nat, messages: seq<Message>): StepOutcome {
    AfterReply(w, step, messages, GroupsStreamFail(w, s, step, 0, StepGroups(w, step)))
  }

  function Streamed(w: World, s: Schedules, step: nat, messages: seq<Message>): Outcome
    decreases w.maxSteps - step
  {
    if step >= w.maxSteps then Aborted(StepsExceeded(w.maxSteps))
    else
      match StreamedStep(w, s, step + 1, messages)
      case Stop(outcome) => outcome
      case Continue(next) => Streamed(w, s, step + 1, next)
  }

  lemma {:induction false} GroupFailsAlike(w: World, s: Schedules, step: nat, offset: nat, calls: seq<ToolCall>)
    requires SchedulesFit(w, s)
    ensures GroupStreamFailure(w, s, step, offset, |calls|).Some? <==> Failing(w, step, offset, calls).Some?
  {
    assert ScheduleFits(w, s, step, offset, |calls|);
    GroupAdds(w, step, offset, calls);
    FailsAlike(AttemptsAt(w, step, offset, |calls|), s(step, offset, |calls|));
  }

  lemma {:induction false} GroupsFailAlike(w: World, s: Schedules, step: nat, offset: nat, groups: seq<Group>)
    requires SchedulesFit(w, s)
    ensures GroupsStreamFail(w, s, step, offset, groups).Some? <==> GroupsFail(w, step, offset, groups).Some?
    decreases |groups|
  {
    if groups != [] {
      var calls := GroupCalls(groups[0]);
      GroupFailsAlike(w, s, step, offset, calls);
      GroupsFailAlike(w, s, step, offset + |calls|, groups[1..]);
    }
  }

  lemma {:induction false} StepsAlike(w: World, s: Schedules, step: nat, messages: seq<Message>)
    requires SchedulesFit(w, s)
    ensures var a, b := StreamedStep(w, s, step, messages), SequentialStep(w, step, messages);
      a == b || (w.failFast && a.Stop? && b.Stop? && SameOutcome(a.outcome, b.outcome))
  {
    StepByGroups(w, step);
    GroupsFailAlike(w, s, step, 0, StepGroups(w, step));
  }

  /** Equal, but for which of several failed tools a fail-fast run names. */
  ghost predicate SameOutcome(a: Outcome, b: Outcome) {
    a == b || (a.Aborted? && b.Aborted? && a.error.ToolFailed? && b.error.ToolFailed?)
  }

  /** A streaming run comes to what the sequential one does, but for the tool a fail-fast run names. */
  lemma {:induction false} StreamedAlike(w: World, s: Schedules, step: nat, messages: seq<Message>)
    requires SchedulesFit(w, s)
    ensures SameOutcome(Streamed(w, s, step, messages), Sequential(w, step, messages))
    ensures !w.failFast ==> Streamed(w, s, step, messages) == Sequential(w, step, messages)
    decreases w.maxSteps - step
  {
    if step < w.maxSteps {
      StepsAlike(w, s, step + 1, messages);
      var end := SequentialStep(w, step + 1, messages);
      if end.Continue? {
        StreamedAlike(w, s, step + 1, end.messages);
      }
    }
  }

  // ---- when both runs name the same tool ----

  /** In the group whose failure ends the run, if there is one, both forms name the same tool. */
  ghost predicate GroupsSettled(w: World, step: nat, offset: nat, groups: seq<Group>)
    decreases |groups|
  {
    groups == [] ||
    var calls := GroupCalls(groups[0]);
    if Failing(w, step, offset, calls).Some? then NamesAgree(AttemptsAt(w, step, offset, |calls|))
    else GroupsSettled(w, step, offset + |calls|, groups[1..])
  }

  ghost predicate NamesSettled(w: World, step: nat, messages: seq<Message>)
    decreases w.maxSteps - step
  {
    step >= w.maxSteps ||
    match SequentialStep(w, step + 1, messages)
    case Continue(next) => NamesSettled(w, step + 1, next)
    case Stop(_) => GroupsSettled(w, step + 1, 0, StepGroups(w, step + 1))
  }

  ghost predicate AgreesUnder(w: World, s: Schedules, messages: seq<Message>) {
    SchedulesFit(w, s) ==> Streamed(w, s, 0, messages) == Sequential(w, 0, messages)
  }

  lemma {:induction false} SettledGroupsAgree(w: World, s: Schedules, step: nat, offset: nat, groups: seq<Group>)
    requires SchedulesFit(w, s) && GroupsSettled(w, step, offset, groups)
    ensures GroupsStreamFail(w, s, step, offset, groups) == GroupsFail(w, step, offset, groups)
    decreases |groups|
  {
    if groups != [] {
      var calls := GroupCalls(groups[0]);
      GroupFailsAlike(w, s, step, offset, calls);
      if Failing(w, step, offset, calls).Some? {
        assert ScheduleFits(w, s, step, offset, |calls|);
        GroupAdds(w, step, offset, calls);
        AgreeingNames(AttemptsAt(w, step, offset, |calls|), s(step, offset, |calls|));
      } else {
        SettledGroupsAgree(w, s, step, offset + |calls|, groups[1..]);
      }
    }
  }

  lemma {:induction false} SettledStepAgrees(w: World, s: Schedules, step: nat, messages: seq<Message>)
    requires SchedulesFit(w, s) && GroupsSettled(w, step, 0, StepGroups(w, step))
    ensures StreamedStep(w, s, step, messages) == SequentialStep(w, step, messages)
  {
    StepByGroups(w, step);
    SettledGroupsAgree(w, s, step, 0, StepGroups(w, step));
  }

  /** One step of both runs. */
  lemma {:induction false} RunsStep(w: World, s: Schedules, step: nat, messages: seq<Message>, a: StepOutcome,
                                    b: StepOutcome)
    requires step < w.maxSteps
    requires a == StreamedStep(w, s, step + 1, messages) && b == SequentialStep(w, step + 1, messages)
    ensures Streamed(w, s, step, messages) == if a.Stop? then a.outcome else Streamed(w, s, step + 1, a.messages)
    ensures Sequential(w, step, messages) == if b.Stop? then b.outcome else Sequential(w, step + 1, b.messages)
    ensures Requests(w, step, messages)
         == [Ready(w, step + 1, messages)] + (if b.Stop? then [] else Requests(w, step + 1, b.messages))
    ensures NamesSettled(w, step, messages)
         == if b.Stop? then GroupsSettled(w, step + 1, 0, StepGroups(w, step + 1))
            else NamesSettled(w, step + 1, b.messages)
  {
  }

  lemma {:induction false} NoStepLeft(w: World, s: Schedules, messages: seq<Message>)
    ensures Streamed(w, s, w.maxSteps, messages) == Aborted(StepsExceeded(w.maxSteps))
    ensures Sequential(w, w.maxSteps, messages) == Aborted(StepsExceeded(w.maxSteps))
    ensures Requests(w, w.maxSteps, messages) == []
  {
  }

  lemma {:induction false} SettledRunsAgree(w: World, s: Schedules, step: nat, messages: seq<Message>)
    requires SchedulesFit(w, s) && NamesSettled(w, step, messages)
    ensures Streamed(w, s, step, messages) == Sequential(w, step, messages)
    decreases w.maxSteps - step
  {
    hide SequentialStep, StreamedStep, StepGroups, SchedulesFit;
    if step < w.maxSteps {
      var a, b := StreamedStep(w, s, step + 1, messages), SequentialStep(w, step + 1, messages);
      RunsStep(w, s, step, messages, a, b);
      if b.Continue? {
        StepsAlike(w, s, step + 1, messages);
        SettledRunsAgree(w, s, step + 1, b.messages);
      } else {
        SettledStepAgrees(w, s, step + 1, messages);
      }
    }
  }

  /** In-order completion everywhere, but for one group. */
  function AllBut(w: World, step: nat, offset: nat, count: nat, order: seq<nat>): Schedules {
    (st: nat, o: nat, c: nat) =>
      if st == step && o == offset && c == count then order else Running(AttemptsAt(w, st, o, c), 0)
  }

  lemma {:induction false} AllButFits(w: World, step: nat, offset: nat, count: nat, order: seq<nat>)
    requires IsSchedule(order, AttemptsAt(w, step, offset, count))
    ensures SchedulesFit(w, AllBut(w, step, offset, count, order))
  {
    forall st, o, c ensures ScheduleFits(w, AllBut(w, step, offset, count, order), st, o, c) {
      ScheduleExists(AttemptsAt(w, st, o, c));
    }
  }

  lemma {:induction false} UnsettledGroups(w: World, step: nat, offset: nat, groups: seq<Group>) returns (s: Schedules)
    requires !GroupsSettled(w, step, offset, groups)
    ensures SchedulesFit(w, s)
    ensures GroupsStreamFail(w, s, step, offset, groups).Some? && GroupsFail(w, step, offset, groups).Some?
    ensures GroupsStreamFail(w, s, step, offset, groups) != GroupsFail(w, step, offset, groups)
    decreases |groups|
  {
    var calls := GroupCalls(groups[0]);
    if Failing(w, step, offset, calls).Some? {
      var attempts := AttemptsAt(w, step, offset, |calls|);
      var order := DisagreeingOrder(attempts);
      s := AllBut(w, step, offset, |calls|, order);
      AllButFits(w, step, offset, |calls|, order);
      GroupAdds(w, step, offset, calls);
      GroupFailsAlike(w, s, step, offset, calls);
    } else {
      s := UnsettledGroups(w, step, offset + |calls|, groups[1..]);
      GroupFailsAlike(w, s, step, offset, calls);
    }
  }

  lemma {:induction false} UnsettledStep(w: World, step: nat, messages: seq<Message>) returns (s: Schedules)
    requires !GroupsSettled(w, step, 0, StepGroups(w, step))
    ensures SchedulesFit(w, s) && StreamedStep(w, s, step, messages).Stop? && SequentialStep(w, step, messages).Stop?
    ensures StreamedStep(w, s, step, messages).outcome != SequentialStep(w, step, messages).outcome
  {
    s := UnsettledGroups(w, step, 0, StepGroups(w, step));
    StepByGroups(w, step);
  }

  lemma {:induction false} UnsettledRun(w: World, step: nat, messages: seq<Message>) returns (s: Schedules)
    requires !NamesSettled(w, step, messages)
    ensures SchedulesFit(w, s) && Streamed(w, s, step, messages) != Sequential(w, step, messages)
    decreases w.maxSteps - step
  {
    hide SequentialStep, StreamedStep, StepGroups, SchedulesFit, Sequential, Streamed;
    var b := SequentialStep(w, step + 1, messages);
    if b.Continue? {
      s := UnsettledRun(w, step + 1, b.messages);
      StepsAlike(w, s, step + 1, messages);
    } else {
      s := UnsettledStep(w, step + 1, messages);
    }
    RunsStep(w, s, step, messages, StreamedStep(w, s, step + 1, messages), b);
  }

  /** Streaming and collecting come to the same outcome whatever the completion orders if and only if, in the group
      whose failure ends the run, the first denial is the first failure, or nothing is denied and all failing tools give
      the same error. */
  lemma {:induction false} OutcomesAgreeIff(w: World, messages: seq<Message>)
    ensures (forall s :: AgreesUnder(w, s, messages)) <==> NamesSettled(w, 0, messages)
  {
    if NamesSettled(w, 0, messages) {
      forall s ensures AgreesUnder(w, s, messages) {
        if SchedulesFit(w, s) {
          SettledRunsAgree(w, s, 0, messages);
        }
      }
    } else {
      var s := UnsettledRun(w, 0, messages);
      assert !AgreesUnder(w, s, messages);
    }
  }
}
