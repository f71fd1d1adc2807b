/** What the requests of a run hold, and how it ends, in terms of the replies and of what the tools did. */
module RunHistory {
  import opened Wrappers
  import opened Protocol
  import opened History
  import opened HistoryConservation
  import opened ToolGroups
  import opened AgentModel

  // ---- one step ----

  function Asked(m: Message): seq<ToolCall> {
    if m.Assistant? then m.toolCalls else []
  }

  /** The messages the tool calls of a step leave, in call order; a failed call leaves its error. */
  function ResultsOf(w: World, step: nat, calls: seq<ToolCall>): seq<Message> {
    if calls == [] then []
    else
      var last := |calls| - 1;
      ResultsOf(w, step, calls[..last]) +
      match w.attempt(step, last)
      case Denied(reason) => [Tool(calls[last].id, "error: " + reason)]
      case Errored(error) => [Tool(calls[last].id, "error: " + error)]
      case Produced(messages) => messages
  }

  function ErrorAt(w: World, step: nat, i: nat): Option<string> {
    match w.attempt(step, i)
    case Denied(reason) => Some(reason)
    case Errored(error) => Some(error)
    case Produced(_) => None
  }

  ghost predicate AllSucceed(w: World, step: nat, n: nat) {
    forall i: nat | i < n :: ErrorAt(w, step, i).None?
  }

  /** The model made tool calls, and none of them ends the run. */
  ghost predicate GoesOn(w: World, step: nat) {
    var answer := w.reply(step).answer;
    answer.Success? && Asked(answer.value) != [] && (w.failFast ==> AllSucceed(w, step, |Asked(answer.value)|))
  }

  /** A history as it is sent to the model: compacted if the handler says so, then repaired. */
  function Prepared(w: World, step: nat, messages: seq<Message>): seq<Message> {
    match w.compacted(step, messages)
    case Some(compacted) => Repair(compacted).messages
    case None => Repair(messages).messages
  }

  /** What a step hands to the next one: its request, the reply and the results of its calls. */
  function HandedOn(w: World, step: nat, request: seq<Message>): seq<Message> {
    match w.reply(step).answer
    case Failure(_) => request
    case Success(m) => request + [m] + ResultsOf(w, step, Asked(m))
  }

  /** How a run ends at a step that does not go on. */
  ghost predicate EndsAs(w: World, step: nat, request: seq<Message>, outcome: Outcome) {
    match w.reply(step).answer
    case Failure(reason) => outcome == Aborted(LlmFailed(reason))
    case Success(m) =>
      if SaysNothing(m) then outcome == Aborted(EmptyReply(step))
      else if Asked(m) == [] then outcome == Finished(step, request + [m], w.reply(step).finishReason)
      else
        exists i: nat | i < |Asked(m)| && FailsFirstAt(w, step, i) ::
          outcome == Aborted(ToolFailed(ErrorAt(w, step, i).value))
  }

  ghost predicate FailsFirstAt(w: World, step: nat, i: nat) {
    ErrorAt(w, step, i).Some? && AllSucceed(w, step, i)
  }

  lemma {:induction false} SettledSpelt(w: World, step: nat, calls: seq<ToolCall>, last: nat)
    requires last < |calls|
    ensures Settled(calls[last], w.attempt(step, last))
         == match w.attempt(step, last)
            case Denied(reason) => [Tool(calls[last].id, "error: " + reason)]
            case Errored(error) => [Tool(calls[last].id, "error: " + error)]
            case Produced(messages) => messages
  {
  }

  lemma {:induction false} AddedLast(w: World, step: nat, calls: seq<ToolCall>)
    requires calls != []
    ensures var last := |calls| - 1;
      Added(w, step, 0, calls) == Added(w, step, 0, calls[..last]) + Settled(calls[last], w.attempt(step, last))
  {
    var last := |calls| - 1;
    assert calls == calls[..last] + [calls[last]];
    SplitAdded(w, step, 0, calls[..last], [calls[last]]);
    assert [calls[last]][1..] == [];
    assert Added(w, step, last, [calls[last]]) == Settled(calls[last], w.attempt(step, last)) + [];
  }

  lemma {:induction false} AddedIsResults(w: World, step: nat, calls: seq<ToolCall>)
    ensures Added(w, step, 0, calls) == ResultsOf(w, step, calls)
  {
    if calls != [] {
      hide Settled, Added;
      AddedIsResults(w, step, calls[..|calls| - 1]);
      AddedLast(w, step, calls);
      SettledSpelt(w, step, calls, |calls| - 1);
    } else {
      assert Added(w, step, 0, []) == [];
    }
  }

  lemma {:induction false} FailingIsFirst(w: World, step: nat, offset: nat, calls: seq<ToolCall>)
    requires w.failFast
    ensures Failing(w, step, offset, calls).None? <==>
      forall i: nat | offset <= i < offset + |calls| :: ErrorAt(w, step, i).None?
    ensures Failing(w, step, offset, calls).Some? ==>
      exists i: nat :: offset <= i < offset + |calls| && ErrorAt(w, step, i) == Failing(w, step, offset, calls)
        && forall j: nat | offset <= j < i :: ErrorAt(w, step, j).None?
    decreases |calls|
  {
    if calls != [] {
      assert ToolGroups.Failure(w.attempt(step, offset)) == ErrorAt(w, step, offset);
      if ErrorAt(w, step, offset).None? {
        FailingIsFirst(w, step, offset + 1, calls[1..]);
      }
    }
  }

  /** A step hands on its request, the reply and the results, or ends the run. */
  lemma {:induction false} StepHandsOn(w: World, step: nat, messages: seq<Message>)
    ensures var end, request := SequentialStep(w, step, messages), Prepared(w, step, messages);
      if GoesOn(w, step) then end == Continue(HandedOn(w, step, request))
      else end.Stop? && EndsAs(w, step, request, end.outcome)
  {
    var answer := w.reply(step).answer;
    if answer.Success? {
      hide Repair, Added, ResultsOf;
      var calls := Asked(answer.value);
      assert StepCalls(w, step) == calls;
      AddedIsResults(w, step, calls);
      if w.failFast {
        FailingIsFirst(w, step, 0, calls);
      }
    }
  }

  // ---- the requests of a run ----

  /** Each request but the first is what the step before it handed on, prepared. */
  ghost predicate Chained(w: World, step: nat, requests: seq<seq<Message>>) {
    forall k: nat | k + 1 < |requests| :: Linked(w, step, requests, k)
  }

  ghost predicate Linked(w: World, step: nat, requests: seq<seq<Message>>, k: nat)
    requires k + 1 < |requests|
  {
    && GoesOn(w, step + k + 1)
    && requests[k + 1] == Prepared(w, step + k + 2, HandedOn(w, step + k + 1, requests[k]))
  }

  /** The run ended at its last request, or because no step was left. */
  ghost predicate Ended(w: World, step: nat, requests: seq<seq<Message>>, outcome: Outcome) {
    var n := |requests|;
    if n > 0 && !GoesOn(w, step + n) then EndsAs(w, step + n, requests[n - 1], outcome)
    else step + n >= w.maxSteps && outcome == Aborted(StepsExceeded(w.maxSteps))
  }

  lemma {:induction false} ChainedPush(w: World, step: nat, first: seq<Message>, requests: seq<seq<Message>>)
    requires Chained(w, step + 1, requests)
    requires requests != [] ==>
      GoesOn(w, step + 1) && requests[0] == Prepared(w, step + 2, HandedOn(w, step + 1, first))
    ensures Chained(w, step, [first] + requests)
  {
    hide GoesOn, Prepared, HandedOn;
    var all := [first] + requests;
    forall k: nat | k + 1 < |all| ensures Linked(w, step, all, k) {
      if k > 0 {
        assert Linked(w, step + 1, requests, k - 1);
      }
    }
  }

  lemma {:induction false} NothingChained(w: World, step: nat)
    ensures Chained(w, step, [])
  {
  }

  lemma {:induction false} NotChained(w: World, step: nat, request: seq<Message>)
    ensures Chained(w, step, [request])
  {
  }

  lemma {:induction false} RunOn(w: World, step: nat, request: seq<Message>, next: seq<Message>)
    requires step < w.maxSteps && GoesOn(w, step + 1) && next == HandedOn(w, step + 1, request)
    requires var requests := Requests(w, step + 1, next);
      && (step + 1 < w.maxSteps ==> requests != [] && requests[0] == Prepared(w, step + 2, next))
      && Chained(w, step + 1, requests) && Ended(w, step + 1, requests, Sequential(w, step + 1, next))
    ensures var requests := [request] + Requests(w, step + 1, next);
      Chained(w, step, requests) && Ended(w, step, requests, Sequential(w, step + 1, next))
  {
    hide EndsAs, HandedOn, GoesOn, Prepared, SequentialStep, Chained;
    var requests := Requests(w, step + 1, next);
    ChainedPush(w, step, request, requests);
    if requests != [] {
      assert ([request] + requests)[|requests|] == requests[|requests| - 1];
    }
  }

  lemma {:induction false} RunFrom(w: World, step: nat, messages: seq<Message>)
    requires step <= w.maxSteps
    ensures var requests := Requests(w, step, messages);
      && (step < w.maxSteps ==> requests != [] && requests[0] == Prepared(w, step + 1, messages))
      && Chained(w, step, requests) && Ended(w, step, requests, Sequential(w, step, messages))
    decreases w.maxSteps - step
  {
    if step < w.maxSteps {
      hide GoesOn, EndsAs, HandedOn, Chained;
      var request, end := Ready(w, step + 1, messages), SequentialStep(w, step + 1, messages);
      StepHandsOn(w, step + 1, messages);
      assert request == Prepared(w, step + 1, messages);
      if end.Continue? {
        RunFrom(w, step + 1, end.messages);
        RunOn(w, step, request, end.messages);
      } else {
        NotChained(w, step, request);
        assert [request] + [] == [request];
      }
    } else {
      NothingChained(w, step);
    }
  }

  /** Every run: the first request is the prepared history, each later one is the prepared result of the request, the
      reply and the tool results before it, and the run ends as its last reply says. */
  lemma {:induction false} RunIsChained(w: World, messages: seq<Message>)
    ensures var requests := Requests(w, 0, messages);
      && (w.maxSteps > 0 ==> requests != [] && requests[0] == Prepared(w, 1, messages))
      && Chained(w, 0, requests) && Ended(w, 0, requests, Sequential(w, 0, messages))
  {
    RunFrom(w, 0, messages);
  }

  // ---- a run that nothing interferes with ----

  /** Every call that succeeds leaves exactly one result, its own. */
  ghost predicate OwnResults(w: World) {
    forall step, i: nat | i < |StepCalls(w, step)| && w.attempt(step, i).Produced? ::
      exists output :: w.attempt(step, i).messages == [Tool(StepCalls(w, step)[i].id, output)]
  }

  lemma {:induction false} ResultsAreOwn(w: World, step: nat, calls: seq<ToolCall>)
    requires OwnResults(w) && calls <= StepCalls(w, step)
    ensures ResultsMatch(calls, ResultsOf(w, step, calls))
  {
    if calls != [] {
      var last := |calls| - 1;
      ResultsAreOwn(w, step, calls[..last]);
      assert StepCalls(w, step)[last] == calls[last];
      assert CallIds(calls) == CallIds(calls[..last]) + [calls[last].id];
    }
  }

  lemma {:induction false} WellFormedConcat(a: seq<Message>, b: seq<Message>)
    requires WellFormed(a) && WellFormed(b)
    ensures WellFormed(a + b)
    decreases |a|
  {
    if a == [] {
      assert a + b == b;
    } else {
      var n := if HasCalls(a[0]) then |a[0].toolCalls| + 1 else 1;
      WellFormedConcat(a[n..], b);
      assert (a + b)[0] == a[0] && (a + b)[n..] == a[n..] + b && (a + b)[1..n] == a[1..n];
    }
  }

  lemma {:induction false} HandedOnWellFormed(w: World, step: nat, request: seq<Message>)
    requires OwnResults(w) && GoesOn(w, step) && WellFormed(request)
    ensures WellFormed(HandedOn(w, step, request))
  {
    var m := w.reply(step).answer.value;
    var results := ResultsOf(w, step, Asked(m));
    assert Asked(m) == StepCalls(w, step);
    ResultsAreOwn(w, step, Asked(m));
    assert results + [] + [] == results;
    GroupWellFormed(m, results, [], []);
    assert [m] + results + [] + [] == [m] + results;
    WellFormedConcat(request, [m] + results);
    assert request + ([m] + results) == request + [m] + results;
  }

  /** Without compaction, from a well-formed history and with one result per call, nothing is ever changed: the first
      request is the history, and each later one is the one before it, the reply and its results in call order. */
  lemma {:induction false} RunAppends(w: World, messages: seq<Message>, k: nat)
    requires OwnResults(w) && WellFormed(messages) && (forall step, h :: w.compacted(step, h).None?)
    requires k < |Requests(w, 0, messages)|
    ensures var requests := Requests(w, 0, messages);
      && WellFormed(requests[k])
      && requests[k] == if k == 0 then messages else HandedOn(w, k, requests[k - 1])
    ensures k > 0 ==> GoesOn(w, k)
  {
    var requests := Requests(w, 0, messages);
    RunIsChained(w, messages);
    if k == 0 {
      WellFormedUntouched(messages);
    } else {
      RunAppends(w, messages, k - 1);
      assert Linked(w, 0, requests, k - 1);
      HandedOnWellFormed(w, k, requests[k - 1]);
      WellFormedUntouched(HandedOn(w, k, requests[k - 1]));
    }
  }
}
