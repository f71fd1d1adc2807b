/** Retrying one model call: the policy, and the loop that shares one attempt counter among all kinds of failure. */
module Retry {
  import opened Wrappers
  import opened Protocol

  datatype Kind = NetworkTransient | ServerTransient | RateLimited | EmptyResponse | ClientError | NonRetryable

  datatype Mode = Run | Goal

  datatype Decision = Decision(kind: Kind, retryable: bool, maxAttempts: Option<nat>, delayMs: nat)

  // ---- the policy ----

  predicate Transient(kind: Kind) {
    kind.NetworkTransient? || kind.ServerTransient? || kind.EmptyResponse?
  }

  function MaxAttempts(kind: Kind, mode: Mode): Option<nat> {
    if mode.Goal? && Transient(kind) then None
    else if mode.Goal? && kind.RateLimited? then Some(5)
    else if Transient(kind) then Some(5)
    else if kind.RateLimited? then Some(3)
    else Some(0)
  }

  function Pow2(n: nat): nat {
    if n == 0 then 1 else 2 * Pow2(n - 1)
  }

  function BaseMs(kind: Kind): nat {
    if kind.RateLimited? then 5_000 else 500
  }

  function CapMs(kind: Kind): nat {
    if kind.RateLimited? then 120_000 else 30_000
  }

  function Min(a: nat, b: nat): nat {
    if a < b then a else b
  }

  function Backoff(kind: Kind, attempt: u32): nat {
    var shift := Min(if attempt == 0 then 0 else attempt - 1, 10);
    Min(BaseMs(kind) * Pow2(shift), CapMs(kind)) + attempt * 137 % 250
  }

  function RetryDecision(kind: Kind, mode: Mode, attempt: u32): Decision {
    var max := MaxAttempts(kind, mode);
    Decision(kind, max.None? || (max.value > 0 && attempt < max.value), max, Backoff(kind, attempt))
  }

  /** No delay exceeds the cap of its kind by more than the jitter, whatever the attempt. */
  lemma {:induction false} DelayBounded(kind: Kind, attempt: u32)
    ensures attempt * 137 % 250 <= Backoff(kind, attempt) <= CapMs(kind) + 249
  {
  }

  // ---- one step with retries ----

  /** What one stream call comes to. */
  datatype CallOutcome =
    | Refused(kind: Kind)
    | FailedBeforeOutput(kind: Kind)
    | FailedLater
    | Answered(empty: bool, stopped: bool)

  /** How the wait before the next call ends. */
  datatype Wait = Slept | WokenEarly(afterMs: nat) | CancelledInWait | ReceiverGone

  datatype Turn = Turn(call: CallOutcome, wait: Wait)

  datatype StepResult = Output(emptyResponse: bool) | Failed | Cancelled | Pending

  datatype RetryEvent = RetryEvent(kind: Kind, attempt: u32, maxAttempts: Option<nat>, delayMs: nat)

  datatype Trace = Trace(calls: nat, sleptMs: nat, events: seq<RetryEvent>, result: StepResult)

  /** The failure a call may be retried for: an error before any output, or an empty answer that stopped normally. */
  function RetryKind(call: CallOutcome): Option<Kind> {
    match call
    case Refused(kind) => Some(kind)
    case FailedBeforeOutput(kind) => Some(kind)
    case FailedLater => None
    case Answered(empty, stopped) => if empty && stopped then Some(EmptyResponse) else None
  }

  /** How the step ends if this call is the last. */
  function Conclude(call: CallOutcome): StepResult {
    match call
    case Refused(_) => Failed
    case FailedBeforeOutput(_) => Failed
    case FailedLater => Failed
    case Answered(empty, _) => Output(empty)
  }

  function SatInc(attempt: u32): u32 {
    if attempt < U32_MAX then attempt + 1 else U32_MAX
  }

  /** A turn that ends the step may still announce a retry; one that goes on has waited. */
  datatype Taken = Ends(announced: seq<RetryEvent>, result: StepResult) | GoesOn(event: RetryEvent, waitedMs: nat)

  function Take(mode: Mode, turn: Turn, attempt: u32): Taken {
    var kind := RetryKind(turn.call);
    if kind.None? || !RetryDecision(kind.value, mode, attempt).retryable then Ends([], Conclude(turn.call))
    else
      var d := RetryDecision(kind.value, mode, attempt);
      var event := RetryEvent(d.kind, attempt, d.maxAttempts, d.delayMs);
      match turn.wait
      case ReceiverGone => Ends([], Cancelled)
      case CancelledInWait => Ends([event], Cancelled)
      case Slept => GoesOn(event, d.delayMs)
      case WokenEarly(afterMs) => GoesOn(event, Min(afterMs, d.delayMs))
  }

  /** What was done before a trace, put in front of it. */
  function Preceded(calls: nat, sleptMs: nat, events: seq<RetryEvent>, later: Trace): Trace {
    Trace(calls + later.calls, sleptMs + later.sleptMs, events + later.events, later.result)
  }

  /** The run of a step against scripted turns; it is pending when the script ends before the step does. */
  function Drive(mode: Mode, turns: seq<Turn>, attempt: u32): Trace
    decreases |turns|
  {
    if turns == [] then Trace(0, 0, [], Pending)
    else
      match Take(mode, turns[0], attempt)
      case Ends(announced, result) => Trace(1, 0, announced, result)
      case GoesOn(event, waitedMs) => Preceded(1, waitedMs, [event], Drive(mode, turns[1..], SatInc(attempt)))
  }

  lemma {:induction false} PrecededTwice(calls: nat, sleptMs: nat, events: seq<RetryEvent>, event: RetryEvent,
                                         waitedMs: nat, later: Trace)
    ensures Preceded(calls, sleptMs, events, Preceded(1, waitedMs, [event], later))
         == Preceded(calls + 1, sleptMs + waitedMs, events + [event], later)
  {
    assert events + ([event] + later.events) == (events + [event]) + later.events;
  }

  /** One call, the decision about its failure and the wait before the next. */
  method TakeTurn(mode: Mode, turn: Turn, attempt: u32) returns (taken: Taken)
    ensures taken == Take(mode, turn, attempt)
  {
    var kind := RetryKind(turn.call);
    if kind.None? {
      return Ends([], Conclude(turn.call));
    }
    var decision := RetryDecision(kind.value, mode, attempt);
    if !decision.retryable {
      return Ends([], Conclude(turn.call));
    }
    if turn.wait.ReceiverGone? {
      return Ends([], Cancelled);
    }
    var event := RetryEvent(decision.kind, attempt, decision.maxAttempts, decision.delayMs);
    if turn.wait.CancelledInWait? {
      return Ends([event], Cancelled);
    }
    return GoesOn(event, if turn.wait.Slept? then decision.delayMs else Min(turn.wait.afterMs, decision.delayMs));
  }

  method DriveStepWithRetry(mode: Mode, turns: seq<Turn>) returns (trace: Trace)
    ensures trace == Drive(mode, turns, 1)
  {
    var attempt: u32 := 1;
    var calls: nat, sleptMs: nat, events: seq<RetryEvent> := 0, 0, [];
    var rest := turns;
    while rest != []
      invariant Drive(mode, turns, 1) == Preceded(calls, sleptMs, events, Drive(mode, rest, attempt))
      decreases |rest|
    {
      var taken := TakeTurn(mode, rest[0], attempt);
      if taken.Ends? {
        return Preceded(calls, sleptMs, events, Trace(1, 0, taken.announced, taken.result));
      }
      PrecededTwice(calls, sleptMs, events, taken.event, taken.waitedMs, Drive(mode, rest[1..], SatInc(attempt)));
      calls, sleptMs, events := calls + 1, sleptMs + taken.waitedMs, events + [taken.event];
      attempt := SatInc(attempt);
      rest := rest[1..];
    }
    return Preceded(calls, sleptMs, events, Trace(0, 0, [], Pending));
  }

  // ---- what every run of a step satisfies ----

  /** In run mode, what the waits from an attempt on can add up to: a rate limit is worth most while it is retried. */
  function WorstCaseMs(attempt: nat): nat
    decreases 5 - attempt
  {
    if attempt >= 5 then 0
    else
      var delay := if attempt < 3 then Backoff(RateLimited, attempt) else Backoff(NetworkTransient, attempt);
      delay + WorstCaseMs(attempt + 1)
  }

  lemma {:induction false} DelayTable()
    ensures Backoff(RateLimited, 1) == 5_137 && Backoff(RateLimited, 2) == 10_024
    ensures forall kind: Kind | !kind.RateLimited? ::
      Backoff(kind, 1) == 637 && Backoff(kind, 2) == 1_024 && Backoff(kind, 3) == 2_161 && Backoff(kind, 4) == 4_048
    ensures WorstCaseMs(1) == 21_370
  {
    assert Pow2(0) == 1 && Pow2(1) == 2 && Pow2(2) == 4 && Pow2(3) == 8;
    assert WorstCaseMs(5) == 0;
    assert WorstCaseMs(4) == 4_048;
    assert WorstCaseMs(3) == 6_209;
    assert WorstCaseMs(2) == 16_233;
  }

  lemma {:induction false} OneDelay(kind: Kind, attempt: u32)
    requires 1 <= attempt && RetryDecision(kind, Run, attempt).retryable
    ensures attempt < 5 && Backoff(kind, attempt) + WorstCaseMs(attempt + 1) <= WorstCaseMs(attempt)
  {
    DelayTable();
    assert attempt in {1, 2, 3, 4};
  }

  lemma {:induction false} RunModeFrom(turns: seq<Turn>, attempt: u32)
    requires 1 <= attempt <= 5
    ensures var t := Drive(Run, turns, attempt);
      && t.calls + attempt <= 6
      && t.sleptMs <= WorstCaseMs(attempt)
      && (t.result == Pending ==> |turns| + attempt <= 5)
    decreases |turns|
  {
    hide WorstCaseMs, RetryKind;
    if turns != [] {
      var kind := RetryKind(turns[0].call);
      if kind.Some? && RetryDecision(kind.value, Run, attempt).retryable {
        OneDelay(kind.value, attempt);
        RunModeFrom(turns[1..], attempt + 1);
      }
    }
  }

  /** In run mode a step makes at most five calls and sleeps at most 21,370 ms, however the failures mix; five turns
      always end it. */
  lemma {:induction false} RunModeBounded(turns: seq<Turn>)
    ensures var t := Drive(Run, turns, 1);
      t.calls <= 5 && t.sleptMs <= 21_370 && (|turns| >= 5 ==> t.result != Pending)
  {
    RunModeFrom(turns, 1);
    DelayTable();
  }

  /** The bounds are met: two rate limits, then transient failures. */
  lemma {:induction false} RunModeBoundAttained()
    ensures var limited, dropped := Turn(Refused(RateLimited), Slept), Turn(Refused(NetworkTransient), Slept);
      var t := Drive(Run, [limited, limited, dropped, dropped, dropped], 1);
      t.calls == 5 && t.sleptMs == 21_370 && t.result == Failed
  {
    var limited, dropped := Turn(Refused(RateLimited), Slept), Turn(Refused(NetworkTransient), Slept);
    DelayTable();
    assert [limited, limited, dropped, dropped, dropped][1..] == [limited, dropped, dropped, dropped];
    assert [limited, dropped, dropped, dropped][1..] == [dropped, dropped, dropped];
    assert [dropped, dropped, dropped][1..] == [dropped, dropped];
    assert [dropped, dropped][1..] == [dropped];
    assert Drive(Run, [dropped], 5) == Trace(1, 0, [], Failed);
    assert Drive(Run, [dropped, dropped], 4).calls == 2 && Drive(Run, [dropped, dropped], 4).sleptMs == 4_048;
    assert Drive(Run, [dropped, dropped, dropped], 3).calls == 3
        && Drive(Run, [dropped, dropped, dropped], 3).sleptMs == 6_209;
    assert Drive(Run, [limited, dropped, dropped, dropped], 2).calls == 4
        && Drive(Run, [limited, dropped, dropped, dropped], 2).sleptMs == 16_233;
  }

  /** The attempt counter is shared: the n-th retry event carries number n, whatever failed before. */
  lemma {:induction false} AttemptsConsecutive(mode: Mode, turns: seq<Turn>, attempt: u32)
    requires attempt + |turns| <= U32_MAX
    ensures var events := Drive(mode, turns, attempt).events;
      |events| <= |turns| && forall i | 0 <= i < |events| :: events[i].attempt == attempt + i
    decreases |turns|
  {
    if turns != [] {
      AttemptsConsecutive(mode, turns[1..], attempt + 1);
    }
  }

  // ---- exactly when a step ends ----

  /** Whether a call failed in a way a retry may follow: before any output, or with an empty answer that stopped
      normally. */
  predicate FailedAs(call: CallOutcome, kind: Kind) {
    match call
    case Refused(refusal) => kind == refusal
    case FailedBeforeOutput(failure) => kind == failure
    case FailedLater => false
    case Answered(empty, stopped) => empty && stopped && kind == EmptyResponse
  }

  /** Whether a failure is retried at an attempt, stated outright. */
  predicate Retried(kind: Kind, mode: Mode, attempt: nat) {
    match kind
    case NetworkTransient => mode.Goal? || attempt < 5
    case ServerTransient => mode.Goal? || attempt < 5
    case EmptyResponse => mode.Goal? || attempt < 5
    case RateLimited => attempt < if mode.Goal? then 5 else 3
    case ClientError => false
    case NonRetryable => false
  }

  /** Whether the n-th call is one after which the step asks for another. */
  predicate AsksAgain(mode: Mode, call: CallOutcome, n: nat) {
    match call
    case Refused(kind) => Retried(kind, mode, n)
    case FailedBeforeOutput(kind) => Retried(kind, mode, n)
    case FailedLater => false
    case Answered(empty, stopped) => empty && stopped && Retried(EmptyResponse, mode, n)
  }

  /** Whether the n-th call of a step and the wait after it end the step. */
  predicate EndsStep(mode: Mode, turn: Turn, n: nat) {
    !AsksAgain(mode, turn.call, n) || turn.wait.CancelledInWait? || turn.wait.ReceiverGone?
  }

  predicate FirstToEnd(mode: Mode, turns: seq<Turn>, attempt: nat, n: nat)
    requires n < |turns|
  {
    EndsStep(mode, turns[n], attempt + n) && NoneEnds(mode, turns, attempt, n)
  }

  function ResultAt(mode: Mode, turn: Turn, n: nat): StepResult {
    if AsksAgain(mode, turn.call, n) then Cancelled
    else if turn.call.Answered? then Output(turn.call.empty)
    else Failed
  }

  lemma {:induction false} TakeEnds(mode: Mode, turn: Turn, attempt: u32, n: nat)
    requires n >= 1 && attempt == Min(n, U32_MAX)
    ensures Take(mode, turn, attempt).Ends? <==> EndsStep(mode, turn, n)
    ensures Take(mode, turn, attempt).Ends? ==> Take(mode, turn, attempt).result == ResultAt(mode, turn, n)
  {
  }

  /** None of the first `n` turns ends the step. */
  predicate NoneEnds(mode: Mode, turns: seq<Turn>, attempt: nat, n: nat)
    requires n <= |turns|
  {
    forall j | 0 <= j < n :: !EndsStep(mode, turns[j], attempt + j)
  }

  lemma {:induction false} NoneEndsLater(mode: Mode, turns: seq<Turn>, attempt: nat, n: nat)
    requires n < |turns| && !EndsStep(mode, turns[0], attempt) && NoneEnds(mode, turns[1..], attempt + 1, n)
    ensures NoneEnds(mode, turns, attempt, n + 1)
  {
    hide EndsStep;
    forall j | 0 <= j < n + 1 ensures !EndsStep(mode, turns[j], attempt + j) {
      if j > 0 {
        assert !EndsStep(mode, turns[1..][j - 1], attempt + 1 + (j - 1));
      }
    }
  }

  /** One turn of a run: it ends with the turn, or goes on with the rest. */
  lemma {:induction false} DriveTurn(mode: Mode, turns: seq<Turn>, attempt: u32)
    ensures turns == [] ==> Drive(mode, turns, attempt).calls == 0 && Drive(mode, turns, attempt).result == Pending
    ensures turns != [] ==>
      var t, taken := Drive(mode, turns, attempt), Take(mode, turns[0], attempt);
      var rest := Drive(mode, turns[1..], SatInc(attempt));
      && t.calls == (if taken.Ends? then 1 else 1 + rest.calls)
      && t.result == (if taken.Ends? then taken.result else rest.result)
  {
    hide Take;
  }

  lemma {:induction false} EndIsNotPending(mode: Mode, turn: Turn, n: nat)
    ensures ResultAt(mode, turn, n) != Pending
  {
  }

  lemma {:induction false} EndsFrom(mode: Mode, turns: seq<Turn>, attempt: u32, first: nat)
    requires first >= 1 && attempt == Min(first, U32_MAX)
    ensures var t := Drive(mode, turns, attempt);
      && t.calls <= |turns|
      && (t.result == Pending ==> t.calls == |turns| && NoneEnds(mode, turns, first, |turns|))
      && (t.result != Pending ==>
            t.calls > 0 && FirstToEnd(mode, turns, first, t.calls - 1)
            && t.result == ResultAt(mode, turns[t.calls - 1], first + t.calls - 1))
    decreases |turns|
  {
    hide Take, EndsStep, ResultAt, Drive;
    DriveTurn(mode, turns, attempt);
    if turns != [] {
      TakeEnds(mode, turns[0], attempt, first);
      EndIsNotPending(mode, turns[0], first);
      if Take(mode, turns[0], attempt).GoesOn? {
        EndsFrom(mode, turns[1..], SatInc(attempt), first + 1);
        var t := Drive(mode, turns[1..], SatInc(attempt));
        NoneEndsLater(mode, turns, first, if t.result == Pending then t.calls else t.calls - 1);
      }
    }
  }

  /** A step ends at its n-th call if and only if that is the first whose failure is not retried at that number of
      calls, whatever the failures before were, or whose wait is cancelled or loses its receiver. */
  lemma {:induction false} StepEndsIff(mode: Mode, turns: seq<Turn>, n: nat)
    requires n < |turns|
    ensures var t := Drive(mode, turns, 1);
      && ((t.result != Pending && t.calls == n + 1) <==> FirstToEnd(mode, turns, 1, n))
      && (FirstToEnd(mode, turns, 1, n) ==> t.result == ResultAt(mode, turns[n], n + 1))
  {
    hide EndsStep;
    EndsFrom(mode, turns, 1, 1);
  }

  /** A network or server failure that may pass, or an empty answer. */
  predicate FailedInPassing(call: CallOutcome) {
    FailedAs(call, NetworkTransient) || FailedAs(call, ServerTransient) || FailedAs(call, EmptyResponse)
  }

  /** In goal mode nothing bounds the retries of transient failures, however they mix. */
  lemma {:induction false} GoalModeUnbounded(turns: seq<Turn>, attempt: u32)
    requires forall j | 0 <= j < |turns| ::
      FailedInPassing(turns[j].call) && (turns[j].wait.Slept? || turns[j].wait.WokenEarly?)
    ensures var t := Drive(Goal, turns, attempt);
      t.calls == |turns| == |t.events| && t.result == Pending
    decreases |turns|
  {
    if turns != [] {
      GoalModeUnbounded(turns[1..], SatInc(attempt));
    }
  }

  /** Four failures of other kinds use up what goal mode allows a rate limit: the first one then ends the step. */
  lemma {:induction false} GoalModeRateLimitShared(turns: seq<Turn>)
    requires |turns| > 4 && FailedAs(turns[4].call, RateLimited)
    requires forall j | 0 <= j < 4 :: FailedInPassing(turns[j].call) && turns[j].wait.Slept?
    ensures Drive(Goal, turns, 1).calls == 5 && Drive(Goal, turns, 1).result == Failed
  {
    StepEndsIff(Goal, turns, 4);
  }

  // ---- what a step reports, and how long it waits ----

  /** The delay without its jitter starts at its base and doubles up to its cap. */
  lemma {:induction false} DelayDoubles(kind: Kind, attempt: u32)
    requires 1 <= attempt < U32_MAX
    ensures var cap, first := if kind.RateLimited? then 120_000 else 30_000, if kind.RateLimited? then 5_000 else 500;
      && Backoff(kind, 1) == first + 137
      && Backoff(kind, attempt + 1) - (attempt + 1) * 137 % 250
         == Min(2 * (Backoff(kind, attempt) - attempt * 137 % 250), cap)
  {
    assert Pow2(0) == 1 && Pow2(10) == 1024;
    assert attempt <= 10 ==> Pow2(attempt) == 2 * Pow2(attempt - 1);
    hide Pow2;
  }

  /** What the announcement of a retry says of the call it follows. */
  predicate Announces(event: RetryEvent, mode: Mode, turn: Turn, n: nat) {
    && FailedAs(turn.call, event.kind)
    && event.attempt == Min(n, U32_MAX)
    && event.maxAttempts == (if event.kind.RateLimited? then Some(if mode.Goal? then 5 else 3)
                             else if mode.Goal? then None else Some(5))
    && event.delayMs == Backoff(event.kind, Min(n, U32_MAX))
  }

  /** How long the waits after the first `n` calls were, each cut short by a wake-up. */
  function Waited(turns: seq<Turn>, events: seq<RetryEvent>, n: nat): nat
    requires n <= |turns| && n <= |events|
  {
    if n == 0 then 0
    else
      var wait, delay := turns[n - 1].wait, events[n - 1].delayMs;
      Waited(turns, events, n - 1) + if wait.WokenEarly? && wait.afterMs < delay then wait.afterMs else delay
  }

  lemma {:induction false} WaitedLater(turns: seq<Turn>, event: RetryEvent, events: seq<RetryEvent>, n: nat)
    requires n < |turns| && n <= |events|
    ensures Waited(turns, [event] + events, n + 1)
         == Waited(turns, [event] + events, 1) + Waited(turns[1..], events, n)
  {
    if n > 0 {
      WaitedLater(turns, event, events, n - 1);
      assert ([event] + events)[n] == events[n - 1];
    }
  }

  /** What a taken turn announces and waits. */
  lemma {:induction false} TakeAnnounces(mode: Mode, turn: Turn, attempt: u32, n: nat)
    requires n >= 1 && attempt == Min(n, U32_MAX)
    ensures var taken := Take(mode, turn, attempt);
      && (taken.GoesOn? ==> Announces(taken.event, mode, turn, n) && taken.waitedMs == Waited([turn], [taken.event], 1))
      && (taken.Ends? ==>
            taken.announced == [] || (|taken.announced| == 1 && Announces(taken.announced[0], mode, turn, n)))
      && (taken.Ends? ==> (taken.announced != [] <==> AsksAgain(mode, turn.call, n) && turn.wait.CancelledInWait?))
  {
    hide Backoff;
    assert Waited([turn], [RetryEvent(EmptyResponse, 0, None, 0)], 0) == 0;
  }

  /** What a run of a step announced and waited, its first call being the `first`-th of the step: one event after each
      call that another one follows, one more when the last wait is cancelled, and no wait that was not announced. */
  predicate Accounted(mode: Mode, turns: seq<Turn>, first: nat, t: Trace) {
    var gone := if t.result == Pending || t.calls == 0 then t.calls else t.calls - 1;
    && t.calls <= |turns|
    && |t.events| == (if gone < t.calls && AsksAgain(mode, turns[gone].call, first + gone)
                         && turns[gone].wait.CancelledInWait? then t.calls else gone)
    && (forall i | 0 <= i < |t.events| :: Announces(t.events[i], mode, turns[i], first + i))
    && t.sleptMs == Waited(turns, t.events, gone)
  }

  lemma {:induction false} AccountedLater(mode: Mode, turns: seq<Turn>, first: nat, event: RetryEvent, waitedMs: nat,
                                          t: Trace)
    requires turns != [] && Accounted(mode, turns[1..], first + 1, t) && (t.result == Pending || t.calls > 0)
    requires Announces(event, mode, turns[0], first) && waitedMs == Waited([turns[0]], [event], 1)
    ensures Accounted(mode, turns, first, Preceded(1, waitedMs, [event], t))
  {
    hide Announces, AsksAgain;
    var gone := if t.result == Pending then t.calls else t.calls - 1;
    WaitedLater(turns, event, t.events, gone);
    assert Waited([turns[0]], [event], 0) == 0 && Waited(turns, [event] + t.events, 0) == 0;
    forall i | 0 <= i < |t.events| + 1
      ensures Announces(([event] + t.events)[i], mode, turns[i], first + i)
    {
      if i > 0 {
        assert Announces(t.events[i - 1], mode, turns[1..][i - 1], first + 1 + (i - 1));
      }
    }
  }

  lemma {:induction false} AccountedFrom(mode: Mode, turns: seq<Turn>, attempt: u32, first: nat)
    requires first >= 1 && attempt == Min(first, U32_MAX)
    ensures Accounted(mode, turns, first, Drive(mode, turns, attempt))
    decreases |turns|
  {
    hide Take, Announces, AsksAgain, ResultAt, EndsStep;
    if turns != [] {
      TakeAnnounces(mode, turns[0], attempt, first);
      var taken := Take(mode, turns[0], attempt);
      if taken.GoesOn? {
        var rest := Drive(mode, turns[1..], SatInc(attempt));
        AccountedFrom(mode, turns[1..], SatInc(attempt), first + 1);
        EndsFrom(mode, turns[1..], SatInc(attempt), first + 1);
        AccountedLater(mode, turns, first, taken.event, taken.waitedMs, rest);
      } else {
        TakeEnds(mode, turns[0], attempt, first);
        EndIsNotPending(mode, turns[0], first);
      }
    }
  }

  /** Every step announces its retries with the kind, number, limit and delay of the call they follow, and sleeps for
      those delays, cut short where it was woken. */
  lemma {:induction false} StepAccounted(mode: Mode, turns: seq<Turn>)
    ensures Accounted(mode, turns, 1, Drive(mode, turns, 1))
  {
    AccountedFrom(mode, turns, 1, 1);
  }
}
