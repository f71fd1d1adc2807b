/** Running the tool calls of one step: grouping, parallel execution, and the messages and events that result. */
module ToolGroups {
  import opened Wrappers
  import opened Protocol
  import Sequences

  datatype Group = Exclusive(call: ToolCall) | Parallel(calls: seq<ToolCall>)

  /** What becomes of one call: the policy denies it, or the tool runs and produces messages or an error. */
  datatype Attempt = Denied(denial: string) | Produced(messages: seq<Message>) | Errored(error: string)

  // ---- grouping ----

  /** Calls at the front that may run in parallel. */
  function ParallelRun(calls: seq<ToolCall>, parallel: string -> bool): (n: nat)
    ensures n <= |calls|
    ensures n < |calls| ==> !parallel(calls[n].name)
    ensures forall i | 0 <= i < n :: parallel(calls[i].name)
  {
    if calls == [] || !parallel(calls[0].name) then 0 else 1 + ParallelRun(calls[1..], parallel)
  }

  /** Length of the first group: a run of parallel calls, or one exclusive call. */
  function FirstGroupLength(calls: seq<ToolCall>, parallel: string -> bool): (k: nat)
    requires calls != []
    ensures 0 < k <= |calls|
  {
    var n := ParallelRun(calls, parallel);
    if n > 0 then n else 1
  }

  function MakeGroup(calls: seq<ToolCall>, parallel: string -> bool): Group
    requires calls != []
  {
    if parallel(calls[0].name) then Parallel(calls) else Exclusive(calls[0])
  }

  function Groups(calls: seq<ToolCall>, parallel: string -> bool): (groups: seq<Group>)
    ensures calls == [] <==> groups == []
    decreases |calls|
  {
    if calls == [] then []
    else
      var k := FirstGroupLength(calls, parallel);
      [MakeGroup(calls[..k], parallel)] + Groups(calls[k..], parallel)
  }

  function GroupCalls(g: Group): seq<ToolCall> {
    match g
    case Exclusive(call) => [call]
    case Parallel(calls) => calls
  }

  function Ungrouped(groups: seq<Group>): seq<ToolCall> {
    if groups == [] then [] else GroupCalls(groups[0]) + Ungrouped(groups[1..])
  }

  /** Grouping keeps every call in order; a parallel group is never empty, holds only parallel calls and is as long as
      it can be. */
  ghost predicate Grouped(groups: seq<Group>, parallel: string -> bool) {
    && (forall i | 0 <= i < |groups| :: GroupCalls(groups[i]) != [])
    && (forall i, j | 0 <= i < |groups| && groups[i].Parallel? && 0 <= j < |groups[i].calls| ::
          parallel(groups[i].calls[j].name))
    && (forall i | 0 <= i < |groups| && groups[i].Exclusive? :: !parallel(groups[i].call.name))
    && (forall i | 0 <= i < |groups| - 1 :: groups[i].Exclusive? || groups[i + 1].Exclusive?)
  }

  lemma {:induction false} FirstGroup(calls: seq<ToolCall>, parallel: string -> bool) returns (k: nat)
    requires calls != []
    ensures 0 < k <= |calls| && Groups(calls, parallel) != []
    ensures GroupCalls(Groups(calls, parallel)[0]) == calls[..k]
    ensures Groups(calls, parallel)[1..] == Groups(calls[k..], parallel)
  {
    k := FirstGroupLength(calls, parallel);
    assert calls[..k][0] == calls[0];
  }

  lemma {:induction false} UngroupedFirst(groups: seq<Group>, calls: seq<ToolCall>, k: nat)
    requires k <= |calls| && groups != [] && GroupCalls(groups[0]) == calls[..k] && Ungrouped(groups[1..]) == calls[k..]
    ensures Ungrouped(groups) == calls
  {
  }

  lemma {:induction false} GroupingKeepsCalls(calls: seq<ToolCall>, parallel: string -> bool)
    ensures Ungrouped(Groups(calls, parallel)) == calls
    decreases |calls|
  {
    if calls != [] {
      hide Groups, Ungrouped;
      var k := FirstGroup(calls, parallel);
      GroupingKeepsCalls(calls[k..], parallel);
      UngroupedFirst(Groups(calls, parallel), calls, k);
    }
  }

  lemma {:induction false} NextGroupKind(calls: seq<ToolCall>, parallel: string -> bool)
    requires calls != []
    ensures Groups(calls, parallel)[0].Parallel? <==> parallel(calls[0].name)
  {
    assert calls[..FirstGroupLength(calls, parallel)][0] == calls[0];
  }

  lemma {:induction false} GroupedPush(first: Group, rest: seq<Group>, parallel: string -> bool)
    requires Grouped(rest, parallel) && GroupCalls(first) != []
    requires first.Parallel? ==> forall j | 0 <= j < |first.calls| :: parallel(first.calls[j].name)
    requires first.Exclusive? ==> !parallel(first.call.name)
    requires first.Parallel? && rest != [] ==> rest[0].Exclusive?
    ensures Grouped([first] + rest, parallel)
  {
    var groups := [first] + rest;
    assert forall i | 0 < i < |groups| :: groups[i] == rest[i - 1];
  }

  lemma {:induction false} GroupingExact(calls: seq<ToolCall>, parallel: string -> bool)
    ensures Grouped(Groups(calls, parallel), parallel)
    decreases |calls|
  {
    if calls != [] {
      var k := FirstGroupLength(calls, parallel);
      var first, rest := MakeGroup(calls[..k], parallel), Groups(calls[k..], parallel);
      GroupingExact(calls[k..], parallel);
      if k < |calls| {
        NextGroupKind(calls[k..], parallel);
      }
      GroupedPush(first, rest, parallel);
    }
  }

  lemma {:induction false} ParallelRunIs(calls: seq<ToolCall>, n: nat, parallel: string -> bool)
    requires n <= |calls| && (forall i | 0 <= i < n :: parallel(calls[i].name))
    requires n < |calls| ==> !parallel(calls[n].name)
    ensures ParallelRun(calls, parallel) == n
  {
  }

  /** Takes the first group off the calls. */
  method TakeGroup(calls: seq<ToolCall>, parallel: string -> bool) returns (group: Group, rest: seq<ToolCall>)
    requires calls != []
    ensures var k := FirstGroupLength(calls, parallel);
      group == MakeGroup(calls[..k], parallel) && rest == calls[k..]
  {
    if parallel(calls[0].name) {
      var idx := 1;
      while idx < |calls| && parallel(calls[idx].name)
        invariant 0 < idx <= |calls| && forall i | 0 <= i < idx :: parallel(calls[i].name)
      {
        idx := idx + 1;
      }
      ParallelRunIs(calls, idx, parallel);
      return Parallel(calls[..idx]), calls[idx..];
    }
    return Exclusive(calls[0]), calls[1..];
  }

  method GroupToolCalls(calls: seq<ToolCall>, parallel: string -> bool) returns (out: seq<Group>)
    ensures out == Groups(calls, parallel)
  {
    out := [];
    var rest := calls;
    while rest != []
      invariant Groups(calls, parallel) == out + Groups(rest, parallel)
      decreases |rest|
    {
      var group, later := TakeGroup(rest, parallel);
      Sequences.Associate(out, [group], Groups(later, parallel));
      out, rest := out + [group], later;
    }
  }

  // ---- what the calls of a step come to, in call order ----

  function ErrorMessage(call: ToolCall, error: string): Message {
    Tool(call.id, "error: " + error)
  }

  /** The messages one call adds to the history when errors are reported as messages. */
  function Settled(call: ToolCall, attempt: Attempt): seq<Message> {
    match attempt
    case Denied(denial) => [ErrorMessage(call, denial)]
    case Errored(error) => [ErrorMessage(call, error)]
    case Produced(messages) => messages
  }

  function Failure(attempt: Attempt): Option<string> {
    match attempt
    case Denied(denial) => Some(denial)
    case Errored(error) => Some(error)
    case Produced(_) => None
  }

  /** The first failure in call order. */
  function FirstFailure(attempts: seq<Attempt>): Option<string> {
    if attempts == [] then None
    else if Failure(attempts[0]).Some? then Failure(attempts[0])
    else FirstFailure(attempts[1..])
  }

  /** The messages of all calls, in call order: what a run without any parallelism appends. */
  function InCallOrder(calls: seq<ToolCall>, attempts: seq<Attempt>): seq<Message>
    requires |calls| == |attempts|
  {
    if calls == [] then []
    else InCallOrder(calls[..|calls| - 1], attempts[..|calls| - 1]) + Settled(calls[|calls| - 1], attempts[|calls| - 1])
  }

  lemma {:induction false} InCallOrderLast(calls: seq<ToolCall>, attempts: seq<Attempt>, call: ToolCall,
                                           attempt: Attempt)
    requires |calls| == |attempts|
    ensures InCallOrder(calls + [call], attempts + [attempt]) == InCallOrder(calls, attempts) + Settled(call, attempt)
  {
    assert (calls + [call])[..|calls|] == calls && (attempts + [attempt])[..|calls|] == attempts;
  }

  lemma {:induction false} InCallOrderConcat(a: seq<ToolCall>, x: seq<Attempt>, b: seq<ToolCall>, y: seq<Attempt>)
    requires |a| == |x| && |b| == |y|
    ensures InCallOrder(a + b, x + y) == InCallOrder(a, x) + InCallOrder(b, y)
  {
    hide Settled;
    if b == [] {
      assert a + b == a && x + y == x;
    } else {
      var n := |b| - 1;
      InCallOrderConcat(a, x, b[..n], y[..n]);
      InCallOrderLast(a + b[..n], x + y[..n], b[n], y[n]);
      assert a + b == (a + b[..n]) + [b[n]] && x + y == (x + y[..n]) + [y[n]];
      Sequences.Associate(InCallOrder(a, x), InCallOrder(b[..n], y[..n]), Settled(b[n], y[n]));
    }
  }

  // ---- slots filled in completion order ----

  /** A completion order of the calls that run: each of them once, none that was denied. */
  ghost predicate IsSchedule(order: seq<nat>, attempts: seq<Attempt>) {
    && (forall k | 0 <= k < |order| :: order[k] < |attempts| && !attempts[order[k]].Denied?)
    && (forall j, k | 0 <= j < k < |order| :: order[j] != order[k])
    && (forall i | 0 <= i < |attempts| && !attempts[i].Denied? :: i in order)
  }

  function Joined(slots: seq<Option<seq<Message>>>): seq<Message> {
    if slots == [] then []
    else Joined(slots[..|slots| - 1]) + (if slots[|slots| - 1].Some? then slots[|slots| - 1].value else [])
  }

  /** Slots are empty or hold what their call settles to. */
  ghost predicate Filling(calls: seq<ToolCall>, attempts: seq<Attempt>, slots: seq<Option<seq<Message>>>) {
    && |calls| == |attempts| == |slots|
    && forall i | 0 <= i < |slots| && slots[i].Some? :: slots[i].value == Settled(calls[i], attempts[i])
  }

  lemma {:induction false} JoinedWhenFull(calls: seq<ToolCall>, attempts: seq<Attempt>,
                                          slots: seq<Option<seq<Message>>>)
    requires Filling(calls, attempts, slots) && forall i | 0 <= i < |slots| :: slots[i].Some?
    ensures Joined(slots) == InCallOrder(calls, attempts)
  {
    if slots != [] {
      var n := |slots| - 1;
      JoinedWhenFull(calls[..n], attempts[..n], slots[..n]);
    }
  }

  /** Filling an empty slot adds exactly its messages. */
  lemma {:induction false} FillSlot(slots: seq<Option<seq<Message>>>, i: nat, messages: seq<Message>)
    requires i < |slots| && slots[i].None?
    ensures multiset(Joined(slots[i := Some(messages)])) == multiset(Joined(slots)) + multiset(messages)
  {
    var n, filled := |slots| - 1, slots[i := Some(messages)];
    if i < n {
      FillSlot(slots[..n], i, messages);
      assert filled[..n] == slots[..n][i := Some(messages)];
    } else {
      assert filled[..n] == slots[..n];
    }
  }

  lemma {:induction false} NothingJoined(n: nat)
    ensures Joined(seq(n, _ => None)) == []
  {
    if n > 0 {
      NothingJoined(n - 1);
      var slots: seq<Option<seq<Message>>> := seq(n, _ => None);
      assert slots[..n - 1] == seq(n - 1, _ => None);
    }
  }

  lemma {:induction false} FirstFailurePush(attempts: seq<Attempt>, n: nat)
    requires n < |attempts|
    ensures FirstFailure(attempts[..n]).None? ==> FirstFailure(attempts[..n + 1]) == Failure(attempts[n])
    ensures FirstFailure(attempts[..n + 1]).Some? ==> FirstFailure(attempts) == FirstFailure(attempts[..n + 1])
  {
    if n > 0 {
      FirstFailurePush(attempts[1..], n - 1);
      assert attempts[..n][1..] == attempts[1..][..n - 1] && attempts[..n + 1][1..] == attempts[1..][..n];
    }
  }

  lemma {:induction false} CallOrderPush(calls: seq<ToolCall>, attempts: seq<Attempt>, n: nat)
    requires n < |calls| == |attempts|
    ensures InCallOrder(calls[..n + 1], attempts[..n + 1])
         == InCallOrder(calls[..n], attempts[..n]) + Settled(calls[n], attempts[n])
  {
    assert calls[..n + 1][..n] == calls[..n] && attempts[..n + 1][..n] == attempts[..n];
  }

  lemma {:induction false} NoneYet(calls: seq<ToolCall>, attempts: seq<Attempt>)
    requires |calls| == |attempts|
    ensures InCallOrder(calls[..0], attempts[..0]) == [] && FirstFailure(attempts[..0]).None?
  {
  }

  /** Denials fill their slots at once, tasks as they finish; in the end every slot is filled. */
  method CollectResults(attempts: seq<Attempt>, order: seq<nat>) returns (results: seq<Option<Attempt>>)
    requires IsSchedule(order, attempts)
    ensures |results| == |attempts| && forall i | 0 <= i < |attempts| :: results[i] == Some(attempts[i])
  {
    results := seq(|attempts|, _ => None);
    for idx := 0 to |attempts|
      invariant |results| == |attempts|
      invariant forall i | 0 <= i < |attempts| ::
        results[i] == if i < idx && attempts[i].Denied? then Some(attempts[i]) else None
    {
      if attempts[idx].Denied? {
        results := results[idx := Some(attempts[idx])];
      }
    }
    for k := 0 to |order|
      invariant |results| == |attempts|
      invariant forall i | 0 <= i < |attempts| ::
        results[i] == if attempts[i].Denied? || i in order[..k] then Some(attempts[i]) else None
    {
      assert order[..k + 1] == order[..k] + [order[k]];
      results := results[order[k] := Some(attempts[order[k]])];
    }
    assert order[..|order|] == order;
  }

  /** The collecting form: tasks fill their slots as they finish, then the slots are read in call order. */
  method RunParallel(calls: seq<ToolCall>, attempts: seq<Attempt>, order: seq<nat>, failFast: bool)
    returns (messages: seq<Message>, failed: Option<string>)
    requires |calls| == |attempts| && IsSchedule(order, attempts)
    ensures failed == if failFast then FirstFailure(attempts) else None
    ensures failed.None? ==> messages == InCallOrder(calls, attempts)
  {
    hide IsSchedule, FirstFailure, InCallOrder;
    var results := CollectResults(attempts, order);
    messages, failed := [], None;
    NoneYet(calls, attempts);
    for idx := 0 to |calls|
      invariant failed.None? && messages == InCallOrder(calls[..idx], attempts[..idx])
      invariant failFast ==> FirstFailure(attempts[..idx]).None?
    {
      CallOrderPush(calls, attempts, idx);
      FirstFailurePush(attempts, idx);
      var error := Failure(results[idx].value);
      if error.Some? {
        if failFast {
          return messages, error;
        }
        messages := messages + [ErrorMessage(calls[idx], error.value)];
      } else {
        messages := messages + results[idx].value.messages;
      }
    }
    assert calls[..|calls|] == calls && attempts[..|calls|] == attempts;
  }

  /** Which slots are filled once the denials and the first tasks of a schedule are in. */
  ghost predicate FilledBy(attempts: seq<Attempt>, done: seq<nat>, slots: seq<Option<seq<Message>>>) {
    |slots| == |attempts| && forall i | 0 <= i < |slots| :: slots[i].Some? <==> attempts[i].Denied? || i in done
  }

  // ---- which failure a streaming group names ----

  function FirstDenial(attempts: seq<Attempt>): Option<string> {
    if attempts == [] then None
    else if attempts[0].Denied? then Some(attempts[0].denial)
    else FirstDenial(attempts[1..])
  }

  /** The first failing task, in completion order. */
  function FirstToFail(attempts: seq<Attempt>, order: seq<nat>): Option<string> {
    if order == [] then None
    else if order[0] < |attempts| && Failure(attempts[order[0]]).Some? then Failure(attempts[order[0]])
    else FirstToFail(attempts, order[1..])
  }

  /** The first denial in call order; without one, the first task that fails. */
  function StreamFailure(attempts: seq<Attempt>, order: seq<nat>): Option<string> {
    if FirstDenial(attempts).Some? then FirstDenial(attempts) else FirstToFail(attempts, order)
  }

  lemma {:induction false} FirstDenialIs(attempts: seq<Attempt>, n: nat)
    requires n <= |attempts| && forall i | 0 <= i < n :: !attempts[i].Denied?
    ensures FirstDenial(attempts)
         == if n == |attempts| then None
            else if attempts[n].Denied? then Some(attempts[n].denial)
            else FirstDenial(attempts[n + 1..])
    decreases n
  {
    if n > 0 {
      FirstDenialIs(attempts[1..], n - 1);
      assert n < |attempts| ==> attempts[1..][n..] == attempts[n + 1..];
    }
  }

  lemma {:induction false} DenialNamed(attempts: seq<Attempt>)
    ensures FirstDenial(attempts).Some? <==> exists i :: 0 <= i < |attempts| && attempts[i].Denied?
  {
    if FirstDenial(attempts).None? && attempts != [] {
      DenialNamed(attempts[1..]);
      forall i | 0 <= i < |attempts| ensures !attempts[i].Denied? {
        assert i > 0 ==> attempts[i] == attempts[1..][i - 1];
      }
    } else if attempts != [] && !attempts[0].Denied? {
      DenialNamed(attempts[1..]);
      var i :| 0 <= i < |attempts| - 1 && attempts[1..][i].Denied?;
      assert attempts[i + 1].Denied?;
    }
  }

  lemma {:induction false} FirstToFailIs(attempts: seq<Attempt>, order: seq<nat>, k: nat)
    requires k <= |order| && forall i | 0 <= i < |order| :: order[i] < |attempts|
    requires forall i | 0 <= i < k :: Failure(attempts[order[i]]).None?
    requires k < |order| ==> Failure(attempts[order[k]]).Some?
    ensures FirstToFail(attempts, order) == if k == |order| then None else Failure(attempts[order[k]])
    decreases k
  {
    if k > 0 {
      FirstToFailIs(attempts, order[1..], k - 1);
    }
  }

  lemma {:induction false} FailureFound(attempts: seq<Attempt>, i: nat)
    requires i < |attempts| && Failure(attempts[i]).Some?
    ensures FirstFailure(attempts).Some?
  {
    if Failure(attempts[0]).None? {
      FailureFound(attempts[1..], i - 1);
    }
  }

  lemma {:induction false} NoFailureIn(attempts: seq<Attempt>)
    requires forall i | 0 <= i < |attempts| :: Failure(attempts[i]).None?
    ensures FirstFailure(attempts).None?
  {
    if attempts != [] {
      NoFailureIn(attempts[1..]);
    }
  }

  lemma {:induction false} NoFailure(attempts: seq<Attempt>, order: seq<nat>)
    requires IsSchedule(order, attempts)
    requires forall i | 0 <= i < |attempts| :: !attempts[i].Denied?
    requires forall k | 0 <= k < |order| :: Failure(attempts[order[k]]).None?
    ensures FirstFailure(attempts).None?
  {
    forall i | 0 <= i < |attempts| ensures Failure(attempts[i]).None? {
      assert i in order;
    }
    NoFailureIn(attempts);
  }

  /** A streaming group fails exactly when the collecting one does. */
  lemma {:induction false} FailsAlike(attempts: seq<Attempt>, order: seq<nat>)
    requires IsSchedule(order, attempts)
    ensures StreamFailure(attempts, order).Some? <==> FirstFailure(attempts).Some?
  {
    DenialNamed(attempts);
    if FirstDenial(attempts).Some? {
      var i :| 0 <= i < |attempts| && attempts[i].Denied?;
      FailureFound(attempts, i);
    } else {
      var k := FirstFailing(attempts, order);
      FirstToFailIs(attempts, order, k);
      if k < |order| {
        FailureFound(attempts, order[k]);
      } else {
        NoFailure(attempts, order);
      }
    }
  }

  function FirstFailing(attempts: seq<Attempt>, order: seq<nat>): (k: nat)
    requires forall i | 0 <= i < |order| :: order[i] < |attempts|
    ensures k <= |order| && (k < |order| ==> Failure(attempts[order[k]]).Some?)
    ensures forall i | 0 <= i < k :: Failure(attempts[order[i]]).None?
  {
    if order == [] || Failure(attempts[order[0]]).Some? then 0 else 1 + FirstFailing(attempts, order[1..])
  }

  /** Two failing tools: the streaming group names the one that finishes first, the collecting one the first called. */
  lemma {:induction false} NamesMayDiffer()
    ensures var attempts, order := [Errored("first"), Errored("second")], [1, 0];
      && IsSchedule(order, attempts)
      && FirstFailure(attempts) == Some("first") && StreamFailure(attempts, order) == Some("second")
  {
    var attempts, order: seq<nat> := [Errored("first"), Errored("second")], [1, 0];
    assert order[0] == 1 && order[1] == 0;
    FirstDenialIs(attempts, 2);
    FirstToFailIs(attempts, order, 0);
  }

  /** The first denial is the first failure; or nothing is denied and all failing tools give the same error. */
  ghost predicate NamesAgree(attempts: seq<Attempt>) {
    if FirstDenial(attempts).Some? then FirstDenial(attempts) == FirstFailure(attempts)
    else
      forall i, j | 0 <= i < |attempts| && 0 <= j < |attempts| ::
        Failure(attempts[i]).Some? && Failure(attempts[j]).Some? ==> Failure(attempts[i]) == Failure(attempts[j])
  }

  ghost predicate NamesTheSame(attempts: seq<Attempt>, order: seq<nat>) {
    IsSchedule(order, attempts) ==> StreamFailure(attempts, order) == FirstFailure(attempts)
  }

  lemma {:induction false} FailureIsOne(attempts: seq<Attempt>) returns (i: nat)
    requires FirstFailure(attempts).Some?
    ensures i < |attempts| && FirstFailure(attempts) == Failure(attempts[i])
  {
    if Failure(attempts[0]).Some? {
      i := 0;
    } else {
      i := FailureIsOne(attempts[1..]);
      i := i + 1;
    }
  }

  lemma {:induction false} AgreeingNames(attempts: seq<Attempt>, order: seq<nat>)
    requires IsSchedule(order, attempts) && NamesAgree(attempts)
    ensures StreamFailure(attempts, order) == FirstFailure(attempts)
  {
    FailsAlike(attempts, order);
    if FirstDenial(attempts).None? && FirstFailure(attempts).Some? {
      var i := FailureIsOne(attempts);
      var k := FirstFailing(attempts, order);
      FirstToFailIs(attempts, order, k);
    }
  }

  /** Some completion order always exists; without denials one may start with any call. */
  lemma {:induction false} ScheduleExists(attempts: seq<Attempt>)
    ensures IsSchedule(Running(attempts, 0), attempts)
  {
  }

  lemma {:induction false} SwapToFront(s: seq<nat>, k: nat)
    requires k < |s| && forall i, j | 0 <= i < j < |s| :: s[i] < s[j]
    ensures var t := s[k := s[0]][0 := s[k]];
      && (forall i, j | 0 <= i < j < |t| :: t[i] != t[j])
      && (forall x | x in s :: x in t)
      && (forall j | 0 <= j < |t| :: t[j] in s)
  {
    var t := s[k := s[0]][0 := s[k]];
    forall x | x in s ensures x in t {
      var m :| 0 <= m < |s| && s[m] == x;
      assert t[if m == 0 then k else if m == k then 0 else m] == x;
    }
  }

  lemma {:induction false} ScheduleFrom(attempts: seq<Attempt>, i: nat) returns (order: seq<nat>)
    requires i < |attempts| && !attempts[i].Denied?
    ensures IsSchedule(order, attempts) && order != [] && order[0] == i
  {
    var all := Running(attempts, 0);
    var k :| 0 <= k < |all| && all[k] == i;
    order := all[k := all[0]][0 := i];
    SwapToFront(all, k);
    forall j | 0 <= j < |order| ensures order[j] < |attempts| && !attempts[order[j]].Denied? {
      assert order[j] in all;
    }
  }

  lemma {:induction false} DisagreeingOrder(attempts: seq<Attempt>) returns (order: seq<nat>)
    requires !NamesAgree(attempts)
    ensures IsSchedule(order, attempts) && StreamFailure(attempts, order) != FirstFailure(attempts)
  {
    if FirstDenial(attempts).Some? {
      order := Running(attempts, 0);
      ScheduleExists(attempts);
    } else {
      var i, j :| 0 <= i < |attempts| && 0 <= j < |attempts| && Failure(attempts[i]).Some? && Failure(attempts[j]).Some?
        && Failure(attempts[i]) != Failure(attempts[j]);
      var odd := if Failure(attempts[i]) != FirstFailure(attempts) then i else j;
      DenialNamed(attempts);
      order := ScheduleFrom(attempts, odd);
      FirstToFailIs(attempts, order, 0);
    }
  }

  /** Both forms name the same tool whatever the completion order if and only if the names agree. */
  lemma {:induction false} NamesAgreeIff(attempts: seq<Attempt>)
    ensures (forall order :: NamesTheSame(attempts, order)) <==> NamesAgree(attempts)
  {
    if NamesAgree(attempts) {
      forall order ensures NamesTheSame(attempts, order) {
        if IsSchedule(order, attempts) {
          AgreeingNames(attempts, order);
        }
      }
    } else {
      var order := DisagreeingOrder(attempts);
      assert !NamesTheSame(attempts, order);
    }
  }

  /** Positions of the calls that run, from the `from`-th on. */
  function Running(attempts: seq<Attempt>, from: nat): (order: seq<nat>)
    requires from <= |attempts|
    ensures forall k | 0 <= k < |order| :: from <= order[k] < |attempts| && !attempts[order[k]].Denied?
    ensures forall j, k | 0 <= j < k < |order| :: order[j] < order[k]
    ensures forall i | from <= i < |attempts| && !attempts[i].Denied? :: i in order
    decreases |attempts| - from
  {
    if from == |attempts| then []
    else if attempts[from].Denied? then Running(attempts, from + 1)
    else
      var later := Running(attempts, from + 1);
      assert forall i | i in later :: i in [from] + later;
      [from] + later
  }

  // ---- the streaming form ----

  /** Denied calls fill their slots before any task starts; in fail-fast mode the first one ends the group. */
  method SettleDenials(calls: seq<ToolCall>, attempts: seq<Attempt>, failFast: bool)
    returns (results: seq<Option<seq<Message>>>, sent: seq<Message>, failed: Option<string>)
    requires |calls| == |attempts|
    ensures failed == if failFast then FirstDenial(attempts) else None
    ensures failed.Some? ==> sent == []
    ensures failed.None? ==>
      && Filling(calls, attempts, results) && FilledBy(attempts, [], results)
      && multiset(sent) == multiset(Joined(results))
      && (failFast ==> forall i | 0 <= i < |attempts| :: !attempts[i].Denied?)
  {
    results, sent, failed := seq(|calls|, _ => None), [], None;
    NothingJoined(|calls|);
    for idx := 0 to |calls|
      invariant Filling(calls, attempts, results)
      invariant forall i | 0 <= i < |calls| :: results[i].Some? <==> i < idx && attempts[i].Denied?
      invariant multiset(sent) == multiset(Joined(results))
      invariant failed.None? && (failFast ==> sent == [] && forall i | 0 <= i < idx :: !attempts[i].Denied?)
    {
      if attempts[idx].Denied? {
        if failFast {
          FirstDenialIs(attempts, idx);
          failed := Some(attempts[idx].denial);
          return;
        }
        var message := ErrorMessage(calls[idx], attempts[idx].denial);
        FillSlot(results, idx, [message]);
        results := results[idx := Some([message])];
        sent := sent + [message];
      }
    }
    if failFast {
      FirstDenialIs(attempts, |attempts|);
    }
  }

  /** One finished task fills its slot. */
  lemma {:induction false} TaskDone(calls: seq<ToolCall>, attempts: seq<Attempt>, slots: seq<Option<seq<Message>>>,
                                    order: seq<nat>, k: nat)
    requires IsSchedule(order, attempts) && k < |order|
    requires Filling(calls, attempts, slots) && FilledBy(attempts, order[..k], slots)
    ensures var idx := order[k];
      var filled := slots[idx := Some(Settled(calls[idx], attempts[idx]))];
      && slots[idx].None? && Filling(calls, attempts, filled) && FilledBy(attempts, order[..k + 1], filled)
      && multiset(Joined(filled)) == multiset(Joined(slots)) + multiset(Settled(calls[idx], attempts[idx]))
  {
    var idx := order[k];
    assert order[..k + 1] == order[..k] + [idx] && idx !in order[..k];
    FillSlot(slots, idx, Settled(calls[idx], attempts[idx]));
  }

  /** Slots only ever hold what the calls add. */
  lemma {:induction false} JoinedWithin(calls: seq<ToolCall>, attempts: seq<Attempt>, slots: seq<Option<seq<Message>>>)
    requires Filling(calls, attempts, slots)
    ensures multiset(Joined(slots)) <= multiset(InCallOrder(calls, attempts))
  {
    if slots != [] {
      var n := |slots| - 1;
      JoinedWithin(calls[..n], attempts[..n], slots[..n]);
    }
  }

  /** The streaming form: results are sent as tasks finish, kept in their slots, and appended in call order. In
      fail-fast mode the first failure to turn up, denials first, ends the group. */
  method StreamParallel(calls: seq<ToolCall>, attempts: seq<Attempt>, order: seq<nat>, failFast: bool)
    returns (messages: seq<Message>, sent: seq<Message>, failed: Option<string>)
    requires |calls| == |attempts| && IsSchedule(order, attempts)
    ensures failed == if failFast then StreamFailure(attempts, order) else None
    ensures failed.None? ==> messages == InCallOrder(calls, attempts) && multiset(sent) == multiset(messages)
    ensures failed.Some? ==> multiset(sent) <= multiset(InCallOrder(calls, attempts))
  {
    var results;
    results, sent, failed := SettleDenials(calls, attempts, failFast);
    messages := [];
    if failed.Some? {
      return;
    }
    assert order[..0] == [];
    for k := 0 to |order|
      invariant failed.None? && Filling(calls, attempts, results) && FilledBy(attempts, order[..k], results)
      invariant multiset(sent) == multiset(Joined(results))
      invariant failFast ==> forall i | 0 <= i < k :: Failure(attempts[order[i]]).None?
    {
      var idx := order[k];
      TaskDone(calls, attempts, results, order, k);
      var error := Failure(attempts[idx]);
      if error.Some? && failFast {
        FirstToFailIs(attempts, order, k);
        JoinedWithin(calls, attempts, results);
        failed := error;
        return;
      }
      var settled := if error.Some? then [ErrorMessage(calls[idx], error.value)] else attempts[idx].messages;
      results := results[idx := Some(settled)];
      sent := sent + settled;
    }
    assert order[..|order|] == order;
    JoinedWhenFull(calls, attempts, results);
    if failFast {
      FirstToFailIs(attempts, order, |order|);
    }
    messages := Joined(results);
  }
}
