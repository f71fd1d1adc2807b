/** Repairing a message list so that tool calls and tool results pair up exactly. */
module History {
  import opened Wrappers
  import opened Protocol
  import Sequences

  /** Addition of counters; as a function of its own it keeps proofs about reports short. */
  function Sum(a: nat, b: nat): nat {
    a + b
  }

  datatype SanitizeReport =
    SanitizeReport(droppedEmptyAssistant: nat, droppedOrphanTool: nat, insertedMissingToolResult: nat)
  {
    predicate Changed() {
      droppedEmptyAssistant > 0 || droppedOrphanTool > 0 || insertedMissingToolResult > 0
    }

    function Plus(other: SanitizeReport): SanitizeReport {
      SanitizeReport(Sum(droppedEmptyAssistant, other.droppedEmptyAssistant),
                     Sum(droppedOrphanTool, other.droppedOrphanTool),
                     Sum(insertedMissingToolResult, other.insertedMissingToolResult))
    }
  }

  const UNCHANGED := SanitizeReport(0, 0, 0)

  const MISSING_RESULT := "error: missing tool response message (repaired)"

  predicate AssistantHasWireOutput(content: Option<string>, toolCalls: seq<ToolCall>) {
    (content.Some? && !IsBlank(content.value)) || toolCalls != []
  }

  predicate IsEmptyAssistant(m: Message) {
    m.Assistant? && !AssistantHasWireOutput(m.content, m.toolCalls)
  }

  predicate HasCalls(m: Message) {
    m.Assistant? && m.toolCalls != []
  }

  function CallIds(calls: seq<ToolCall>): seq<string> {
    seq(|calls|, i requires 0 <= i < |calls| => calls[i].id)
  }

  // ---- what a repaired history looks like ----

  predicate Answers(ids: seq<string>, results: seq<Message>) {
    |results| == |ids| && forall i | 0 <= i < |ids| :: results[i].Tool? && results[i].toolCallId == ids[i]
  }

  predicate ResultsMatch(calls: seq<ToolCall>, results: seq<Message>) {
    Answers(CallIds(calls), results)
  }

  /** Each assistant with calls is directly followed by exactly its results, in call order; there is no other tool
      message and no empty assistant. */
  predicate WellFormed(ms: seq<Message>)
    decreases |ms|
  {
    if ms == [] then true
    else if HasCalls(ms[0]) then
      var n := |ms[0].toolCalls|;
      n < |ms| && ResultsMatch(ms[0].toolCalls, ms[1..n + 1]) && WellFormed(ms[n + 1..])
    else !ms[0].Tool? && !IsEmptyAssistant(ms[0]) && WellFormed(ms[1..])
  }

  // ---- pairing one assistant's calls with the results of its segment ----

  /** Position of the first result for `id`, or the length when there is none. */
  function FirstResult(tools: seq<Message>, id: string): (i: nat)
    ensures i <= |tools|
    ensures i < |tools| ==> tools[i].Tool? && tools[i].toolCallId == id
    ensures forall j | 0 <= j < i :: !(tools[j].Tool? && tools[j].toolCallId == id)
  {
    if tools == [] then 0
    else if tools[0].Tool? && tools[0].toolCallId == id then 0
    else 1 + FirstResult(tools[1..], id)
  }

  datatype Pairing = Pairing(results: seq<Message>, leftover: seq<Message>, missing: seq<string>)

  function Extend(results: seq<Message>, missing: seq<string>, rest: Pairing): Pairing {
    Pairing(results + rest.results, rest.leftover, missing + rest.missing)
  }

  /** Each expected id takes the oldest result left for it, or gets a repair message. */
  function Pair(ids: seq<string>, tools: seq<Message>): Pairing
    decreases |ids|
  {
    if ids == [] then Pairing([], tools, [])
    else
      var i := FirstResult(tools, ids[0]);
      if i < |tools| then Extend([tools[i]], [], Pair(ids[1..], tools[..i] + tools[i + 1..]))
      else Extend([Tool(ids[0], MISSING_RESULT)], [ids[0]], Pair(ids[1..], tools))
  }

  /** Messages before the next assistant. */
  function SegmentLength(ms: seq<Message>): (n: nat)
    ensures n <= |ms|
    ensures n < |ms| ==> ms[n].Assistant?
    ensures forall i | 0 <= i < n :: !ms[i].Assistant?
  {
    if ms == [] || ms[0].Assistant? then 0 else 1 + SegmentLength(ms[1..])
  }

  function Tools(ms: seq<Message>): seq<Message> {
    if ms == [] then [] else Tools(ms[..|ms| - 1]) + (if ms[|ms| - 1].Tool? then [ms[|ms| - 1]] else [])
  }

  function Others(ms: seq<Message>): seq<Message> {
    if ms == [] then [] else Others(ms[..|ms| - 1]) + (if ms[|ms| - 1].Tool? then [] else [ms[|ms| - 1]])
  }

  datatype Repaired = Repaired(messages: seq<Message>, report: SanitizeReport)

  function Prepend(messages: seq<Message>, report: SanitizeReport, rest: Repaired): Repaired {
    Repaired(messages + rest.messages, report.Plus(rest.report))
  }

  /** An assistant with calls takes its results out of the segment after it; other messages of the segment follow. */
  function RepairSegment(m: Message, segment: seq<Message>): Repaired
    requires m.Assistant?
  {
    var p := Pair(CallIds(m.toolCalls), Tools(segment));
    Repaired([m] + p.results + Others(segment), SanitizeReport(0, |p.leftover|, |p.missing|))
  }

  datatype Step = Step(repaired: Repaired, later: seq<Message>)

  /** One turn of the repair: the messages it settles, and the queue it leaves. */
  function FirstStep(queue: seq<Message>): (s: Step)
    requires queue != []
    ensures |s.later| < |queue|
  {
    var m, rest := queue[0], queue[1..];
    if HasCalls(m) then
      var n := SegmentLength(rest);
      Step(RepairSegment(m, rest[..n]), rest[n..])
    else if IsEmptyAssistant(m) then Step(Repaired([], SanitizeReport(1, 0, 0)), rest)
    else if m.Tool? then Step(Repaired([], SanitizeReport(0, 1, 0)), rest)
    else Step(Repaired([m], UNCHANGED), rest)
  }

  function Repair(queue: seq<Message>): Repaired
    decreases |queue|
  {
    if queue == [] then Repaired([], UNCHANGED)
    else
      var s := FirstStep(queue);
      Prepend(s.repaired.messages, s.repaired.report, Repair(s.later))
  }

  // ---- the repair in place ----

  function Flatten(slots: seq<Option<Message>>): seq<Message> {
    if slots == [] then []
    else Flatten(slots[..|slots| - 1]) + (if slots[|slots| - 1].Some? then [slots[|slots| - 1].value] else [])
  }

  lemma {:induction false} FlattenConcat(a: seq<Option<Message>>, b: seq<Option<Message>>)
    ensures Flatten(a + b) == Flatten(a) + Flatten(b)
  {
    if b == [] {
      assert a + b == a;
    } else {
      FlattenConcat(a, b[..|b| - 1]);
      assert (a + b)[..|a + b| - 1] == a + b[..|b| - 1];
    }
  }

  lemma {:induction false} FlattenAll(ms: seq<Message>)
    ensures Flatten(seq(|ms|, i requires 0 <= i < |ms| => Some(ms[i]))) == ms
  {
    if ms != [] {
      var init := ms[..|ms| - 1];
      FlattenAll(init);
      var slots := seq(|ms|, i requires 0 <= i < |ms| => Some(ms[i]));
      assert slots[..|ms| - 1] == seq(|init|, i requires 0 <= i < |init| => Some(init[i]));
    }
  }

  predicate Matches(slot: Option<Message>, id: string) {
    slot.Some? && slot.value.Tool? && slot.value.toolCallId == id
  }

  lemma {:induction false} FirstResultSkips(a: seq<Message>, b: seq<Message>, id: string)
    requires forall m | m in a :: !(m.Tool? && m.toolCallId == id)
    ensures FirstResult(a + b, id) == |a| + FirstResult(b, id)
  {
    var i, j := FirstResult(a + b, id), FirstResult(b, id);
    assert forall k | 0 <= k < |a| :: (a + b)[k] in a;
    assert j < |b| ==> (a + b)[|a| + j] == b[j];
    assert forall k | |a| <= k < |a + b| :: (a + b)[k] == b[k - |a|];
  }

  lemma {:induction false} InFlatten(slots: seq<Option<Message>>, m: Message)
    ensures m in Flatten(slots) <==> Some(m) in slots
  {
    if slots != [] {
      InFlatten(slots[..|slots| - 1], m);
      assert slots == slots[..|slots| - 1] + [slots[|slots| - 1]];
    }
  }

  lemma {:induction false} FlattenAround(slots: seq<Option<Message>>, s: nat)
    requires s < |slots| && slots[s].Some?
    ensures Flatten(slots) == Flatten(slots[..s]) + [slots[s].value] + Flatten(slots[s + 1..])
    ensures Flatten(slots[s := None]) == Flatten(slots[..s]) + Flatten(slots[s + 1..])
  {
    var a, b := slots[..s], slots[s + 1..];
    FlattenConcat(a + [slots[s]], b);
    FlattenConcat(a, [slots[s]]);
    FlattenConcat(a + [None], b);
    FlattenConcat(a, [None]);
    assert slots == a + [slots[s]] + b && slots[s := None] == a + [None] + b;
    assert Flatten([slots[s]]) == [slots[s].value] && Flatten([None]) == [];
  }

  lemma {:induction false} FlattenNoMatch(slots: seq<Option<Message>>, id: string)
    requires forall k | 0 <= k < |slots| :: !Matches(slots[k], id)
    ensures forall m | m in Flatten(slots) :: !(m.Tool? && m.toolCallId == id)
  {
    forall m | m in Flatten(slots) ensures !(m.Tool? && m.toolCallId == id) {
      InFlatten(slots, m);
    }
  }

  /** Taking the first matching slot removes the first matching message of what is left. */
  lemma {:induction false} TakeSlot(slots: seq<Option<Message>>, s: nat, id: string)
    requires s <= |slots| && forall k | 0 <= k < s :: !Matches(slots[k], id)
    requires s < |slots| ==> Matches(slots[s], id)
    ensures var left := Flatten(slots);
      var i := FirstResult(left, id);
      if s == |slots| then i == |left|
      else i < |left| && left[i] == slots[s].value && Flatten(slots[s := None]) == left[..i] + left[i + 1..]
  {
    FlattenNoMatch(slots[..s], id);
    if s == |slots| {
      assert slots[..s] == slots;
    } else {
      var a, x, b := Flatten(slots[..s]), slots[s].value, Flatten(slots[s + 1..]);
      FlattenAround(slots, s);
      assert a + [x] + b == a + ([x] + b);
      FirstResultSkips(a, [x] + b, id);
    }
  }

  lemma {:induction false} ExtendTwice(a: seq<Message>, i: seq<string>, b: seq<Message>, j: seq<string>, rest: Pairing)
    ensures Extend(a, i, Extend(b, j, rest)) == Extend(a + b, i + j, rest)
  {
    assert a + (b + rest.results) == (a + b) + rest.results;
    assert i + (j + rest.missing) == (i + j) + rest.missing;
  }

  /** Pairs expected ids with the segment's tool messages, emptying the slots taken. */
  method PairResults(ids: seq<string>, tools: seq<Message>)
    returns (results: seq<Message>, remaining: seq<Option<Message>>, missing: seq<string>)
    ensures Pairing(results, Flatten(remaining), missing) == Pair(ids, tools)
  {
    results, missing := [], [];
    remaining := seq(|tools|, i requires 0 <= i < |tools| => Some(tools[i]));
    FlattenAll(tools);
    var expected := ids;
    while expected != []
      invariant Pair(ids, tools) == Extend(results, missing, Pair(expected, Flatten(remaining)))
      decreases |expected|
    {
      var s := FirstSlot(remaining, expected[0]);
      TakeSlot(remaining, s, expected[0]);
      var picked, lost: seq<string>;
      if s < |remaining| {
        picked, lost := remaining[s].value, [];
        remaining := remaining[s := None];
      } else {
        picked, lost := Tool(expected[0], MISSING_RESULT), [expected[0]];
      }
      expected := expected[1..];
      ExtendTwice(results, missing, [picked], lost, Pair(expected, Flatten(remaining)));
      results, missing := results + [picked], missing + lost;
    }
  }

  method FirstSlot(slots: seq<Option<Message>>, id: string) returns (s: nat)
    ensures s <= |slots| && forall k | 0 <= k < s :: !Matches(slots[k], id)
    ensures s < |slots| ==> Matches(slots[s], id)
  {
    s := 0;
    while s < |slots| && !Matches(slots[s], id)
      invariant s <= |slots| && forall k | 0 <= k < s :: !Matches(slots[k], id)
    {
      s := s + 1;
    }
  }

  predicate NeedsNoRepair(ms: seq<Message>) {
    forall i | 0 <= i < |ms| :: !IsEmptyAssistant(ms[i]) && !HasCalls(ms[i]) && !ms[i].Tool?
  }

  lemma {:induction false} PrependTwice(a: seq<Message>, r: SanitizeReport, b: seq<Message>, s: SanitizeReport,
                                        rest: Repaired)
    ensures Prepend(a, r, Prepend(b, s, rest)) == Prepend(a + b, r.Plus(s), rest)
  {
    assert a + (b + rest.messages) == (a + b) + rest.messages;
  }

  /** Splits the segment in front of the next assistant off the queue. */
  method TakeSegment(queue: seq<Message>) returns (tools: seq<Message>, others: seq<Message>, rest: seq<Message>)
    ensures var n := SegmentLength(queue);
      tools == Tools(queue[..n]) && others == Others(queue[..n]) && rest == queue[n..]
  {
    tools, others, rest := [], [], queue;
    ghost var n := 0;
    while rest != [] && !rest[0].Assistant?
      invariant n <= |queue| && rest == queue[n..] && forall i | 0 <= i < n :: !queue[i].Assistant?
      invariant tools == Tools(queue[..n]) && others == Others(queue[..n])
      decreases |rest|
    {
      assert queue[..n + 1][..n] == queue[..n];
      if rest[0].Tool? {
        tools := tools + [rest[0]];
      } else {
        others := others + [rest[0]];
      }
      rest := rest[1..];
      n := n + 1;
    }
    assert n == SegmentLength(queue);
  }

  /** Settles the messages at the front of a queue. */
  method RepairNext(queue: seq<Message>) returns (out: seq<Message>, report: SanitizeReport, later: seq<Message>)
    requires queue != []
    ensures Step(Repaired(out, report), later) == FirstStep(queue)
  {
    var m := queue[0];
    out, report, later := [], UNCHANGED, queue[1..];
    if HasCalls(m) {
      out := [m];
      var tools, others;
      tools, others, later := TakeSegment(later);
      var results, remaining, missing := PairResults(CallIds(m.toolCalls), tools);
      report := report.(insertedMissingToolResult := |missing|, droppedOrphanTool := |Flatten(remaining)|);
      out := out + results + others;
    } else if IsEmptyAssistant(m) {
      report := report.(droppedEmptyAssistant := 1);
    } else if m.Tool? {
      report := report.(droppedOrphanTool := 1);
    } else {
      out := [m];
    }
  }

  method RepairAll(messages: seq<Message>) returns (out: seq<Message>, report: SanitizeReport)
    ensures Repaired(out, report) == Repair(messages)
  {
    report, out := UNCHANGED, [];
    var queue := messages;
    while queue != []
      invariant Repair(messages) == Prepend(out, report, Repair(queue))
      decreases |queue|
    {
      var settled, counted;
      settled, counted, queue := RepairNext(queue);
      PrependTwice(out, report, settled, counted, Repair(queue));
      out, report := out + settled, report.Plus(counted);
    }
  }

  // ---- the result is well formed ----

  lemma {:induction false} AnswersPush(ids: seq<string>, first: Message, rest: seq<Message>)
    requires ids != [] && first.Tool? && first.toolCallId == ids[0] && Answers(ids[1..], rest)
    ensures Answers(ids, [first] + rest)
  {
  }

  lemma {:induction false} PairKeepsIds(ids: seq<string>, tools: seq<Message>)
    ensures Answers(ids, Pair(ids, tools).results)
    decreases |ids|
  {
    if ids != [] {
      var i := FirstResult(tools, ids[0]);
      if i < |tools| {
        PairKeepsIds(ids[1..], tools[..i] + tools[i + 1..]);
        AnswersPush(ids, tools[i], Pair(ids[1..], tools[..i] + tools[i + 1..]).results);
      } else {
        PairKeepsIds(ids[1..], tools);
        AnswersPush(ids, Tool(ids[0], MISSING_RESULT), Pair(ids[1..], tools).results);
      }
    }
  }

  predicate Plain(ms: seq<Message>) {
    forall i | 0 <= i < |ms| :: !ms[i].Tool? && !ms[i].Assistant?
  }

  lemma {:induction false} PlainThenWellFormed(plain: seq<Message>, rest: seq<Message>)
    requires Plain(plain)
    ensures WellFormed(plain + rest) <==> WellFormed(rest)
  {
    if plain == [] {
      assert plain + rest == rest;
    } else {
      assert (plain + rest)[1..] == plain[1..] + rest;
      PlainThenWellFormed(plain[1..], rest);
    }
  }

  lemma {:induction false} OthersPlain(ms: seq<Message>)
    requires forall i | 0 <= i < |ms| :: !ms[i].Assistant?
    ensures Plain(Others(ms))
  {
    if ms != [] {
      OthersPlain(ms[..|ms| - 1]);
    }
  }

  /** An assistant with calls, its results, plain messages and a well-formed rest are well formed. */
  lemma {:induction false} GroupWellFormed(m: Message, results: seq<Message>, plain: seq<Message>, rest: seq<Message>)
    requires HasCalls(m) && ResultsMatch(m.toolCalls, results) && Plain(plain) && WellFormed(rest)
    ensures WellFormed([m] + results + plain + rest)
  {
    var all, n := [m] + results + plain + rest, |m.toolCalls|;
    PlainThenWellFormed(plain, rest);
    assert all[0] == m && all[1..n + 1] == results && all[n + 1..] == plain + rest;
  }

  /** Every result of sanitizing is well formed. */
  lemma {:induction false} RepairIsWellFormed(ms: seq<Message>)
    ensures WellFormed(Repair(ms).messages)
    decreases |ms|
  {
    if ms != [] {
      var m, rest := ms[0], ms[1..];
      if HasCalls(m) {
        var n := SegmentLength(rest);
        var ids, tools, others := CallIds(m.toolCalls), Tools(rest[..n]), Others(rest[..n]);
        RepairIsWellFormed(rest[n..]);
        PairKeepsIds(ids, tools);
        var results, later := Pair(ids, tools).results, Repair(rest[n..]).messages;
        assert ResultsMatch(m.toolCalls, results);
        OthersPlain(rest[..n]);
        GroupWellFormed(m, results, others, later);
      } else {
        RepairIsWellFormed(rest);
        var later := Repair(rest).messages;
        assert [] + later == later;
        assert ([m] + later)[1..] == later;
      }
    }
  }

  // ---- a well-formed history is left alone ----

  lemma {:induction false} NoRepairIsWellFormed(ms: seq<Message>)
    requires NeedsNoRepair(ms)
    ensures WellFormed(ms)
  {
    if ms != [] {
      NoRepairIsWellFormed(ms[1..]);
    }
  }

  lemma {:induction false} PairExact(ids: seq<string>, results: seq<Message>)
    requires Answers(ids, results)
    ensures Pair(ids, results) == Pairing(results, [], [])
    decreases |ids|
  {
    if ids != [] {
      assert FirstResult(results, ids[0]) == 0;
      assert results[..0] + results[1..] == results[1..];
      PairExact(ids[1..], results[1..]);
    }
  }

  lemma {:induction false} AllTools(results: seq<Message>)
    requires forall i | 0 <= i < |results| :: results[i].Tool?
    ensures Tools(results) == results && Others(results) == []
  {
    if results != [] {
      AllTools(results[..|results| - 1]);
    }
  }

  lemma {:induction false} ToolsThenPlain(results: seq<Message>, plain: seq<Message>)
    requires (forall i | 0 <= i < |results| :: results[i].Tool?) && Plain(plain)
    ensures Tools(results + plain) == results && Others(results + plain) == plain
    decreases |plain|
  {
    if plain == [] {
      AllTools(results);
      assert results + plain == results;
    } else {
      var init, last := plain[..|plain| - 1], plain[|plain| - 1];
      assert (results + plain)[..|results + plain| - 1] == results + init;
      ToolsThenPlain(results, init);
      assert init + [last] == plain;
    }
  }

  lemma {:induction false} SegmentSkips(front: seq<Message>, rest: seq<Message>)
    requires forall i | 0 <= i < |front| :: !front[i].Assistant?
    ensures SegmentLength(front + rest) == |front| + SegmentLength(rest)
  {
    if front == [] {
      assert front + rest == rest;
    } else {
      assert (front + rest)[1..] == front[1..] + rest;
      SegmentSkips(front[1..], rest);
    }
  }

  lemma {:induction false} WellFormedSegment(ms: seq<Message>)
    requires WellFormed(ms)
    ensures var n := SegmentLength(ms); Plain(ms[..n]) && WellFormed(ms[n..])
  {
    if ms != [] && !ms[0].Assistant? {
      WellFormedSegment(ms[1..]);
      var n := SegmentLength(ms);
      assert ms[..n] == [ms[0]] + ms[1..][..n - 1] && ms[n..] == ms[1..][n - 1..];
    }
  }

  lemma {:induction false} RepairGroup(m: Message, results: seq<Message>, plain: seq<Message>, later: seq<Message>)
    requires HasCalls(m) && ResultsMatch(m.toolCalls, results) && Plain(plain) && SegmentLength(later) == 0
    ensures Repair([m] + results + plain + later) == Prepend([m] + results + plain, UNCHANGED, Repair(later))
    decreases |later|
  {
    var queue, segment := [m] + results + plain + later, results + plain;
    SegmentSkips(segment, later);
    assert queue[1..] == segment + later;
    assert (segment + later)[..|segment|] == segment && (segment + later)[|segment|..] == later;
    ToolsThenPlain(results, plain);
    PairExact(CallIds(m.toolCalls), results);
  }

  lemma {:induction false} PrependUnchanged(front: seq<Message>, rest: Repaired)
    ensures Prepend(front, UNCHANGED, rest) == Repaired(front + rest.messages, rest.report)
  {
  }

  lemma {:induction false} NextIsAssistant(ms: seq<Message>)
    ensures SegmentLength(ms[SegmentLength(ms)..]) == 0
  {
  }

  /** The first group of a well-formed history: an assistant, its results and plain messages; then the rest. */
  lemma {:induction false} FirstGroup(ms: seq<Message>)
    returns (results: seq<Message>, plain: seq<Message>, later: seq<Message>)
    requires ms != [] && HasCalls(ms[0]) && WellFormed(ms)
    ensures ms == [ms[0]] + results + plain + later
    ensures ResultsMatch(ms[0].toolCalls, results) && Plain(plain) && SegmentLength(later) == 0 && WellFormed(later)
  {
    var n := |ms[0].toolCalls| + 1;
    var tail := ms[n..];
    WellFormedSegment(tail);
    results, plain, later := ms[1..n], tail[..SegmentLength(tail)], tail[SegmentLength(tail)..];
    Sequences.FourParts(ms, n, SegmentLength(tail));
    NextIsAssistant(tail);
  }

  lemma {:induction false} FirstPlain(ms: seq<Message>)
    requires ms != [] && !HasCalls(ms[0]) && WellFormed(ms)
    ensures WellFormed(ms[1..]) && Repair(ms) == Prepend(ms[..1], UNCHANGED, Repair(ms[1..]))
  {
    assert ms[..1] == [ms[0]];
  }

  /** A well-formed history is returned as it is, with an all-zero report; so sanitizing twice changes nothing. */
  lemma {:induction false} WellFormedUntouched(ms: seq<Message>)
    requires WellFormed(ms)
    ensures Repair(ms) == Repaired(ms, UNCHANGED)
    decreases |ms|
  {
    if ms != [] {
      var front, later := ms[..1], ms[1..];
      if HasCalls(ms[0]) {
        var results, plain;
        results, plain, later := FirstGroup(ms);
        front := [ms[0]] + results + plain;
        RepairGroup(ms[0], results, plain, later);
      } else {
        FirstPlain(ms);
      }
      WellFormedUntouched(later);
      PrependUnchanged(front, Repair(later));
      assert front + later == ms;
    }
  }

  /** Repairs a history; one without calls, results or empty assistants is returned at once. */
  method Sanitize(messages: seq<Message>) returns (out: seq<Message>, report: SanitizeReport)
    ensures Repaired(out, report) == Repair(messages)
  {
    if NeedsNoRepair(messages) {
      NoRepairIsWellFormed(messages);
      WellFormedUntouched(messages);
      return messages, UNCHANGED;
    }
    out, report := RepairAll(messages);
  }

  lemma {:induction false} SanitizeIdempotent(ms: seq<Message>)
    ensures Repair(Repair(ms).messages) == Repaired(Repair(ms).messages, UNCHANGED)
    ensures Repair(ms).messages == ms <==> WellFormed(ms)
  {
    RepairIsWellFormed(ms);
    WellFormedUntouched(Repair(ms).messages);
    if WellFormed(ms) {
      WellFormedUntouched(ms);
    }
  }
}
