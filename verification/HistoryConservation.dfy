/** What repairing a history keeps, drops and adds. */
module HistoryConservation {
  import opened Protocol
  import opened History
  import Sequences

  // ---- one assistant: per id, how many results are taken, left over and made up ----

  /** The results for one id, in order of arrival. */
  function ForId(ms: seq<Message>, id: string): seq<Message> {
    if ms == [] then []
    else (if ms[0].Tool? && ms[0].toolCallId == id then [ms[0]] else []) + ForId(ms[1..], id)
  }

  function Count(ids: seq<string>, id: string): nat {
    if ids == [] then 0 else (if ids[0] == id then 1 else 0) + Count(ids[1..], id)
  }

  function Repairs(id: string, n: nat): seq<Message> {
    if n == 0 then [] else [Tool(id, MISSING_RESULT)] + Repairs(id, n - 1)
  }

  function FirstN<T>(s: seq<T>, n: nat): seq<T> {
    if n <= |s| then s[..n] else s
  }

  function Monus(a: nat, b: nat): nat {
    if a <= b then 0 else a - b
  }

  lemma {:induction false} ForIdConcat(a: seq<Message>, b: seq<Message>, id: string)
    ensures ForId(a + b, id) == ForId(a, id) + ForId(b, id)
  {
    if a == [] {
      assert a + b == b;
    } else {
      assert (a + b)[0] == a[0] && (a + b)[1..] == a[1..] + b;
      ForIdConcat(a[1..], b, id);
      Sequences.Associate(if a[0].Tool? && a[0].toolCallId == id then [a[0]] else [], ForId(a[1..], id), ForId(b, id));
    }
  }

  lemma {:induction false} ForIdAlone(m: Message, id: string)
    ensures ForId([m], id) == if m.Tool? && m.toolCallId == id then [m] else []
  {
    assert [m][1..] == [];
  }

  lemma {:induction false} NoneForId(tools: seq<Message>, id: string)
    requires forall j | 0 <= j < |tools| :: !(tools[j].Tool? && tools[j].toolCallId == id)
    ensures ForId(tools, id) == []
  {
    if tools != [] {
      NoneForId(tools[1..], id);
    }
  }

  /** Taking away the first result for an id. */
  lemma {:induction false} ForIdAround(front: seq<Message>, m: Message, back: seq<Message>, taken: string, id: string)
    requires m.Tool? && m.toolCallId == taken && ForId(front, taken) == []
    ensures ForId(front + [m] + back, taken) == [m] + ForId(back, taken)
    ensures ForId(front + back, id)
         == if id == taken then ForId(front + [m] + back, id)[1..] else ForId(front + [m] + back, id)
  {
    hide ForId;
    ForIdConcat(front, [m], id);
    ForIdConcat(front + [m], back, id);
    ForIdConcat(front, back, id);
    ForIdAlone(m, id);
    ForIdConcat(front, [m], taken);
    ForIdConcat(front + [m], back, taken);
    ForIdAlone(m, taken);
  }

  lemma {:induction false} ForIdWithout(tools: seq<Message>, taken: string, id: string)
    ensures var i := FirstResult(tools, taken);
      if i == |tools| then ForId(tools, taken) == []
      else
        && ForId(tools, taken) != [] && ForId(tools, taken)[0] == tools[i]
        && ForId(tools[..i] + tools[i + 1..], id)
           == if id == taken then ForId(tools, id)[1..] else ForId(tools, id)
  {
    hide ForId;
    var i := FirstResult(tools, taken);
    NoneForId(tools[..i], taken);
    if i < |tools| {
      assert tools == tools[..i] + [tools[i]] + tools[i + 1..];
      ForIdAround(tools[..i], tools[i], tools[i + 1..], taken, id);
    } else {
      assert tools[..i] == tools;
    }
  }

  /** How many results an id gets, in terms of those that arrived for it and the number expected. */
  ghost predicate Served(id: string, have: seq<Message>, want: nat, p: Pairing) {
    && ForId(p.results, id) == FirstN(have, want) + Repairs(id, Monus(want, |have|))
    && ForId(p.leftover, id) == have[|FirstN(have, want)|..]
    && Count(p.missing, id) == Monus(want, |have|)
  }

  lemma {:induction false} FirstNStep<T>(have: seq<T>, want: nat)
    requires have != [] && want > 0
    ensures FirstN(have, want) == [have[0]] + FirstN(have[1..], want - 1)
    ensures have[|FirstN(have, want)|..] == have[1..][|FirstN(have[1..], want - 1)|..]
    ensures Monus(want, |have|) == Monus(want - 1, |have[1..]|)
  {
  }

  lemma {:induction false} PairPush(ids: seq<string>, first: seq<Message>, lost: seq<string>, rest: Pairing, id: string)
    requires |first| == 1 && |lost| <= 1
    ensures ForId(Extend(first, lost, rest).results, id) == ForId(first, id) + ForId(rest.results, id)
    ensures Count(Extend(first, lost, rest).missing, id) == Count(lost, id) + Count(rest.missing, id)
  {
    assert (first + rest.results)[1..] == rest.results;
    assert first[1..] == [];
    if lost == [] {
      assert lost + rest.missing == rest.missing;
    } else {
      assert (lost + rest.missing)[1..] == rest.missing && lost[1..] == [];
    }
  }

  lemma {:induction false} ServedOwn(ids: seq<string>, taken: Message, have: seq<Message>, rest: Pairing)
    requires ids != [] && taken.Tool? && taken.toolCallId == ids[0] && have != [] && have[0] == taken
    requires Served(ids[0], have[1..], Count(ids[1..], ids[0]), rest)
    ensures Served(ids[0], have, Count(ids, ids[0]), Extend([taken], [], rest))
  {
    var id, want := ids[0], Count(ids, ids[0]);
    PairPush(ids, [taken], [], rest, id);
    FirstNStep(have, want);
    assert [taken][1..] == [];
    Sequences.Associate([taken], FirstN(have[1..], want - 1), Repairs(id, Monus(want, |have|)));
  }

  lemma {:induction false} ServedOther(id: string, ids: seq<string>, taken: Message, have: seq<Message>, rest: Pairing)
    requires ids != [] && taken.Tool? && taken.toolCallId == ids[0] != id
    requires Served(id, have, Count(ids[1..], id), rest)
    ensures Served(id, have, Count(ids, id), Extend([taken], [], rest))
  {
    PairPush(ids, [taken], [], rest, id);
    assert [taken][1..] == [];
    assert [] + ForId(rest.results, id) == ForId(rest.results, id);
  }

  lemma {:induction false} ServedMissing(id: string, ids: seq<string>, have: seq<Message>, rest: Pairing)
    requires ids != [] && (id == ids[0] ==> have == []) && Served(id, have, Count(ids[1..], id), rest)
    ensures Served(id, have, Count(ids, id), Extend([Tool(ids[0], MISSING_RESULT)], [ids[0]], rest))
  {
    var made := Tool(ids[0], MISSING_RESULT);
    PairPush(ids, [made], [ids[0]], rest, id);
    assert [made][1..] == [] && [ids[0]][1..] == [];
    if id != ids[0] {
      assert [] + ForId(rest.results, id) == ForId(rest.results, id);
    }
  }

  lemma {:induction false} NoneServed(tools: seq<Message>, id: string)
    ensures Served(id, ForId(tools, id), Count([], id), Pair([], tools))
  {
    assert ForId(tools, id)[0..] == ForId(tools, id);
  }

  lemma {:induction false} PairFirst(ids: seq<string>, tools: seq<Message>)
    requires ids != []
    ensures var i := FirstResult(tools, ids[0]);
      Pair(ids, tools)
      == if i < |tools| then Extend([tools[i]], [], Pair(ids[1..], tools[..i] + tools[i + 1..]))
         else Extend([Tool(ids[0], MISSING_RESULT)], [ids[0]], Pair(ids[1..], tools))
  {
  }

  /** For every id: the expected number of results in order of arrival, topped up with exactly the repairs that are
      missing; whatever arrived beyond that is left over. */
  lemma {:induction false} PairPerId(ids: seq<string>, tools: seq<Message>, id: string)
    ensures Served(id, ForId(tools, id), Count(ids, id), Pair(ids, tools))
    decreases |ids|
  {
    hide Pair, ForId, Served, Count, Extend;
    if ids == [] {
      NoneServed(tools, id);
    } else {
      var i := FirstResult(tools, ids[0]);
      PairFirst(ids, tools);
      ForIdWithout(tools, ids[0], id);
      if i < |tools| {
        var left := tools[..i] + tools[i + 1..];
        PairPerId(ids[1..], left, id);
        if id == ids[0] {
          ServedOwn(ids, tools[i], ForId(tools, id), Pair(ids[1..], left));
        } else {
          ServedOther(id, ids, tools[i], ForId(tools, id), Pair(ids[1..], left));
        }
      } else {
        PairPerId(ids[1..], tools, id);
        ServedMissing(id, ids, ForId(tools, id), Pair(ids[1..], tools));
      }
    }
  }

  lemma {:induction false} PairCounts(ids: seq<string>, tools: seq<Message>)
    ensures var p := Pair(ids, tools);
      |p.results| == |ids| && |p.leftover| + |ids| == |tools| + |p.missing|
    decreases |ids|
  {
    if ids != [] {
      hide Pair;
      var i := FirstResult(tools, ids[0]);
      PairFirst(ids, tools);
      PairCounts(ids[1..], if i < |tools| then tools[..i] + tools[i + 1..] else tools);
    }
  }

  lemma {:induction false} RemoveAt(s: seq<Message>, i: nat)
    requires i < |s|
    ensures multiset(s) == multiset{s[i]} + multiset(s[..i] + s[i + 1..])
  {
    assert s == s[..i] + ([s[i]] + s[i + 1..]);
  }

  lemma {:induction false} PairPermutes(ids: seq<string>, tools: seq<Message>)
    requires Pair(ids, tools).missing == []
    ensures multiset(Pair(ids, tools).results) + multiset(Pair(ids, tools).leftover) == multiset(tools)
    decreases |ids|
  {
    if ids != [] {
      var i := FirstResult(tools, ids[0]);
      assert i < |tools|;
      var left := tools[..i] + tools[i + 1..];
      var rest := Pair(ids[1..], left);
      assert Pair(ids, tools) == Extend([tools[i]], [], rest);
      PairPermutes(ids[1..], left);
      RemoveAt(tools, i);
    }
  }

  // ---- whole histories ----

  /** An assistant message without calls whose text, if any, is all white space. */
  predicate SaysNothing(m: Message) {
    && m.Assistant? && m.toolCalls == []
    && (m.content.None? || forall i | 0 <= i < |m.content.value| :: IsWhitespace(m.content.value[i]))
  }

  /** Everything but tool messages and assistants that say nothing, in order. */
  function Kept(ms: seq<Message>): seq<Message> {
    if ms == [] then []
    else (if ms[0].Tool? || SaysNothing(ms[0]) then [] else [ms[0]]) + Kept(ms[1..])
  }

  function ToolCount(ms: seq<Message>): nat {
    if ms == [] then 0 else Sum(if ms[0].Tool? then 1 else 0, ToolCount(ms[1..]))
  }

  function EmptyAssistants(ms: seq<Message>): nat {
    if ms == [] then 0 else Sum(if SaysNothing(ms[0]) then 1 else 0, EmptyAssistants(ms[1..]))
  }

  lemma {:induction false} KeptConcat(a: seq<Message>, b: seq<Message>)
    ensures Kept(a + b) == Kept(a) + Kept(b)
  {
    if a == [] {
      assert a + b == b;
    } else {
      KeptConcat(a[1..], b);
      assert (a + b)[0] == a[0] && (a + b)[1..] == a[1..] + b;
      Sequences.Associate(if a[0].Tool? || SaysNothing(a[0]) then [] else [a[0]], Kept(a[1..]), Kept(b));
    }
  }

  lemma {:induction false} CountsConcat(a: seq<Message>, b: seq<Message>)
    ensures ToolCount(a + b) == Sum(ToolCount(a), ToolCount(b))
    ensures EmptyAssistants(a + b) == Sum(EmptyAssistants(a), EmptyAssistants(b))
  {
    if a == [] {
      assert a + b == b;
    } else {
      CountsConcat(a[1..], b);
      assert (a + b)[1..] == a[1..] + b;
    }
  }

  lemma {:induction false} ToolsOnly(ms: seq<Message>)
    requires forall i | 0 <= i < |ms| :: ms[i].Tool?
    ensures Kept(ms) == [] && ToolCount(ms) == |ms|
  {
    if ms != [] {
      ToolsOnly(ms[1..]);
    }
  }

  lemma {:induction false} PlainOnly(ms: seq<Message>)
    requires Plain(ms)
    ensures Kept(ms) == ms && ToolCount(ms) == 0
  {
    if ms != [] {
      PlainOnly(ms[1..]);
      assert ms == [ms[0]] + ms[1..];
    }
  }

  lemma {:induction false} Single(m: Message)
    ensures Kept([m]) == if m.Tool? || IsEmptyAssistant(m) then [] else [m]
    ensures ToolCount([m]) == if m.Tool? then 1 else 0
    ensures EmptyAssistants([m]) == if IsEmptyAssistant(m) then 1 else 0
  {
    assert [m][1..] == [];
  }

  /** A segment without assistants splits into its tool messages and the rest, each in order. */
  lemma {:induction false} SegmentSplits(ms: seq<Message>)
    requires forall i | 0 <= i < |ms| :: !ms[i].Assistant?
    ensures Kept(ms) == Others(ms)
    ensures ToolCount(ms) == |Tools(ms)| && EmptyAssistants(ms) == 0
  {
    if ms != [] {
      var init, last := ms[..|ms| - 1], ms[|ms| - 1];
      SegmentSplits(init);
      Single(last);
      KeptConcat(init, [last]);
      CountsConcat(init, [last]);
      assert ms == init + [last];
    }
  }

  lemma {:induction false} SegmentPermutes(ms: seq<Message>)
    ensures multiset(ms) == multiset(Tools(ms)) + multiset(Others(ms))
  {
    if ms != [] {
      SegmentPermutes(ms[..|ms| - 1]);
      assert ms == ms[..|ms| - 1] + [ms[|ms| - 1]];
    }
  }

  lemma {:induction false} GroupCounts(m: Message, results: seq<Message>, plain: seq<Message>)
    requires HasCalls(m) && Plain(plain) && forall i | 0 <= i < |results| :: results[i].Tool?
    ensures Kept([m] + results + plain) == [m] + plain
    ensures ToolCount([m] + results + plain) == |results|
  {
    ToolsOnly(results);
    PlainOnly(plain);
    Single(m);
    KeptConcat([m] + results, plain);
    KeptConcat([m], results);
    CountsConcat([m] + results, plain);
    CountsConcat([m], results);
    assert [m] + [] + plain == [m] + plain;
  }

  /** One assistant's group keeps the other messages and accounts for every tool message. */
  lemma {:induction false} GroupConserves(m: Message, segment: seq<Message>)
    requires HasCalls(m) && forall i | 0 <= i < |segment| :: !segment[i].Assistant?
    ensures var r := RepairSegment(m, segment);
      && Kept(r.messages) == [m] + Kept(segment)
      && ToolCount(r.messages) + r.report.droppedOrphanTool == ToolCount(segment) + r.report.insertedMissingToolResult
      && r.report.droppedEmptyAssistant == 0
  {
    SegmentSplits(segment);
    OthersPlain(segment);
    var ids, tools := CallIds(m.toolCalls), Tools(segment);
    PairKeepsIds(ids, tools);
    PairCounts(ids, tools);
    GroupCounts(m, Pair(ids, tools).results, Others(segment));
  }

  lemma {:induction false} NothingConserves()
    ensures Kept([]) == [] && ToolCount([]) == 0 == EmptyAssistants([])
  {
  }

  /** The same for the messages one step settles. */
  lemma {:induction false} StepConserves(ms: seq<Message>)
    requires ms != []
    ensures var s := FirstStep(ms);
      var front, out, report := ms[..|ms| - |s.later|], s.repaired.messages, s.repaired.report;
      && ms[|ms| - |s.later|..] == s.later
      && Kept(out) == Kept(front)
      && ToolCount(out) + report.droppedOrphanTool == ToolCount(front) + report.insertedMissingToolResult
      && report.droppedEmptyAssistant == EmptyAssistants(front)
  {
    hide Kept, ToolCount, EmptyAssistants, RepairSegment;
    var m, rest := ms[0], ms[1..];
    Single(m);
    NothingConserves();
    if HasCalls(m) {
      var segment := rest[..SegmentLength(rest)];
      GroupConserves(m, segment);
      SegmentSplits(segment);
      KeptConcat([m], segment);
      CountsConcat([m], segment);
      assert ms[..1 + |segment|] == [m] + segment;
    } else {
      assert ms[..1] == [m];
    }
  }

  /** Everything but tool messages and empty assistants survives, in its old order; dropped, inserted and remaining
      tool messages add up; every empty assistant is counted. */
  lemma {:induction false} RepairConserves(ms: seq<Message>)
    ensures Kept(Repair(ms).messages) == Kept(ms)
    ensures var report := Repair(ms).report;
      && ToolCount(Repair(ms).messages) + report.droppedOrphanTool == ToolCount(ms) + report.insertedMissingToolResult
      && report.droppedEmptyAssistant == EmptyAssistants(ms)
    decreases |ms|
  {
    hide Kept, ToolCount, EmptyAssistants, FirstStep;
    if ms == [] {
      NothingConserves();
    } else {
      var s := FirstStep(ms);
      var front := ms[..|ms| - |s.later|];
      RepairConserves(s.later);
      StepConserves(ms);
      KeptConcat(front, s.later);
      CountsConcat(front, s.later);
      KeptConcat(s.repaired.messages, Repair(s.later).messages);
      CountsConcat(s.repaired.messages, Repair(s.later).messages);
      assert ms == front + s.later;
    }
  }

  lemma {:induction false} GroupPermutes(m: Message, segment: seq<Message>)
    requires m.Assistant? && !RepairSegment(m, segment).report.Changed()
    ensures multiset(RepairSegment(m, segment).messages) == multiset([m] + segment)
  {
    var p := Pair(CallIds(m.toolCalls), Tools(segment));
    assert p.missing == [] && p.leftover == [];
    SegmentPermutes(segment);
    PairPermutes(CallIds(m.toolCalls), Tools(segment));
  }

  lemma {:induction false} OneMessagePermutes(ms: seq<Message>)
    requires ms != [] && !HasCalls(ms[0]) && !FirstStep(ms).repaired.report.Changed()
    ensures FirstStep(ms) == Step(Repaired([ms[0]], UNCHANGED), ms[1..])
  {
  }

  lemma {:induction false} StepPermutes(ms: seq<Message>)
    requires ms != [] && !FirstStep(ms).repaired.report.Changed()
    ensures var s := FirstStep(ms);
      exists front :: ms == front + s.later && multiset(s.repaired.messages) == multiset(front)
  {
    var m, rest := ms[0], ms[1..];
    if HasCalls(m) {
      var n := SegmentLength(rest);
      GroupPermutes(m, rest[..n]);
      assert ms == ([m] + rest[..n]) + rest[n..];
    } else {
      OneMessagePermutes(ms);
      assert ms == [m] + rest;
    }
  }

  /** When nothing had to be dropped or made up, sanitizing only reorders. */
  lemma {:induction false} UnchangedMeansPermutation(ms: seq<Message>)
    requires !Repair(ms).report.Changed()
    ensures multiset(Repair(ms).messages) == multiset(ms)
    decreases |ms|
  {
    if ms != [] {
      var s := FirstStep(ms);
      StepPermutes(ms);
      var front :| ms == front + s.later && multiset(s.repaired.messages) == multiset(front);
      UnchangedMeansPermutation(s.later);
    }
  }

  // ---- each assistant's results, in the whole history ----

  /** An assistant with calls, and what comes after it. */
  datatype Exchange = Exchange(caller: Message, after: seq<Message>)

  function Exchanges(ms: seq<Message>): seq<Exchange> {
    if ms == [] then []
    else (if ms[0].Assistant? && ms[0].toolCalls != [] then [Exchange(ms[0], ms[1..])] else []) + Exchanges(ms[1..])
  }

  /** The results for an id that come before the next assistant. */
  function Arrived(ms: seq<Message>, id: string): seq<Message> {
    if ms == [] || ms[0].Assistant? then []
    else (if ms[0].Tool? && ms[0].toolCallId == id then [ms[0]] else []) + Arrived(ms[1..], id)
  }

  function Expected(caller: Message, id: string): nat
    requires caller.Assistant?
  {
    Count(seq(|caller.toolCalls|, i requires 0 <= i < |caller.toolCalls| => caller.toolCalls[i].id), id)
  }

  /** For every id the repaired exchange has the oldest results that arrived, as many as were expected, and repairs for
      the missing ones. */
  ghost predicate Answered(given: Exchange, repaired: Exchange) {
    && given.caller == repaired.caller && given.caller.Assistant?
    && forall id ::
         var have, want := Arrived(given.after, id), Expected(given.caller, id);
         Arrived(repaired.after, id) == FirstN(have, want) + Repairs(id, Monus(want, |have|))
  }

  ghost predicate AllAnswered(given: seq<Exchange>, repaired: seq<Exchange>) {
    |given| == |repaired| && forall j | 0 <= j < |given| :: Answered(given[j], repaired[j])
  }

  predicate NoAssistant(ms: seq<Message>) {
    forall i | 0 <= i < |ms| :: !ms[i].Assistant?
  }

  lemma {:induction false} ExchangesSkip(front: seq<Message>, rest: seq<Message>)
    requires NoAssistant(front)
    ensures Exchanges(front + rest) == Exchanges(rest)
  {
    if front == [] {
      assert front + rest == rest;
    } else {
      assert (front + rest)[0] == front[0] && (front + rest)[1..] == front[1..] + rest;
      ExchangesSkip(front[1..], rest);
    }
  }

  lemma {:induction false} ArrivedAcross(front: seq<Message>, rest: seq<Message>, id: string)
    requires NoAssistant(front)
    ensures Arrived(front + rest, id) == ForId(front, id) + Arrived(rest, id)
  {
    if front == [] {
      assert front + rest == rest;
    } else {
      assert (front + rest)[0] == front[0] && (front + rest)[1..] == front[1..] + rest;
      ArrivedAcross(front[1..], rest, id);
      Sequences.Associate(if front[0].Tool? && front[0].toolCallId == id then [front[0]] else [],
                          ForId(front[1..], id), Arrived(rest, id));
    }
  }

  lemma {:induction false} NothingArrives(ms: seq<Message>, id: string)
    requires WellFormed(ms)
    ensures Arrived(ms, id) == []
  {
    if ms != [] && !ms[0].Assistant? {
      NothingArrives(ms[1..], id);
    }
  }

  /** Only a segment's tool messages can be results. */
  lemma {:induction false} ForIdOfSegment(ms: seq<Message>, id: string)
    ensures ForId(Tools(ms), id) == ForId(ms, id) && ForId(Others(ms), id) == []
  {
    if ms != [] {
      var init, last := ms[..|ms| - 1], ms[|ms| - 1];
      ForIdOfSegment(init, id);
      assert ms == init + [last];
      ForIdConcat(init, [last], id);
      ForIdConcat(Tools(init), if last.Tool? then [last] else [], id);
      ForIdConcat(Others(init), if last.Tool? then [] else [last], id);
      ForIdAlone(last, id);
    }
  }

  lemma {:induction false} OthersNoAssistant(ms: seq<Message>)
    requires NoAssistant(ms)
    ensures NoAssistant(Others(ms))
  {
    if ms != [] {
      OthersNoAssistant(ms[..|ms| - 1]);
    }
  }

  /** The exchange of one assistant: its segment in, its results and the other messages out. */
  lemma {:induction false} SegmentAnswered(m: Message, segment: seq<Message>, given: seq<Message>, later: seq<Message>)
    requires HasCalls(m) && NoAssistant(segment) && (given != [] ==> given[0].Assistant?) && WellFormed(later)
    ensures var results := Pair(CallIds(m.toolCalls), Tools(segment)).results;
      Answered(Exchange(m, segment + given), Exchange(m, results + Others(segment) + later))
  {
    var ids := CallIds(m.toolCalls);
    var results := Pair(ids, Tools(segment)).results;
    PairKeepsIds(ids, Tools(segment));
    OthersNoAssistant(segment);
    forall id ensures
      && Arrived(segment + given, id) == ForId(Tools(segment), id)
      && Arrived(results + Others(segment) + later, id) == ForId(results, id)
      && Served(id, ForId(Tools(segment), id), Count(ids, id), Pair(ids, Tools(segment)))
    {
      ArrivedAcross(segment, given, id);
      ForIdOfSegment(segment, id);
      ArrivedAcross(results + Others(segment), later, id);
      ForIdConcat(results, Others(segment), id);
      NothingArrives(later, id);
      PairPerId(ids, Tools(segment), id);
    }
    assert seq(|m.toolCalls|, i requires 0 <= i < |m.toolCalls| => m.toolCalls[i].id) == ids;
  }

  lemma {:induction false} GroupExchanges(m: Message, results: seq<Message>, others: seq<Message>, later: seq<Message>)
    requires HasCalls(m) && NoAssistant(results) && NoAssistant(others)
    ensures Exchanges([m] + results + others + later) == [Exchange(m, results + others + later)] + Exchanges(later)
  {
    var all := [m] + results + others + later;
    assert all[0] == m && all[1..] == (results + others) + later;
    ExchangesSkip(results + others, later);
  }

  lemma {:induction false} AllAnsweredPush(first: Exchange, second: Exchange, given: seq<Exchange>,
                                            repaired: seq<Exchange>)
    requires Answered(first, second) && AllAnswered(given, repaired)
    ensures AllAnswered([first] + given, [second] + repaired)
  {
    hide Answered;
  }

  /** The exchanges of a history that starts with an assistant with calls. */
  lemma {:induction false} CallerKeepsResults(m: Message, segment: seq<Message>, given: seq<Message>)
    requires HasCalls(m) && NoAssistant(segment) && (given != [] ==> given[0].Assistant?)
    requires AllAnswered(Exchanges(given), Exchanges(Repair(given).messages))
    ensures AllAnswered(Exchanges([m] + segment + given),
                        Exchanges(RepairSegment(m, segment).messages + Repair(given).messages))
  {
    hide AllAnswered, Answered, Repair, Exchanges, Pair, Others, WellFormed;
    var later, results := Repair(given).messages, Pair(CallIds(m.toolCalls), Tools(segment)).results;
    RepairIsWellFormed(given);
    SegmentAnswered(m, segment, given, later);
    GroupExchanges(m, [], segment, given);
    assert [m] + [] + segment + given == [m] + segment + given && [] + segment + given == segment + given;
    PairKeepsIds(CallIds(m.toolCalls), Tools(segment));
    OthersNoAssistant(segment);
    GroupExchanges(m, results, Others(segment), later);
    AllAnsweredPush(Exchange(m, segment + given), Exchange(m, results + Others(segment) + later),
                    Exchanges(given), Exchanges(later));
  }

  lemma {:induction false} PlainExchanges(m: Message, later: seq<Message>)
    requires !HasCalls(m)
    ensures Exchanges([m] + later) == Exchanges(later) && Exchanges([] + later) == Exchanges(later)
  {
    assert ([m] + later)[1..] == later && [] + later == later;
  }

  lemma {:induction false} NothingToAnswer()
    ensures AllAnswered(Exchanges([]), Exchanges(Repair([]).messages))
  {
  }

  /** What the repair makes of an assistant with calls and the segment after it. */
  lemma {:induction false} RepairCaller(m: Message, rest: seq<Message>)
    requires HasCalls(m)
    ensures var n := SegmentLength(rest);
      Repair([m] + rest).messages == RepairSegment(m, rest[..n]).messages + Repair(rest[n..]).messages
  {
    hide RepairSegment;
    assert ([m] + rest)[1..] == rest;
  }

  lemma {:induction false} RepairPlain(m: Message, rest: seq<Message>)
    requires !HasCalls(m)
    ensures var r := Repair([m] + rest).messages;
      r == Repair(rest).messages || r == [m] + Repair(rest).messages
  {
    assert ([m] + rest)[1..] == rest && [] + Repair(rest).messages == Repair(rest).messages;
  }

  lemma {:induction false} CallerAnswered(m: Message, rest: seq<Message>)
    requires HasCalls(m)
    requires var given := rest[SegmentLength(rest)..]; AllAnswered(Exchanges(given), Exchanges(Repair(given).messages))
    ensures AllAnswered(Exchanges([m] + rest), Exchanges(Repair([m] + rest).messages))
  {
    hide AllAnswered, Exchanges, Repair, RepairSegment, HasCalls;
    var n := SegmentLength(rest);
    RepairCaller(m, rest);
    CallerKeepsResults(m, rest[..n], rest[n..]);
    assert [m] + rest[..n] + rest[n..] == [m] + rest;
  }

  lemma {:induction false} PlainAnswered(m: Message, rest: seq<Message>)
    requires !HasCalls(m) && AllAnswered(Exchanges(rest), Exchanges(Repair(rest).messages))
    ensures AllAnswered(Exchanges([m] + rest), Exchanges(Repair([m] + rest).messages))
  {
    hide AllAnswered, Exchanges, Repair, HasCalls;
    RepairPlain(m, rest);
    PlainExchanges(m, rest);
    PlainExchanges(m, Repair(rest).messages);
  }

  /** Every assistant with calls survives, in order, and for each of its ids the real results are kept and only the
      missing ones made up. */
  lemma {:induction false} RepairKeepsResults(ms: seq<Message>)
    ensures AllAnswered(Exchanges(ms), Exchanges(Repair(ms).messages))
    decreases |ms|
  {
    hide AllAnswered, Exchanges, Repair, HasCalls;
    if ms == [] {
      NothingToAnswer();
    } else {
      var m, rest := ms[0], ms[1..];
      assert ms == [m] + rest;
      if HasCalls(m) {
        RepairKeepsResults(rest[SegmentLength(rest)..]);
        CallerAnswered(m, rest);
      } else {
        RepairKeepsResults(rest);
        PlainAnswered(m, rest);
      }
    }
  }
}
