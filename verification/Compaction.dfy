/** The compaction retry loop: summarise a history, dropping its oldest items while the model says it is too long. */
module Compaction {
  import opened Wrappers
  import opened Protocol
  import opened History
  import opened MiddleTruncation
  import Sequences

  const COMPACT_TOOL_OUTPUT_MAX_TOKENS: u64 := 4_000

  predicate IsPreamble(m: Message) {
    m.System? || m.Developer?
  }

  // ---- preparing the history ----

  function ShortenedOutput(m: Message): Message {
    if m.Tool? && ApproxTokenCount(m.output) > COMPACT_TOOL_OUTPUT_MAX_TOKENS
    then Tool(m.toolCallId, TruncatedMiddle(m.output, COMPACT_TOOL_OUTPUT_MAX_TOKENS)) else m
  }

  function Shortened(ms: seq<Message>): (r: seq<Message>)
    ensures |r| == |ms|
    ensures forall i | 0 <= i < |ms| :: r[i] == ShortenedOutput(ms[i])
  {
    seq(|ms|, i requires 0 <= i < |ms| => ShortenedOutput(ms[i]))
  }

  lemma {:induction false} ShortenedResults(calls: seq<ToolCall>, ms: seq<Message>, shorter: seq<Message>)
    requires |calls| < |ms| == |shorter| && ResultsMatch(calls, ms[1..|calls| + 1])
    requires forall i | 0 <= i < |ms| :: SameButOutput(ms[i], shorter[i])
    ensures ResultsMatch(calls, shorter[1..|calls| + 1])
  {
    var before, after := ms[1..|calls| + 1], shorter[1..|calls| + 1];
    forall i | 0 <= i < |calls| ensures after[i].Tool? && after[i].toolCallId == calls[i].id {
      assert before[i] == ms[i + 1] && after[i] == shorter[i + 1] && SameButOutput(ms[i + 1], shorter[i + 1]);
    }
    assert forall i | 0 <= i < |calls| :: after[i].Tool? && after[i].toolCallId == calls[i].id;
  }

  /** Shortening tool outputs leaves every pairing as it was. */
  lemma {:induction false} ShortenedWellFormed(ms: seq<Message>, shorter: seq<Message>)
    requires WellFormed(ms) && |shorter| == |ms|
    requires forall i | 0 <= i < |ms| :: SameButOutput(ms[i], shorter[i])
    ensures WellFormed(shorter)
    decreases |ms|
  {
    if ms != [] {
      var n := if HasCalls(ms[0]) then |ms[0].toolCalls| + 1 else 1;
      assert SameButOutput(ms[0], shorter[0]);
      forall i | 0 <= i < |ms[n..]| ensures SameButOutput(ms[n..][i], shorter[n..][i]) {
        assert SameButOutput(ms[n + i], shorter[n + i]);
      }
      ShortenedWellFormed(ms[n..], shorter[n..]);
      if HasCalls(ms[0]) {
        ShortenedResults(ms[0].toolCalls, ms, shorter);
      }
    }
  }

  /** What shortening does to one message: a tool output of at most 16,000 bytes stays, and so does every other message;
      a longer output keeps its longest prefix and suffix of at most 8,000 bytes each around a marker. */
  lemma {:induction false} ShortenedMessage(ms: seq<Message>, i: nat) returns (p: nat, q: nat)
    requires i < |ms|
    ensures var m, r := ms[i], Shortened(ms)[i];
      && (!m.Tool? || ByteLen(m.output) <= 16_000 ==> r == m)
      && (m.Tool? && ByteLen(m.output) > 16_000 ==>
            && r.Tool? && r.toolCallId == m.toolCallId
            && LongestPrefix(m.output, p, 8_000) && LongestSuffix(m.output, q, 8_000)
            && CutAround(r.output, m.output, p, q, CeilTokens(ByteLen(m.output) - 16_000)))
  {
    p, q := 0, 0;
    if ms[i].Tool? {
      hide TruncatedMiddle, ByteLen, LongestPrefix, LongestSuffix, CutAround;
      p, q := TruncatedText(ms[i].output, COMPACT_TOOL_OUTPUT_MAX_TOKENS);
    }
  }

  predicate SameButOutput(a: Message, b: Message) {
    a == b || (a.Tool? && b.Tool? && a.toolCallId == b.toolCallId)
  }

  method PrepareMessages(messages: seq<Message>) returns (out: seq<Message>)
    ensures out == Shortened(Repair(messages).messages) && WellFormed(out)
  {
    var report;
    out, report := Sanitize(messages);
    ghost var sanitized := out;
    for i := 0 to |out|
      invariant |out| == |sanitized|
      invariant forall j | 0 <= j < |out| :: out[j] == if j < i then ShortenedOutput(sanitized[j]) else sanitized[j]
    {
      if out[i].Tool? {
        if ApproxTokenCount(out[i].output) > COMPACT_TOOL_OUTPUT_MAX_TOKENS {
          var shorter := TruncateMiddle(out[i].output, COMPACT_TOOL_OUTPUT_MAX_TOKENS);
          out := out[i := Tool(out[i].toolCallId, shorter)];
        }
      }
    }
    assert out == Shortened(sanitized);
    RepairIsWellFormed(messages);
    ShortenedWellFormed(sanitized, out);
  }

  // ---- dropping the oldest item ----

  function FirstItem(ms: seq<Message>): (i: nat)
    ensures i <= |ms|
    ensures i < |ms| ==> !ms[i].System? && !ms[i].Developer?
    ensures forall j | 0 <= j < i :: ms[j].System? || ms[j].Developer?
  {
    if ms == [] || !IsPreamble(ms[0]) then 0 else 1 + FirstItem(ms[1..])
  }

  /** Drops the tool messages at the front that answer one of `ids`, up to the first other message. */
  function WithoutResults(ms: seq<Message>, ids: set<string>): seq<Message> {
    if ms == [] || !ms[0].Tool? then ms
    else (if ms[0].toolCallId in ids then [] else [ms[0]]) + WithoutResults(ms[1..], ids)
  }

  function IdSet(calls: seq<ToolCall>): set<string> {
    set i | 0 <= i < |calls| :: calls[i].id
  }

  /** Position of the first assistant that made the call `id`, or the length. */
  function CallerOf(ms: seq<Message>, id: string): (i: nat)
    ensures i <= |ms|
    ensures i < |ms| ==> ms[i].Assistant?
  {
    if ms == [] || (ms[0].Assistant? && id in IdSet(ms[0].toolCalls)) then 0 else 1 + CallerOf(ms[1..], id)
  }

  /** Removes the message at `i` and, if it made calls, the results right after it. */
  function WithoutGroup(ms: seq<Message>, i: nat): seq<Message>
    requires i < |ms|
  {
    ms[..i] + if HasCalls(ms[i]) then WithoutResults(ms[i + 1..], IdSet(ms[i].toolCalls)) else ms[i + 1..]
  }

  /** The history without its oldest item that is neither system nor developer text; nothing when there is none. */
  function DropOldest(ms: seq<Message>): Option<seq<Message>> {
    var i := FirstItem(ms);
    if i == |ms| then None
    else if ms[i].Tool? then
      var rest := ms[..i] + ms[i + 1..];
      var j := CallerOf(rest, ms[i].toolCallId);
      Some(if j < |rest| then WithoutGroup(rest, j) else rest)
    else Some(WithoutGroup(ms, i))
  }

  lemma {:induction false} ResultStep(out: seq<Message>, idx: nat, ids: set<string>)
    requires idx < |out| && out[idx].Tool?
    ensures var shorter := out[..idx] + out[idx + 1..];
      out[..idx] + WithoutResults(out[idx..], ids)
      == if out[idx].toolCallId in ids then shorter[..idx] + WithoutResults(shorter[idx..], ids)
         else out[..idx + 1] + WithoutResults(out[idx + 1..], ids)
  {
    assert out[idx..][1..] == out[idx + 1..];
    if out[idx].toolCallId in ids {
      var shorter := out[..idx] + out[idx + 1..];
      assert shorter[..idx] == out[..idx] && shorter[idx..] == out[idx + 1..];
    } else {
      assert out[..idx + 1] == out[..idx] + [out[idx]];
    }
  }

  method RemoveMatchingResults(messages: seq<Message>, start: nat, calls: seq<ToolCall>) returns (out: seq<Message>)
    requires start <= |messages|
    ensures out == messages[..start]
      + if calls == [] then messages[start..] else WithoutResults(messages[start..], IdSet(calls))
  {
    out := messages;
    assert messages == messages[..start] + messages[start..];
    if calls == [] {
      return;
    }
    var expected, idx := IdSet(calls), start;
    ghost var target := messages[..start] + WithoutResults(messages[start..], expected);
    while idx < |out| && out[idx].Tool?
      invariant start <= idx <= |out| && out[..idx] + WithoutResults(out[idx..], expected) == target
      decreases |out| - idx
    {
      ResultStep(out, idx, expected);
      if out[idx].toolCallId in expected {
        out := out[..idx] + out[idx + 1..];
      } else {
        idx := idx + 1;
      }
    }
    assert out == out[..idx] + out[idx..];
  }

  /** Removes the message at `i`, then the results of its calls. */
  method RemoveGroup(messages: seq<Message>, i: nat) returns (out: seq<Message>)
    requires i < |messages|
    ensures out == WithoutGroup(messages, i)
  {
    var removed := messages[i];
    out := messages[..i] + messages[i + 1..];
    assert out[..i] == messages[..i] && out[i..] == messages[i + 1..];
    if HasCalls(removed) {
      out := RemoveMatchingResults(out, i, removed.toolCalls);
    }
  }

  method DropOldestItem(messages: seq<Message>) returns (dropped: bool, out: seq<Message>)
    ensures (if dropped then Some(out) else None) == DropOldest(messages)
    ensures !dropped ==> out == messages
  {
    var i := FirstItem(messages);
    if i == |messages| {
      return false, messages;
    }
    dropped := true;
    if messages[i].Tool? {
      out := messages[..i] + messages[i + 1..];
      var j := CallerOf(out, messages[i].toolCallId);
      if j < |out| {
        out := RemoveGroup(out, j);
      }
    } else {
      out := RemoveGroup(messages, i);
    }
  }

  // ---- what a drop keeps ----

  function Preamble(ms: seq<Message>): seq<Message> {
    if ms == [] then [] else (if ms[0].System? || ms[0].Developer? then [ms[0]] else []) + Preamble(ms[1..])
  }

  lemma {:induction false} PreambleConcat(a: seq<Message>, b: seq<Message>)
    ensures Preamble(a + b) == Preamble(a) + Preamble(b)
  {
    if a == [] {
      assert a + b == b;
    } else {
      PreambleConcat(a[1..], b);
      assert (a + b)[0] == a[0] && (a + b)[1..] == a[1..] + b;
      Sequences.Associate(if IsPreamble(a[0]) then [a[0]] else [], Preamble(a[1..]), Preamble(b));
    }
  }

  lemma {:induction false} WithoutResultsKeeps(ms: seq<Message>, ids: set<string>)
    ensures Preamble(WithoutResults(ms, ids)) == Preamble(ms)
    ensures |WithoutResults(ms, ids)| <= |ms|
  {
    if ms != [] && ms[0].Tool? {
      WithoutResultsKeeps(ms[1..], ids);
      var rest := WithoutResults(ms[1..], ids);
      assert ([ms[0]] + rest)[1..] == rest && [] + rest == rest;
    }
  }

  lemma {:induction false} PreambleAround(ms: seq<Message>, i: nat)
    requires i < |ms| && !IsPreamble(ms[i])
    ensures Preamble(ms) == Preamble(ms[..i]) + Preamble(ms[i + 1..])
  {
    var rest := ms[i + 1..];
    PreambleConcat(ms[..i], [ms[i]] + rest);
    assert ms == ms[..i] + ([ms[i]] + rest) && ([ms[i]] + rest)[1..] == rest;
  }

  lemma {:induction false} WithoutGroupKeeps(ms: seq<Message>, i: nat)
    requires i < |ms| && !IsPreamble(ms[i])
    ensures Preamble(WithoutGroup(ms, i)) == Preamble(ms) && |WithoutGroup(ms, i)| < |ms|
  {
    hide Preamble, WithoutResults, IdSet;
    var rest := ms[i + 1..];
    var left := if HasCalls(ms[i]) then WithoutResults(rest, IdSet(ms[i].toolCalls)) else rest;
    if HasCalls(ms[i]) {
      WithoutResultsKeeps(rest, IdSet(ms[i].toolCalls));
    }
    PreambleConcat(ms[..i], left);
    PreambleAround(ms, i);
  }

  lemma {:induction false} AllPreamble(ms: seq<Message>)
    requires forall i | 0 <= i < |ms| :: IsPreamble(ms[i])
    ensures Preamble(ms) == ms
  {
    if ms != [] {
      AllPreamble(ms[1..]);
    }
  }

  /** On any history a drop removes at least one item and no system or developer text; it stops only when nothing
      else is left. */
  lemma {:induction false} DropKeepsPreamble(ms: seq<Message>)
    ensures var r := DropOldest(ms);
      if r.Some? then Preamble(r.value) == Preamble(ms) && |r.value| < |ms| else Preamble(ms) == ms
  {
    var i := FirstItem(ms);
    if i == |ms| {
      AllPreamble(ms);
    } else if ms[i].Tool? {
      var rest := ms[..i] + ms[i + 1..];
      WithoutGroupKeeps(ms, i);
      var j := CallerOf(rest, ms[i].toolCallId);
      if j < |rest| {
        WithoutGroupKeeps(rest, j);
      }
    } else {
      WithoutGroupKeeps(ms, i);
    }
  }

  // ---- a drop from a well-formed history ----

  lemma {:induction false} WithoutExactResults(calls: seq<ToolCall>, results: seq<Message>, rest: seq<Message>,
                                               ids: set<string>)
    requires ResultsMatch(calls, results) && (rest != [] ==> !rest[0].Tool?)
    requires forall i | 0 <= i < |calls| :: calls[i].id in ids
    ensures WithoutResults(results + rest, ids) == rest
    decreases |calls|
  {
    if calls == [] {
      assert results + rest == rest;
    } else {
      assert (results + rest)[1..] == results[1..] + rest;
      WithoutExactResults(calls[1..], results[1..], rest, ids);
    }
  }

  lemma {:induction false} AfterPreamble(ms: seq<Message>, i: nat)
    requires WellFormed(ms) && i <= |ms| && forall j | 0 <= j < i :: IsPreamble(ms[j])
    ensures WellFormed(ms[i..])
  {
    if i > 0 {
      AfterPreamble(ms[1..], i - 1);
      assert ms[1..][i - 1..] == ms[i..];
    }
  }

  lemma {:induction false} PreambleInFront(front: seq<Message>, rest: seq<Message>)
    requires WellFormed(rest) && forall j | 0 <= j < |front| :: IsPreamble(front[j])
    ensures WellFormed(front + rest)
  {
    PlainThenWellFormed(front, rest);
  }

  lemma {:induction false} HeadResults(ms: seq<Message>)
    requires ms != [] && WellFormed(ms) && HasCalls(ms[0])
    ensures var n := |ms[0].toolCalls| + 1;
      n <= |ms| && WellFormed(ms[n..]) && WithoutResults(ms[1..], IdSet(ms[0].toolCalls)) == ms[n..]
  {
    var calls := ms[0].toolCalls;
    var n := |calls| + 1;
    assert ms[1..] == ms[1..n] + ms[n..];
    assert forall i | 0 <= i < |calls| :: calls[i].id in IdSet(calls);
    WithoutExactResults(calls, ms[1..n], ms[n..], IdSet(calls));
  }

  /** How many messages a drop takes from a well-formed history: an item, and its results if it made calls. */
  function ItemLength(m: Message): nat {
    if HasCalls(m) then |m.toolCalls| + 1 else 1
  }

  lemma {:induction false} WithoutWellFormedGroup(ms: seq<Message>, i: nat)
    requires i < |ms| && WellFormed(ms[i..])
    ensures i + ItemLength(ms[i]) <= |ms| && WellFormed(ms[i + ItemLength(ms[i])..])
    ensures WithoutGroup(ms, i) == ms[..i] + ms[i + ItemLength(ms[i])..]
  {
    var tail, n := ms[i..], ItemLength(ms[i]);
    assert tail[0] == ms[i] && tail[1..] == ms[i + 1..];
    if HasCalls(ms[i]) {
      HeadResults(tail);
      assert tail[n..] == ms[i + n..];
    }
  }

  lemma {:induction false} FirstNotTool(ms: seq<Message>)
    requires ms != [] && WellFormed(ms)
    ensures !ms[0].Tool?
  {
  }

  lemma {:induction false} DropRemovesOneItem(ms: seq<Message>)
    requires WellFormed(ms) && FirstItem(ms) < |ms|
    ensures var i := FirstItem(ms);
      && i + ItemLength(ms[i]) <= |ms| && WellFormed(ms[i + ItemLength(ms[i])..])
      && DropOldest(ms) == Some(ms[..i] + ms[i + ItemLength(ms[i])..])
  {
    var i := FirstItem(ms);
    AfterPreamble(ms, i);
    WithoutWellFormedGroup(ms, i);
    FirstNotTool(ms[i..]);
    assert ms[i..][0] == ms[i];
  }

  /** From a well-formed history a drop removes exactly one message, with exactly its results if it made calls; what
      is left is well formed. */
  lemma {:induction false} DropKeepsWellFormed(ms: seq<Message>)
    requires WellFormed(ms) && DropOldest(ms).Some?
    ensures var i := FirstItem(ms);
      i + ItemLength(ms[i]) <= |ms| && DropOldest(ms) == Some(ms[..i] + ms[i + ItemLength(ms[i])..])
    ensures WellFormed(DropOldest(ms).value)
  {
    var i := FirstItem(ms);
    DropRemovesOneItem(ms);
    PreambleInFront(ms[..i], ms[i + ItemLength(ms[i])..]);
  }

  // ---- the retry loop ----

  /** What the model answers to one request. */
  datatype Answer = Summary(content: Option<string>) | OtherReply | ContextExceeded | Failed(reason: string)

  datatype Outcome = Summarised(text: string) | GaveUp(answer: Answer)

  function Request(working: seq<Message>, prompt: string): seq<Message> {
    working + [User(Text(prompt), false)]
  }

  /** The history after `k` drops. */
  function Dropped(ms: seq<Message>, k: nat): Option<seq<Message>> {
    if k == 0 then Some(ms)
    else
      var r := Dropped(ms, k - 1);
      if r.Some? then DropOldest(r.value) else None
  }

  /** Every history the loop can reach by dropping pairs its calls and keeps its preamble. */
  lemma {:induction false} DroppedWellFormed(ms: seq<Message>, k: nat)
    requires WellFormed(ms) && Dropped(ms, k).Some?
    ensures var d := Dropped(ms, k).value;
      WellFormed(d) && Preamble(d) == Preamble(ms) && |d| + k <= |ms|
  {
    if k > 0 {
      DroppedWellFormed(ms, k - 1);
      var d := Dropped(ms, k - 1).value;
      DropKeepsWellFormed(d);
      DropKeepsPreamble(d);
    }
  }

  lemma {:induction false} PreambleShorter(ms: seq<Message>)
    ensures |Preamble(ms)| <= |ms|
  {
    if ms != [] {
      PreambleShorter(ms[1..]);
    }
  }

  /** Drops never eat into the preamble, so there are only so many of them. */
  lemma {:induction false} DroppedLength(ms: seq<Message>, k: nat)
    requires WellFormed(ms)
    ensures Dropped(ms, k).Some? ==> |Preamble(ms)| + k <= |ms|
  {
    if Dropped(ms, k).Some? {
      DroppedWellFormed(ms, k);
      PreambleShorter(Dropped(ms, k).value);
    }
  }

  lemma {:induction false} RequestWellFormed(working: seq<Message>, prompt: string)
    requires WellFormed(working)
    ensures WellFormed(Request(working, prompt))
    decreases |working|
  {
    var request := Request(working, prompt);
    if working == [] {
      assert request[1..] == [];
    } else {
      var n := if HasCalls(working[0]) then |working[0].toolCalls| + 1 else 1;
      RequestWellFormed(working[n..], prompt);
      assert request[0] == working[0] && request[n..] == Request(working[n..], prompt);
      if HasCalls(working[0]) {
        assert request[1..n] == working[1..n];
      }
    }
  }

  /** A request is the history after `k` drops, followed by the prompt. */
  ghost predicate IsRequest(prepared: seq<Message>, prompt: string, k: nat, request: seq<Message>) {
    Dropped(prepared, k).Some? && request == Request(Dropped(prepared, k).value, prompt)
  }

  ghost predicate Sent(prepared: seq<Message>, prompt: string, requests: seq<seq<Message>>) {
    forall k | 0 <= k < |requests| :: IsRequest(prepared, prompt, k, requests[k])
  }

  lemma {:induction false} SentMore(prepared: seq<Message>, prompt: string, requests: seq<seq<Message>>,
                                    working: seq<Message>)
    requires Sent(prepared, prompt, requests) && Dropped(prepared, |requests|) == Some(working)
    ensures Sent(prepared, prompt, requests + [Request(working, prompt)])
  {
    assert IsRequest(prepared, prompt, |requests|, Request(working, prompt));
  }

  lemma {:induction false} DroppedStep(ms: seq<Message>, k: nat, working: seq<Message>)
    requires WellFormed(ms) && Dropped(ms, k) == Some(working)
    ensures Dropped(ms, k + 1) == DropOldest(working)
    ensures |Preamble(ms)| + k <= |ms|
  {
    DroppedLength(ms, k);
  }

  /** Every request of the loop is well formed: its calls and results pair up. */
  lemma {:induction false} SentWellFormed(prepared: seq<Message>, prompt: string, requests: seq<seq<Message>>, k: nat)
    requires WellFormed(prepared) && Sent(prepared, prompt, requests) && k < |requests|
    ensures WellFormed(requests[k])
    ensures requests[k][|requests[k]| - 1] == User(Text(prompt), false)
    ensures Preamble(requests[k]) == Preamble(prepared)
  {
    assert IsRequest(prepared, prompt, k, requests[k]);
    var d := Dropped(prepared, k).value;
    DroppedWellFormed(prepared, k);
    RequestWellFormed(d, prompt);
    PreambleConcat(d, [User(Text(prompt), false)]);
    assert [User(Text(prompt), false)][1..] == [];
  }

  /** How the loop ends when its last request gets `answer`. */
  function Concluded(answer: Answer): Outcome {
    match answer
    case Summary(content) => Summarised(if content.Some? then content.value else "")
    case OtherReply => Summarised("")
    case ContextExceeded => GaveUp(answer)
    case Failed(_) => GaveUp(answer)
  }

  /** The requests sent so far, and the history the next one is made of. */
  ghost predicate Retrying(prepared: seq<Message>, prompt: string, requests: seq<seq<Message>>, working: seq<Message>) {
    && Dropped(prepared, |requests|) == Some(working)
    && Sent(prepared, prompt, requests)
    && |Preamble(prepared)| + |requests| <= |prepared|
  }

  /** Sends the next request and, if the context was exceeded, drops what can be dropped. */
  method SendNext(ghost prepared: seq<Message>, prompt: string, ghost requests: seq<seq<Message>>,
                  working: seq<Message>, answer: Answer)
    returns (request: seq<Message>, dropped: bool, shorter: seq<Message>)
    requires WellFormed(prepared) && Retrying(prepared, prompt, requests, working)
    ensures Sent(prepared, prompt, requests + [request])
    ensures dropped ==> answer.ContextExceeded? && Retrying(prepared, prompt, requests + [request], shorter)
    ensures !dropped && answer.ContextExceeded? ==> Dropped(prepared, |requests| + 1).None?
  {
    DroppedStep(prepared, |requests|, working);
    SentMore(prepared, prompt, requests, working);
    request, dropped, shorter := Request(working, prompt), false, working;
    if answer.ContextExceeded? {
      dropped, shorter := DropOldestItem(working);
      DroppedLength(prepared, |requests| + 1);
    }
  }

  /** What the loop comes to when the model answers its n-th call with `answers(n)`: the n-th request is the history
      after n drops; every answer but the last said that the context was exceeded; if the last one did too, nothing was
      left to drop. */
  ghost predicate Concludes(prepared: seq<Message>, prompt: string, answers: nat -> Answer, outcome: Outcome,
                            requests: seq<seq<Message>>) {
    && 1 <= |requests| <= |prepared| - |Preamble(prepared)| + 1
    && Sent(prepared, prompt, requests)
    && (forall k | 0 <= k < |requests| - 1 :: answers(k).ContextExceeded?)
    && (answers(|requests| - 1).ContextExceeded? ==> Dropped(prepared, |requests|).None?)
    && match answers(|requests| - 1)
       case Summary(Some(text)) => outcome == Summarised(text)
       case Summary(None) => outcome == Summarised("")
       case OtherReply => outcome == Summarised("")
       case ContextExceeded => outcome == GaveUp(ContextExceeded)
       case Failed(reason) => outcome == GaveUp(Failed(reason))
  }

  /** Runs the loop against a model that answers its n-th call with `answers(n)`, recording the requests sent. */
  method SummariseWithRetries(prepared: seq<Message>, prompt: string, answers: nat -> Answer)
    returns (outcome: Outcome, requests: seq<seq<Message>>)
    requires WellFormed(prepared)
    ensures Concludes(prepared, prompt, answers, outcome, requests)
  {
    hide DropOldest;
    var working := prepared;
    requests := [];
    DroppedLength(prepared, 0);
    while true
      invariant Retrying(prepared, prompt, requests, working)
      invariant forall k | 0 <= k < |requests| :: answers(k).ContextExceeded?
      decreases |prepared| - |requests|
    {
      var answer := answers(|requests|);
      var request, dropped, shorter := SendNext(prepared, prompt, requests, working, answer);
      requests := requests + [request];
      if !dropped {
        return Concluded(answer), requests;
      }
      working := shorter;
    }
  }

  method RunCompaction(messages: seq<Message>, prompt: string, answers: nat -> Answer)
    returns (outcome: Outcome, requests: seq<seq<Message>>)
    ensures WellFormed(Shortened(Repair(messages).messages))
    ensures Concludes(Shortened(Repair(messages).messages), prompt, answers, outcome, requests)
  {
    var prepared := PrepareMessages(messages);
    outcome, requests := SummariseWithRetries(prepared, prompt, answers);
  }
}
