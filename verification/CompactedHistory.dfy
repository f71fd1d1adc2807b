/** Rebuilding a compacted history: the newest user texts that fit a token budget, then the summary. */
module CompactedHistory {
  import opened Protocol
  import opened Summaries
  import opened MiddleTruncation
  import Sequences

  const COMPACT_USER_MESSAGE_MAX_TOKENS: u64 := 20_000

  // ---- selecting texts ----

  /** A text as it is kept: whole if it fits, else cut. */
  function Taken(text: string, remaining: u64): string {
    if ApproxTokenCount(text) <= remaining then text else TruncatedMiddle(text, remaining)
  }

  function LeftAfter(text: string, remaining: u64): u64 {
    if ApproxTokenCount(text) <= remaining then remaining - ApproxTokenCount(text) else 0
  }

  /** The newest texts within `remaining` tokens, oldest first; the first one that does not fit is cut and ends it. */
  function Selected(texts: seq<string>, remaining: u64): seq<string> {
    if texts == [] || remaining == 0 then []
    else
      var last := texts[|texts| - 1];
      Selected(texts[..|texts| - 1], LeftAfter(last, remaining)) + [Taken(last, remaining)]
  }

  /** The first text of the selection that is kept whole. */
  function SuffixStart(texts: seq<string>, remaining: u64): (k: nat)
    ensures k <= |texts|
  {
    if texts == [] || remaining == 0 || ApproxTokenCount(texts[|texts| - 1]) > remaining then |texts|
    else SuffixStart(texts[..|texts| - 1], remaining - ApproxTokenCount(texts[|texts| - 1]))
  }

  lemma {:induction false} ReversedPush<T>(older: seq<T>, x: T, newest: seq<T>)
    ensures older + [x] + Sequences.Reversed(newest) == older + Sequences.Reversed(newest + [x])
  {
  }

  lemma {:induction false} SelectedPush(init: seq<string>, last: string, remaining: u64, newer: seq<string>)
    requires remaining > 0
    ensures Selected(init + [last], remaining) == Selected(init, LeftAfter(last, remaining)) + [Taken(last, remaining)]
    ensures Selected(init + [last], remaining) + Sequences.Reversed(newer)
         == Selected(init, LeftAfter(last, remaining)) + Sequences.Reversed(newer + [Taken(last, remaining)])
  {
    assert (init + [last])[..|init|] == init;
    ReversedPush(Selected(init, LeftAfter(last, remaining)), Taken(last, remaining), newer);
  }

  method Take(message: string, remaining: u64) returns (text: string, left: u64)
    requires remaining > 0
    ensures text == Taken(message, remaining) && left == LeftAfter(message, remaining)
  {
    var tokens := ApproxTokenCount(message);
    if tokens <= remaining {
      return message, remaining - tokens;
    }
    text := TruncateMiddle(message, remaining);
    left := 0;
  }

  method SelectNewest(texts: seq<string>, budget: u64) returns (selected: seq<string>)
    ensures selected == Selected(texts, budget)
  {
    selected := [];
    var remaining: u64, i: nat := budget, |texts|;
    assert texts[..|texts|] == texts && Selected(texts, budget) + [] == Selected(texts, budget);
    while i > 0 && remaining > 0
      invariant i <= |texts|
      invariant Selected(texts, budget) == Selected(texts[..i], remaining) + Sequences.Reversed(selected)
      decreases i
    {
      i := i - 1;
      assert texts[..i + 1] == texts[..i] + [texts[i]];
      SelectedPush(texts[..i], texts[i], remaining, selected);
      var text;
      text, remaining := Take(texts[i], remaining);
      selected := selected + [text];
    }
    selected := Sequences.Reversed(selected);
  }

  function UserTexts(texts: seq<string>): (ms: seq<Message>)
    ensures forall m | m in ms :: m.User? && m.body.Text? && !m.hidden
  {
    if texts == [] then []
    else
      var before, last := UserTexts(texts[..|texts| - 1]), texts[|texts| - 1];
      before + (if IsBlank(last) then [] else [User(Text(last), false)])
  }

  /** The compacted history of some user texts and a summary. */
  function Compacted(prefix: string, texts: seq<string>, suffix: string): seq<Message> {
    UserTexts(Selected(texts, COMPACT_USER_MESSAGE_MAX_TOKENS)) + [User(Text(SummaryText(prefix, suffix)), false)]
  }

  method BuildCompactedUserHistory(prefix: string, texts: seq<string>, suffix: string) returns (out: seq<Message>)
    ensures out == Compacted(prefix, texts, suffix)
    ensures out != [] && out[|out| - 1] == User(Text(prefix + "\n" + suffix), false)
  {
    var selected := SelectNewest(texts, COMPACT_USER_MESSAGE_MAX_TOKENS);
    out := [];
    for i := 0 to |selected|
      invariant out == UserTexts(selected[..i])
    {
      assert selected[..i + 1][..i] == selected[..i];
      if !IsBlank(selected[i]) {
        out := out + [User(Text(selected[i]), false)];
      }
    }
    assert selected[..|selected|] == selected;
    out := out + [User(Text(SummaryText(prefix, suffix)), false)];
  }

  lemma {:induction false} UserTextsPush(init: seq<string>, last: string)
    ensures UserTexts(init + [last]) == UserTexts(init) + if IsBlank(last) then [] else [User(Text(last), false)]
    ensures UserTexts([]) == []
  {
    assert (init + [last])[..|init|] == init;
  }

  lemma {:induction false} UserTextsConcat(older: seq<string>, newer: seq<string>)
    ensures UserTexts(older + newer) == UserTexts(older) + UserTexts(newer)
  {
    hide UserTexts, IsBlank;
    if newer == [] {
      UserTextsPush([], "");
      assert older + newer == older;
    } else {
      var init, last := newer[..|newer| - 1], newer[|newer| - 1];
      assert newer == init + [last] && older + newer == (older + init) + [last];
      UserTextsConcat(older, init);
      UserTextsPush(older + init, last);
      UserTextsPush(init, last);
    }
  }

  /** Rebuilding drops a blank text and makes any other a visible user message, where it stands. */
  lemma {:induction false} RebuildsEach(older: seq<string>, text: string, newer: seq<string>)
    ensures UserTexts(older + [text] + newer)
         == UserTexts(older) + (if IsBlank(text) then [] else [User(Text(text), false)]) + UserTexts(newer)
  {
    hide UserTexts, IsBlank;
    UserTextsPush(older, text);
    UserTextsConcat(older + [text], newer);
  }

  // ---- the budget ----

  function Total(texts: seq<string>): nat {
    if texts == [] then 0 else Total(texts[..|texts| - 1]) + ApproxTokenCount(texts[|texts| - 1])
  }

  function TotalBytes(texts: seq<string>): nat {
    if texts == [] then 0 else TotalBytes(texts[..|texts| - 1]) + ByteLen(texts[|texts| - 1])
  }

  /** The texts from `k` on all fit, and nothing older does: either the budget is spent, or there is nothing older,
      or the next older text exceeds what is left. */
  ghost predicate MaximalSuffix(texts: seq<string>, k: nat, budget: nat) {
    && k <= |texts| && Total(texts[k..]) <= budget
    && (k > 0 ==> Total(texts[k..]) == budget || ApproxTokenCount(texts[k - 1]) > budget - Total(texts[k..]))
  }

  lemma {:induction false} TotalPush(texts: seq<string>, last: string)
    ensures Total(texts + [last]) == Total(texts) + ApproxTokenCount(last)
  {
    assert (texts + [last])[..|texts|] == texts;
  }

  /** The text before the suffix, cut to what is left of the budget, if anything is. */
  function CutBefore(texts: seq<string>, k: nat, budget: u64): seq<string>
    requires k <= |texts|
  {
    var left := LeftFor(texts, k, budget);
    if left > 0 then [TruncatedMiddle(texts[k - 1], left)] else []
  }

  /** Tokens left for the text before the suffix. */
  function LeftFor(texts: seq<string>, k: nat, budget: u64): (left: u64)
    requires k <= |texts|
    ensures left > 0 ==> k > 0
  {
    if k > 0 && Total(texts[k..]) <= budget then budget - Total(texts[k..]) else 0
  }

  lemma {:induction false} SuffixPush(init: seq<string>, last: string, k: nat, budget: u64)
    requires ApproxTokenCount(last) <= budget && MaximalSuffix(init, k, budget - ApproxTokenCount(last))
    ensures MaximalSuffix(init + [last], k, budget)
    ensures (init + [last])[k..] == init[k..] + [last]
    ensures LeftFor(init + [last], k, budget) == LeftFor(init, k, budget - ApproxTokenCount(last))
  {
    assert (init + [last])[k..] == init[k..] + [last];
    TotalPush(init[k..], last);
  }

  lemma {:induction false} StartIsMaximal(texts: seq<string>, budget: u64)
    ensures MaximalSuffix(texts, SuffixStart(texts, budget), budget)
  {
    assert texts[|texts|..] == [];
    if texts != [] && budget > 0 && ApproxTokenCount(texts[|texts| - 1]) <= budget {
      var init, last := texts[..|texts| - 1], texts[|texts| - 1];
      assert texts == init + [last];
      StartIsMaximal(init, budget - ApproxTokenCount(last));
      SuffixPush(init, last, SuffixStart(texts, budget), budget);
    }
  }

  lemma {:induction false} OnlyCut(init: seq<string>, last: string, budget: u64)
    requires budget > 0 && ApproxTokenCount(last) > budget
    ensures var texts := init + [last];
      Selected(texts, budget) == CutBefore(texts, |texts|, budget) + texts[|texts|..]
  {
    var texts := init + [last];
    SelectedPush(init, last, budget, []);
    assert texts[|texts|..] == [];
    assert LeftFor(texts, |texts|, budget) == budget && texts[|texts| - 1] == last;
    assert Selected(init, 0) == [];
  }

  lemma {:induction false} SelectedFromStart(texts: seq<string>, budget: u64)
    ensures var k := SuffixStart(texts, budget);
      Selected(texts, budget) == CutBefore(texts, k, budget) + texts[k..]
  {
    if texts == [] || budget == 0 {
      assert texts[|texts|..] == [];
    } else {
      var init, last := texts[..|texts| - 1], texts[|texts| - 1];
      assert texts == init + [last];
      SelectedPush(init, last, budget, []);
      if ApproxTokenCount(last) <= budget {
        var k, left := SuffixStart(texts, budget), LeftAfter(last, budget);
        SelectedFromStart(init, left);
        StartIsMaximal(init, left);
        SuffixPush(init, last, k, budget);
        Sequences.Associate(CutBefore(init, k, left), init[k..], [last]);
      } else {
        OnlyCut(init, last, budget);
      }
    }
  }

  /** The selection is a maximal suffix of the texts in their old order, with at most one cut text in front. */
  lemma {:induction false} SelectedIsSuffix(texts: seq<string>, budget: u64) returns (k: nat)
    ensures MaximalSuffix(texts, k, budget)
    ensures Selected(texts, budget) == CutBefore(texts, k, budget) + texts[k..]
  {
    k := SuffixStart(texts, budget);
    StartIsMaximal(texts, budget);
    SelectedFromStart(texts, budget);
  }

  /** A text short enough for its count not to saturate has at most four bytes per counted token. */
  lemma {:induction false} BytesWithinTokens(texts: seq<string>)
    requires forall i | 0 <= i < |texts| :: ByteLen(texts[i]) <= U64_MAX - 3
    ensures TotalBytes(texts) <= 4 * Total(texts)
  {
    if texts != [] {
      BytesWithinTokens(texts[..|texts| - 1]);
    }
  }

  /** Bytes of user text a selection keeps: whole texts, and the two ends of the one that was cut. */
  function KeptOfCut(s: string, c: Cut): nat
    requires c.Middle? ==> c.prefixEnd <= |s| && c.suffixStart <= |s|
  {
    match c
    case Whole => ByteLen(s)
    case OnlyMarker(_) => 0
    case Middle(p, q, _) => ByteLen(s[..p]) + ByteLen(s[q..])
  }

  lemma {:induction false} CutKeepsWithin(s: string, tokens: u64)
    requires 0 < tokens <= COMPACT_USER_MESSAGE_MAX_TOKENS
    ensures KeptOfCut(s, CutOf(s, tokens)) <= 4 * tokens
  {
    if ByteLen(s) > MaxBytes(tokens) {
      TruncationExact(s, tokens);
      var c := CutOf(s, tokens);
      TruncationLoss(s, MaxBytes(tokens), c.prefixEnd, c.suffixStart);
    }
  }

  /** A compacted history keeps at most 80,000 bytes of user text, markers aside. */
  lemma {:induction false} BudgetRespected(texts: seq<string>) returns (k: nat)
    requires forall i | 0 <= i < |texts| :: ByteLen(texts[i]) <= U64_MAX - 3
    ensures MaximalSuffix(texts, k, COMPACT_USER_MESSAGE_MAX_TOKENS)
    ensures var left := COMPACT_USER_MESSAGE_MAX_TOKENS - Total(texts[k..]);
      var keptOfCut := if k > 0 && left > 0 then KeptOfCut(texts[k - 1], CutOf(texts[k - 1], left)) else 0;
      && Selected(texts, COMPACT_USER_MESSAGE_MAX_TOKENS)
         == CutBefore(texts, k, COMPACT_USER_MESSAGE_MAX_TOKENS) + texts[k..]
      && keptOfCut + TotalBytes(texts[k..]) <= 80_000
  {
    k := SelectedIsSuffix(texts, COMPACT_USER_MESSAGE_MAX_TOKENS);
    BytesWithinTokens(texts[k..]);
    var left := COMPACT_USER_MESSAGE_MAX_TOKENS - Total(texts[k..]);
    if k > 0 && left > 0 {
      CutKeepsWithin(texts[k - 1], left);
    }
  }

  // ---- reading the texts back ----

  function PartTexts(parts: seq<UserPart>): string {
    if parts == [] then []
    else
      var before, last := PartTexts(parts[..|parts| - 1]), parts[|parts| - 1];
      if !last.TextPart? || IsBlank(last.text) then before
      else before + (if before == [] then [] else ['\n']) + last.text
  }

  function ContentText(body: UserContent): string {
    match body
    case Text(text) => text
    case Parts(parts) => if PartTexts(parts) == [] then "[image]" else PartTexts(parts)
  }

  /** The visible, non-blank user texts that are not summaries, trimmed. */
  function RealUserTexts(prefix: string, ms: seq<Message>): seq<string> {
    if ms == [] then []
    else
      var before, m := RealUserTexts(prefix, ms[..|ms| - 1]), ms[|ms| - 1];
      if m.User? && !m.hidden && !IsSummaryMessage(prefix, ContentText(m.body)) && Trim(ContentText(m.body)) != []
      then before + [Trim(ContentText(m.body))] else before
  }

  method CollectRealUserTexts(prefix: string, messages: seq<Message>) returns (out: seq<string>)
    ensures out == RealUserTexts(prefix, messages)
  {
    out := [];
    for i := 0 to |messages|
      invariant out == RealUserTexts(prefix, messages[..i])
    {
      assert messages[..i + 1][..i] == messages[..i];
      var m := messages[i];
      if m.User? && !m.hidden {
        var text := ContentText(m.body);
        if !IsSummaryMessage(prefix, text) {
          var trimmed := Trim(text);
          if trimmed != [] {
            out := out + [trimmed];
          }
        }
      }
    }
    assert messages[..|messages|] == messages;
  }

  /** A text is its trimmed part between whitespace, and that part neither starts nor ends with any. */
  ghost predicate TrimsTo(s: string, trimmed: string) {
    && (exists i: nat, j: nat | i <= j <= |s| :: IsBlank(s[..i]) && trimmed == s[i..j] && IsBlank(s[j..]))
    && (trimmed != [] ==> !IsWhitespace(trimmed[0]) && !IsWhitespace(trimmed[|trimmed| - 1]))
  }

  lemma {:induction false} TrimStartCuts(s: string) returns (i: nat)
    ensures i <= |s| && IsBlank(s[..i]) && TrimStart(s) == s[i..]
    ensures TrimStart(s) != [] ==> !IsWhitespace(TrimStart(s)[0])
  {
    if s != [] && IsWhitespace(s[0]) {
      i := TrimStartCuts(s[1..]);
      assert s[..i + 1] == [s[0]] + s[1..][..i] && s[1..][i..] == s[i + 1..];
      i := i + 1;
    } else {
      i := 0;
    }
  }

  lemma {:induction false} TrimEndCuts(s: string) returns (j: nat)
    ensures j <= |s| && TrimEnd(s) == s[..j] && IsBlank(s[j..])
    ensures TrimEnd(s) != [] ==> !IsWhitespace(TrimEnd(s)[|TrimEnd(s)| - 1])
  {
    if s != [] && IsWhitespace(s[|s| - 1]) {
      j := TrimEndCuts(s[..|s| - 1]);
      assert s[j..] == s[..|s| - 1][j..] + [s[|s| - 1]] && s[..|s| - 1][..j] == s[..j];
    } else {
      j := |s|;
    }
  }

  lemma {:induction false} TrimExact(s: string)
    ensures TrimsTo(s, Trim(s))
  {
    var i := TrimStartCuts(s);
    var j := TrimEndCuts(s[i..]);
    assert s[i..][..j] == s[i..i + j] && s[i..][j..] == s[i + j..];
  }

  lemma {:induction false} PartTextsConcat(a: seq<UserPart>, b: seq<UserPart>)
    ensures var before, after := PartTexts(a), PartTexts(b);
      PartTexts(a + b) == if before == [] then after else if after == [] then before else before + ['\n'] + after
  {
    if b == [] {
      assert a + b == a;
    } else {
      PartTextsConcat(a, b[..|b| - 1]);
      assert (a + b)[..|a + b| - 1] == a + b[..|b| - 1];
    }
  }

  predicate Speaks(parts: seq<UserPart>) {
    exists i | 0 <= i < |parts| :: parts[i].TextPart? && !IsBlank(parts[i].text)
  }

  lemma {:induction false} SpeaksIff(parts: seq<UserPart>)
    ensures Speaks(parts) <==> PartTexts(parts) != []
  {
    if parts != [] {
      var init, last := parts[..|parts| - 1], parts[|parts| - 1];
      SpeaksIff(init);
      if last.TextPart? && !IsBlank(last.text) {
        assert parts[|parts| - 1] == last && last.text != [];
      }
    }
  }

  lemma {:induction false} OneReads(part: UserPart)
    requires part.TextPart? && !IsBlank(part.text)
    ensures ContentText(Parts([part])) == part.text
  {
    assert [part][..0] == [];
    assert PartTexts([]) + [] == [] && [] + part.text == part.text;
  }

  /** A user content of parts reads as its texts that are not blank, on lines of their own; one without such a text
      reads as an image. */
  lemma {:induction false} ContentReads(a: seq<UserPart>, b: seq<UserPart>)
    ensures !Speaks(a) ==> ContentText(Parts(a)) == "[image]"
    ensures Speaks(a) && |a| == 1 ==> ContentText(Parts(a)) == a[0].text
    ensures !Speaks(a) ==> ContentText(Parts(a + b)) == ContentText(Parts(b))
    ensures !Speaks(b) ==> ContentText(Parts(a + b)) == ContentText(Parts(a))
    ensures Speaks(a) && Speaks(b) ==>
      ContentText(Parts(a + b)) == ContentText(Parts(a)) + ['\n'] + ContentText(Parts(b))
  {
    hide PartTexts;
    if Speaks(a) && |a| == 1 {
      assert a == [a[0]];
      OneReads(a[0]);
    }
    PartTextsConcat(a, b);
    SpeaksIff(a);
    SpeaksIff(b);
  }

  ghost predicate TakesText(prefix: string, text: string, taken: seq<string>) {
    if prefix + "\n" <= text || IsBlank(text) then taken == [] else |taken| == 1 && TrimsTo(text, taken[0])
  }

  /** What collecting takes from one message: the trimmed text of a visible user message that is no summary and not
      blank. */
  ghost predicate Takes(prefix: string, m: Message, taken: seq<string>) {
    match m
    case User(Text(text), false) => TakesText(prefix, text, taken)
    case User(Parts(parts), false) => TakesText(prefix, ContentText(Parts(parts)), taken)
    case _ => taken == []
  }

  lemma {:induction false} RealLast(prefix: string, init: seq<Message>, last: Message)
    ensures RealUserTexts(prefix, init + [last]) == RealUserTexts(prefix, init) + RealUserTexts(prefix, [last])
    ensures RealUserTexts(prefix, []) == []
  {
    assert (init + [last])[..|init|] == init && [last][..0] == [];
  }

  lemma {:induction false} RealConcat(prefix: string, before: seq<Message>, later: seq<Message>)
    ensures RealUserTexts(prefix, before + later) == RealUserTexts(prefix, before) + RealUserTexts(prefix, later)
  {
    hide RealUserTexts;
    if later == [] {
      RealLast(prefix, [], System(""));
      assert before + later == before;
    } else {
      var init, last := later[..|later| - 1], later[|later| - 1];
      assert later == init + [last] && before + later == (before + init) + [last];
      RealConcat(prefix, before, init);
      RealLast(prefix, before + init, last);
      RealLast(prefix, init, last);
    }
  }

  lemma {:induction false} TrimsToNothing(text: string, trimmed: string)
    requires TrimsTo(text, trimmed)
    ensures trimmed == [] <==> IsBlank(text)
  {
    var i: nat, j: nat :| i <= j <= |text| && IsBlank(text[..i]) && trimmed == text[i..j] && IsBlank(text[j..]);
    assert text == text[..i] + trimmed + text[j..];
    if trimmed != [] {
      assert text[i] == trimmed[0];
    }
  }

  lemma {:induction false} CollectsOne(prefix: string, m: Message)
    ensures Takes(prefix, m, RealUserTexts(prefix, [m]))
  {
    hide Trim, IsBlank, PartTexts, TrimsTo;
    RealLast(prefix, [], m);
    assert [m][..0] == [];
    if m.User? && !m.hidden {
      var text := ContentText(m.body);
      TrimExact(text);
      TrimsToNothing(text, Trim(text));
      assert IsSummaryMessage(prefix, text) <==> prefix + "\n" <= text;
    }
  }

  /** Collecting takes from each message, where it stands, exactly what it has to give. */
  lemma {:induction false} CollectsEach(prefix: string, before: seq<Message>, m: Message, later: seq<Message>)
    returns (taken: seq<string>)
    ensures Takes(prefix, m, taken)
    ensures RealUserTexts(prefix, before + [m] + later)
         == RealUserTexts(prefix, before) + taken + RealUserTexts(prefix, later)
  {
    taken := RealUserTexts(prefix, [m]);
    CollectsOne(prefix, m);
    RealConcat(prefix, before, [m]);
    RealConcat(prefix, before + [m], later);
  }

  lemma {:induction false} RealPush(prefix: string, ms: seq<Message>, text: string)
    ensures RealUserTexts(prefix, ms + [User(Text(text), false)])
         == RealUserTexts(prefix, ms)
            + (if IsSummaryMessage(prefix, text) || Trim(text) == [] then [] else [Trim(text)])
  {
    var longer := ms + [User(Text(text), false)];
    assert longer[..|longer| - 1] == ms;
    assert RealUserTexts(prefix, ms) + [] == RealUserTexts(prefix, ms);
  }

  lemma {:induction false} NonEmptyCounts(s: string)
    requires s != []
    ensures ApproxTokenCount(s) > 0
  {
  }

  lemma {:induction false} AllSelected(texts: seq<string>, budget: u64)
    requires Total(texts) <= budget && forall i | 0 <= i < |texts| :: texts[i] != []
    ensures Selected(texts, budget) == texts
  {
    if texts != [] {
      var init, last := texts[..|texts| - 1], texts[|texts| - 1];
      assert texts == init + [last];
      NonEmptyCounts(last);
      SelectedPush(init, last, budget, []);
      AllSelected(init, budget - ApproxTokenCount(last));
    }
  }

  lemma {:induction false} ReadBack(prefix: string, texts: seq<string>)
    requires forall i | 0 <= i < |texts| ::
      texts[i] != [] && Trim(texts[i]) == texts[i] && !IsBlank(texts[i]) && !IsSummaryMessage(prefix, texts[i])
    ensures RealUserTexts(prefix, UserTexts(texts)) == texts
  {
    if texts != [] {
      var init, last := texts[..|texts| - 1], texts[|texts| - 1];
      ReadBack(prefix, init);
      RealPush(prefix, UserTexts(init), last);
      assert texts == init + [last];
    }
  }

  lemma {:induction false} BlankTrims(s: string)
    requires IsBlank(s)
    ensures TrimStart(s) == []
  {
    if s != [] {
      BlankTrims(s[1..]);
    }
  }

  /** A trimmed text is blank only when it is empty. */
  lemma {:induction false} TrimmedNotBlank(s: string)
    requires s != [] && Trim(s) == s
    ensures !IsBlank(s)
  {
    if IsBlank(s) {
      BlankTrims(s);
    }
  }

  lemma {:induction false} UserTextsLength(texts: seq<string>)
    requires forall i | 0 <= i < |texts| :: !IsBlank(texts[i])
    ensures |UserTexts(texts)| == |texts|
  {
    if texts != [] {
      UserTextsLength(texts[..|texts| - 1]);
    }
  }

  /** When the texts fit, collecting the user texts of the compacted history gives them back; the summary is last and
      is never taken for one of them. */
  lemma {:induction false} CompactedRoundTrip(prefix: string, texts: seq<string>, suffix: string)
    requires Total(texts) <= COMPACT_USER_MESSAGE_MAX_TOKENS
    requires forall i | 0 <= i < |texts| ::
      texts[i] != [] && Trim(texts[i]) == texts[i] && !IsSummaryMessage(prefix, texts[i])
    ensures RealUserTexts(prefix, Compacted(prefix, texts, suffix)) == texts
    ensures var out := Compacted(prefix, texts, suffix);
      |out| == |texts| + 1 && out[|texts|].User? && IsSummaryMessage(prefix, ContentText(out[|texts|].body))
  {
    AllSelected(texts, COMPACT_USER_MESSAGE_MAX_TOKENS);
    forall i | 0 <= i < |texts| ensures !IsBlank(texts[i]) {
      TrimmedNotBlank(texts[i]);
    }
    ReadBack(prefix, texts);
    UserTextsLength(texts);
    RealPush(prefix, UserTexts(texts), SummaryText(prefix, suffix));
    assert texts + [] == texts;
  }
}
