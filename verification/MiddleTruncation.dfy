/** Cutting the middle out of a text to fit a token budget, on character boundaries. */
module MiddleTruncation {
  import opened Protocol

  /** A token is taken to be four bytes; byte counts are rounded up, with a saturating sum. */
  function CeilTokens(bytes: nat): nat {
    (if bytes + 3 <= U64_MAX then bytes + 3 else U64_MAX) / 4
  }

  function MaxBytes(tokens: u64): u64 {
    if tokens * 4 <= U64_MAX then tokens * 4 else U64_MAX
  }

  function ApproxTokenCount(s: string): nat {
    CeilTokens(ByteLen(s))
  }

  function Decimal(n: nat): (s: string)
    ensures s != []
  {
    var digit := ['0' + (n % 10) as char];
    if n < 10 then digit else Decimal(n / 10) + digit
  }

  const ELLIPSIS: char := '\U{2026}'

  function Marker(tokens: nat): string {
    [ELLIPSIS] + Decimal(tokens) + " tokens truncated" + [ELLIPSIS]
  }

  // ---- the reference ----

  lemma {:induction false} ByteLenStep(s: string, i: nat)
    requires i < |s|
    ensures ByteLen(s[..i + 1]) == ByteLen(s[..i]) + CharBytes(s[i])
  {
    assert s[..i + 1][..i] == s[..i];
  }

  lemma {:induction false} ByteLenMonotone(s: string, i: nat, j: nat)
    requires i <= j <= |s|
    ensures ByteLen(s[..i]) <= ByteLen(s[..j])
    ensures i < j ==> ByteLen(s[..i]) + 1 <= ByteLen(s[..j])
  {
    if i < j {
      ByteLenStep(s, j - 1);
      ByteLenMonotone(s, i, j - 1);
    }
  }

  lemma {:induction false} ByteLenSplit(s: string, i: nat)
    requires i <= |s|
    ensures ByteLen(s) == ByteLen(s[..i]) + ByteLen(s[i..])
  {
    ByteLenAppend(s[..i], s[i..]);
    assert s == s[..i] + s[i..];
  }

  /** `k` characters are the longest prefix of at most `budget` bytes. */
  ghost predicate LongestPrefix(s: string, k: nat, budget: nat) {
    k <= |s| && ByteLen(s[..k]) <= budget && (k < |s| ==> ByteLen(s[..k + 1]) > budget)
  }

  /** The characters from `k` on are the longest suffix of at most `budget` bytes. */
  ghost predicate LongestSuffix(s: string, k: nat, budget: nat) {
    k <= |s| && ByteLen(s[k..]) <= budget && (k > 0 ==> ByteLen(s[k - 1..]) > budget)
  }

  lemma {:induction false} LongestPrefixUnique(s: string, j: nat, k: nat, budget: nat)
    requires LongestPrefix(s, j, budget) && LongestPrefix(s, k, budget)
    ensures j == k
  {
    if j < k {
      ByteLenMonotone(s, j + 1, k);
    } else if k < j {
      ByteLenMonotone(s, k + 1, j);
    }
  }

  lemma {:induction false} LongestSuffixUnique(s: string, j: nat, k: nat, budget: nat)
    requires LongestSuffix(s, j, budget) && LongestSuffix(s, k, budget)
    ensures j == k
  {
    ByteLenSplit(s, j);
    ByteLenSplit(s, k);
    if j < k {
      ByteLenSplit(s, k - 1);
      ByteLenMonotone(s, j, k - 1);
    } else if k < j {
      ByteLenSplit(s, j - 1);
      ByteLenMonotone(s, k, j - 1);
    }
  }

  /** A byte budget is met but for the bytes of the one character that did not fit. */
  lemma {:induction false} BoundaryLoss(s: string, p: nat, q: nat, left: nat, right: nat)
    requires LongestPrefix(s, p, left) && LongestSuffix(s, q, right) && left + right < ByteLen(s)
    ensures p <= q
    ensures left - 3 <= ByteLen(s[..p]) <= left && right - 3 <= ByteLen(s[q..]) <= right
  {
    assert s[..|s|] == s && s[0..] == s;
    ByteLenSplit(s, q);
    if p < |s| {
      ByteLenStep(s, p);
    }
    if q > 0 {
      ByteLenSplit(s, q - 1);
      ByteLenStep(s, q - 1);
    }
    if q < p {
      ByteLenMonotone(s, q, p);
    }
  }

  function PrefixChars(s: string, budget: nat): (k: nat)
    ensures k <= |s|
  {
    if ByteLen(s) <= budget || s == [] then |s| else PrefixChars(s[..|s| - 1], budget)
  }

  function SuffixChar(s: string, budget: nat): (k: nat)
    ensures k <= |s|
  {
    if ByteLen(s) <= budget || s == [] then 0 else 1 + SuffixChar(s[1..], budget)
  }

  lemma {:induction false} PrefixCharsLongest(s: string, budget: nat)
    ensures LongestPrefix(s, PrefixChars(s, budget), budget)
  {
    assert s[..|s|] == s;
    if ByteLen(s) > budget && s != [] {
      var init, k := s[..|s| - 1], PrefixChars(s, budget);
      PrefixCharsLongest(init, budget);
      assert init[..k] == s[..k];
      if k < |init| {
        assert init[..k + 1] == s[..k + 1];
      } else {
        assert s[..k + 1] == s;
      }
    }
  }

  lemma {:induction false} SuffixCharLongest(s: string, budget: nat)
    ensures LongestSuffix(s, SuffixChar(s, budget), budget)
  {
    assert s[0..] == s;
    if ByteLen(s) > budget && s != [] {
      var k := SuffixChar(s, budget);
      SuffixCharLongest(s[1..], budget);
      assert s[1..][k - 1..] == s[k..];
      if k > 1 {
        assert s[1..][k - 2..] == s[k - 1..];
      }
    }
  }

  /** What becomes of a text: it stays whole, only a marker is left, or a prefix and a suffix around a marker. */
  datatype Cut = Whole | OnlyMarker(tokens: nat) | Middle(prefixEnd: nat, suffixStart: nat, tokens: nat)

  function CutOf(s: string, maxTokens: u64): (c: Cut)
    ensures c.Middle? ==> c.prefixEnd <= |s| && c.suffixStart <= |s|
  {
    var maxBytes := MaxBytes(maxTokens);
    if s == [] || (maxBytes > 0 && ByteLen(s) <= maxBytes) then Whole
    else if maxBytes == 0 then OnlyMarker(ApproxTokenCount(s))
    else Middle(PrefixChars(s, maxBytes / 2), SuffixChar(s, maxBytes - maxBytes / 2), CeilTokens(ByteLen(s) - maxBytes))
  }

  function Render(s: string, c: Cut): string
    requires c.Middle? ==> c.prefixEnd <= |s| && c.suffixStart <= |s|
  {
    match c
    case Whole => s
    case OnlyMarker(tokens) => Marker(tokens)
    case Middle(p, q, tokens) => s[..p] + Marker(tokens) + s[q..]
  }

  function TruncatedMiddle(s: string, maxTokens: u64): string {
    Render(s, CutOf(s, maxTokens))
  }

  /** A token count is the least number of tokens that hold the bytes, up to the length at which the sum saturates and
      for no length beyond it. */
  lemma {:induction false} TokensRoundUpIff(bytes: nat)
    requires bytes > 0
    ensures (4 * (CeilTokens(bytes) - 1) < bytes <= 4 * CeilTokens(bytes)) <==> bytes <= U64_MAX - 3
    ensures bytes > U64_MAX - 3 ==> 4 * CeilTokens(bytes) == U64_MAX - 3
  {
  }

  /** A text over a positive budget keeps its longest prefix within half of it and its longest suffix within the
      rest; the marker between them counts the excess in tokens, rounded up. */
  lemma {:induction false} TruncationExact(s: string, maxTokens: u64)
    requires 0 < MaxBytes(maxTokens) < ByteLen(s)
    ensures var c, maxBytes := CutOf(s, maxTokens), MaxBytes(maxTokens);
      && c.Middle? && c.tokens == CeilTokens(ByteLen(s) - maxBytes)
      && LongestPrefix(s, c.prefixEnd, maxBytes / 2)
      && LongestSuffix(s, c.suffixStart, maxBytes - maxBytes / 2)
  {
    PrefixCharsLongest(s, MaxBytes(maxTokens) / 2);
    SuffixCharLongest(s, MaxBytes(maxTokens) - MaxBytes(maxTokens) / 2);
  }

  /** The two kept parts never overlap nor exceed the budget, and each is at most three bytes short of its share. */
  lemma {:induction false} TruncationLoss(s: string, maxBytes: u64, p: nat, q: nat)
    requires 0 < maxBytes < ByteLen(s)
    requires LongestPrefix(s, p, maxBytes / 2) && LongestSuffix(s, q, maxBytes - maxBytes / 2)
    ensures p <= q && ByteLen(s[..p]) + ByteLen(s[q..]) <= maxBytes
    ensures maxBytes / 2 - 3 <= ByteLen(s[..p]) && maxBytes - maxBytes / 2 - 3 <= ByteLen(s[q..])
  {
    BoundaryLoss(s, p, q, maxBytes / 2, maxBytes - maxBytes / 2);
  }

  // ---- the scan over the characters ----

  /** Byte offset of the character at `i`. */
  function Offset(s: string, i: nat): nat
    requires i <= |s|
  {
    if i == 0 then 0 else Offset(s, i - 1) + CharBytes(s[i - 1])
  }

  lemma {:induction false} OffsetIsByteLen(s: string, i: nat)
    requires i <= |s|
    ensures Offset(s, i) == ByteLen(s[..i])
  {
    if i > 0 {
      OffsetIsByteLen(s, i - 1);
      ByteLenStep(s, i - 1);
    }
  }

  lemma {:induction false} OffsetMonotone(s: string, i: nat, j: nat)
    requires i <= j <= |s|
    ensures Offset(s, i) <= Offset(s, j)
  {
    if i < j {
      OffsetMonotone(s, i, j - 1);
    }
  }

  lemma {:induction false} WholeOffset(s: string)
    ensures Offset(s, |s|) == ByteLen(s)
  {
    OffsetIsByteLen(s, |s|);
    assert s[..|s|] == s;
  }

  lemma {:induction false} CutIsLongest(s: string, p: nat, q: nat, left: nat, right: nat)
    requires left + right < ByteLen(s) && p <= |s| && q <= |s|
    requires Offset(s, p) <= left && (p < |s| ==> Offset(s, p + 1) > left)
    requires Offset(s, q) >= ByteLen(s) - right && (q > 0 ==> Offset(s, q - 1) < ByteLen(s) - right)
    ensures p == PrefixChars(s, left) && q == SuffixChar(s, right) && p <= q
  {
    OffsetIsByteLen(s, p);
    OffsetIsByteLen(s, q);
    ByteLenSplit(s, q);
    if p < |s| {
      OffsetIsByteLen(s, p + 1);
    }
    if q > 0 {
      OffsetIsByteLen(s, q - 1);
      ByteLenSplit(s, q - 1);
    }
    PrefixCharsLongest(s, left);
    LongestPrefixUnique(s, p, PrefixChars(s, left), left);
    SuffixCharLongest(s, right);
    LongestSuffixUnique(s, q, SuffixChar(s, right), right);
    BoundaryLoss(s, p, q, left, right);
  }

  /** Finds both cut points in one pass over the characters. */
  method CutPoints(s: string, left: nat, right: nat) returns (prefixEnd: nat, suffixStart: nat)
    requires left + right < ByteLen(s)
    ensures prefixEnd == PrefixChars(s, left) && suffixStart == SuffixChar(s, right)
    ensures prefixEnd <= suffixStart <= |s|
  {
    var tailStart := ByteLen(s) - right;
    var suffixStarted, idx := false, 0;
    prefixEnd, suffixStart := 0, |s|;
    for i := 0 to |s|
      invariant idx == Offset(s, i)
      invariant prefixEnd <= i && Offset(s, prefixEnd) <= left
      invariant prefixEnd < i ==> Offset(s, prefixEnd + 1) > left
      invariant suffixStarted ==> suffixStart < i && Offset(s, suffixStart) >= tailStart
      invariant suffixStarted && suffixStart > 0 ==> Offset(s, suffixStart - 1) < tailStart
      invariant !suffixStarted ==> suffixStart == |s| && (i > 0 ==> Offset(s, i - 1) < tailStart)
    {
      var charEnd := idx + CharBytes(s[i]);
      if charEnd <= left {
        if prefixEnd < i {
          OffsetMonotone(s, prefixEnd + 1, i + 1);
        }
        prefixEnd := i + 1;
      } else if idx >= tailStart {
        if !suffixStarted {
          suffixStart := i;
          suffixStarted := true;
        }
      }
      idx := charEnd;
    }
    WholeOffset(s);
    CutIsLongest(s, prefixEnd, suffixStart, left, right);
    // This guard never fires.
    if suffixStart < prefixEnd {
      suffixStart := prefixEnd;
    }
  }

  method FindCut(s: string, maxTokens: u64) returns (c: Cut)
    ensures c == CutOf(s, maxTokens)
  {
    if s == [] {
      return Whole;
    }
    var maxBytes := MaxBytes(maxTokens);
    var totalBytes := ByteLen(s);
    if maxBytes > 0 && totalBytes <= maxBytes {
      return Whole;
    }
    if maxBytes == 0 {
      return OnlyMarker(ApproxTokenCount(s));
    }
    var left := maxBytes / 2;
    var prefixEnd, suffixStart := CutPoints(s, left, maxBytes - left);
    return Middle(prefixEnd, suffixStart, CeilTokens(totalBytes - maxBytes));
  }

  method TruncateMiddle(s: string, maxTokens: u64) returns (r: string)
    ensures r == TruncatedMiddle(s, maxTokens)
  {
    var c := FindCut(s, maxTokens);
    return Render(s, c);
  }

  // ---- the text that is left ----

  /** The number some decimal digits spell. */
  function Reads(s: string): nat
    requires forall i | 0 <= i < |s| :: '0' <= s[i] <= '9'
  {
    if s == "" then 0 else 10 * Reads(s[..|s| - 1]) + (s[|s| - 1] as int - '0' as int)
  }

  /** A decimal spells its number, without leading zeros. */
  lemma {:induction false} DecimalReads(n: nat)
    ensures forall i | 0 <= i < |Decimal(n)| :: '0' <= Decimal(n)[i] <= '9'
    ensures Reads(Decimal(n)) == n && (Decimal(n)[0] == '0' ==> n == 0)
  {
    var digit := ['0' + (n % 10) as char];
    if n < 10 {
      assert Decimal(n) == digit && digit[..0] == "";
    } else {
      DecimalReads(n / 10);
      assert Decimal(n)[..|Decimal(n)| - 1] == Decimal(n / 10);
    }
  }

  /** A prefix, the marker that counts `tokens`, and a suffix. */
  ghost predicate CutAround(r: string, s: string, p: nat, q: nat, tokens: nat) {
    p <= q <= |s| && r == s[..p] + ("\U{2026}" + Decimal(tokens) + " tokens truncated\U{2026}") + s[q..]
  }

  lemma {:induction false} MarkerIs(tokens: nat)
    ensures Marker(tokens) == "\U{2026}" + Decimal(tokens) + " tokens truncated\U{2026}"
  {
    hide Decimal;
  }

  lemma {:induction false} EmptyLength(s: string)
    ensures s == "" <==> ByteLen(s) == 0
  {
  }

  /** A text that fits stays as it is; without a budget only the marker is left; otherwise the marker stands between the
      longest prefix within half the budget and the longest suffix within the rest, counting what is missing of it. */
  lemma {:induction false} TruncatedText(s: string, maxTokens: u64) returns (p: nat, q: nat)
    ensures var r, maxBytes, bytes := TruncatedMiddle(s, maxTokens), MaxBytes(maxTokens), ByteLen(s);
      && (s == "" || 0 < bytes <= maxBytes ==> r == s)
      && (s != "" && maxTokens == 0 ==> p == 0 && q == |s| && CutAround(r, s, p, q, CeilTokens(bytes)))
      && (0 < maxTokens && maxBytes < bytes ==>
            && LongestPrefix(s, p, maxBytes / 2) && LongestSuffix(s, q, maxBytes - maxBytes / 2)
            && CutAround(r, s, p, q, CeilTokens(bytes - maxBytes)))
    ensures MaxBytes(maxTokens) == if 4 * maxTokens <= U64_MAX then 4 * maxTokens else U64_MAX
  {
    hide Marker, Decimal, ByteLen, CeilTokens;
    p, q := 0, |s|;
    EmptyLength(s);
    var c := CutOf(s, maxTokens);
    if c.OnlyMarker? {
      MarkerIs(c.tokens);
      assert s[..0] == "" && s[|s|..] == "";
    } else if c.Middle? {
      p, q := c.prefixEnd, c.suffixStart;
      MarkerIs(c.tokens);
      TruncationExact(s, maxTokens);
      BoundaryLoss(s, p, q, MaxBytes(maxTokens) / 2, MaxBytes(maxTokens) - MaxBytes(maxTokens) / 2);
    }
  }
}
