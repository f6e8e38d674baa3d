/**
 * The four `re.search` patterns the comparator runs over the lower-cased
 * requirement text, as hand-written scanners.
 *
 *   RAM    (\d+)\s*gb\s*ram
 *   VRAM   (\d+)\s*gb\s*(?:vram|video memory|graphics)
 *   CPU    (intel|amd).*(i\d|ryzen\s\d|fx|pentium|celeron)
 *   GPU    (gtx|rtx|rx).*(\d+)
 *
 * `re.search` reports the match that starts leftmost. Inside a match, `.`
 * stops at a newline and the greedy `.*` backs off from the end of the line,
 * so the CPU and GPU spans run from the leftmost vendor that has a family
 * token (or digit) after it on its own line to the LAST such token that starts
 * on that line.
 */
module Patterns {
  import opened Wrappers
  import opened Text

  /** The patterns: an amount `(\d+)\s*gb\s*<one of words>`, the CPU one and the GPU one. */
  datatype Pattern = AmountPattern(words: seq<string>) | CpuPattern | GpuPattern

  /** A match of `pat` starts at `p`. */
  predicate MatchesAt(pat: Pattern, t: string, p: nat) {
    match pat
    case AmountPattern(words) => AmountAt(t, p, words)
    case CpuPattern => CpuVendor(t, p) > 0 && CpuTail(t, p).Some?
    case GpuPattern => GpuVendor(t, p) > 0 && GpuTail(t, p).Some?
  }

  /** The positions 0..|t| of `t`, each marked with whether a match of `pat` starts there. */
  function Starts(pat: Pattern, t: string): (r: seq<bool>)
    ensures |r| == |t| + 1
  {
    seq(|t| + 1, k requires 0 <= k <= |t| => MatchesAt(pat, t, k))
  }

  /** The first marked position at or after `i`. */
  function First(marks: seq<bool>, i: nat): (r: Option<nat>)
    requires i <= |marks|
    ensures r.Some? ==> i <= r.value < |marks| && marks[r.value]
    ensures r.Some? ==> forall k :: i <= k < r.value ==> !marks[k]
    ensures r.None? <==> forall k :: i <= k < |marks| ==> !marks[k]
    decreases |marks| - i
  {
    if i == |marks| then None
    else if marks[i] then Some(i)
    else First(marks, i + 1)
  }

  /** Where `re.search` finds `pat` in `t`: the leftmost position at which a match starts. */
  function Leftmost(pat: Pattern, t: string): Option<nat>
  {
    First(Starts(pat, t), 0)
  }

  /** The leftmost match position is a match, and no earlier position is. */
  lemma LeftmostIsFirst(pat: Pattern, t: string)
    ensures Leftmost(pat, t).Some? ==>
              Leftmost(pat, t).value <= |t| && MatchesAt(pat, t, Leftmost(pat, t).value)
              && forall k :: 0 <= k < Leftmost(pat, t).value ==> !MatchesAt(pat, t, k)
    ensures Leftmost(pat, t).None? <==> forall k :: 0 <= k <= |t| ==> !MatchesAt(pat, t, k)
  {
    var marks := Starts(pat, t);
    assert forall k :: 0 <= k <= |t| ==> marks[k] == MatchesAt(pat, t, k);
  }

  /** The last token of a CPU match is a family name; the last token of a GPU match a digit. */
  datatype Tail = FamilyTail | DigitTail

  predicate TailAt(tail: Tail, t: string, q: nat) {
    match tail
    case FamilyTail => CpuFamily(t, q) > 0
    case DigitTail => q < |t| && IsDigit(t[q])
  }

  /** The rightmost position in [lo, hi) where `tail` starts: where a greedy `.*` backs off to. */
  function Rightmost(tail: Tail, t: string, lo: nat, hi: nat): (r: Option<nat>)
    ensures r.Some? ==> lo <= r.value < hi && TailAt(tail, t, r.value)
    ensures r.Some? ==> forall k :: r.value < k < hi ==> !TailAt(tail, t, k)
    ensures r.None? <==> forall k :: lo <= k < hi ==> !TailAt(tail, t, k)
    decreases hi
  {
    if hi <= lo then None
    else if TailAt(tail, t, hi - 1) then Some(hi - 1)
    else Rightmost(tail, t, lo, hi - 1)
  }

  /** Where the line holding position `i` ends: the next '\n' at or after `i`, or the end of `t`. */
  function LineEnd(t: string, i: nat): (e: nat)
    requires i <= |t|
    ensures i <= e <= |t|
    ensures e == |t| || t[e] == '\n'
    ensures forall k :: i <= k < e ==> t[k] != '\n'
    decreases |t| - i
  {
    if i == |t| || t[i] == '\n' then i else LineEnd(t, i + 1)
  }

  /** The end of the run of whitespace starting at `i` (`\s*`). */
  function SkipSpaces(t: string, i: nat): (j: nat)
    requires i <= |t|
    ensures i <= j <= |t|
    ensures j == |t| || !IsSpace(t[j])
    ensures forall k :: i <= k < j ==> IsSpace(t[k])
    decreases |t| - i
  {
    if i < |t| && IsSpace(t[i]) then SkipSpaces(t, i + 1) else i
  }

  /** The end of the run of digits starting at `i` (`\d+`, which cannot stop early here). */
  function DigitsEnd(t: string, i: nat): (j: nat)
    requires i <= |t|
    ensures i <= j <= |t|
    ensures j == |t| || !IsDigit(t[j])
    ensures forall k :: i <= k < j ==> IsDigit(t[k])
    decreases |t| - i
  {
    if i < |t| && IsDigit(t[i]) then DigitsEnd(t, i + 1) else i
  }

  /** `\s*gb\s*` followed by one of `words`, starting at `q`. */
  predicate GbThen(t: string, q: nat, words: seq<string>)
    requires q <= |t|
  {
    var g := SkipSpaces(t, q);
    OccursAt(t, "gb", g) && exists w | w in words :: OccursAt(t, w, SkipSpaces(t, g + 2))
  }

  const RamWords: seq<string> := ["ram"]
  const VramWords: seq<string> := ["vram", "video memory", "graphics"]

  /** A match of `(\d+)\s*gb\s*<words>` starts at `p`. */
  predicate AmountAt(t: string, p: nat, words: seq<string>) {
    p < |t| && IsDigit(t[p]) && GbThen(t, DigitsEnd(t, p), words)
  }

  /** The amount (group 1, read by `int`) of the leftmost `(\d+)\s*gb\s*<words>` match. */
  function Amount(t: string, words: seq<string>): (r: Option<nat>)
    ensures r.None? <==> forall p :: 0 <= p <= |t| ==> !AmountAt(t, p, words)
  {
    AmountAbsent(t, words);
    match Leftmost(AmountPattern(words), t)
    case None => None
    case Some(p) => Some(DigitsValue(t[p..DigitsEnd(t, p)]))
  }

  lemma AmountAbsent(t: string, words: seq<string>)
    ensures Leftmost(AmountPattern(words), t).None? <==> forall p :: 0 <= p <= |t| ==> !AmountAt(t, p, words)
  {
    LeftmostIsFirst(AmountPattern(words), t);
    assert forall p :: MatchesAt(AmountPattern(words), t, p) == AmountAt(t, p, words);
  }

  /** The required RAM in GB: group 1 of `(\d+)\s*gb\s*ram`. */
  function RamAmount(t: string): (r: Option<nat>)
    ensures r.None? <==> forall p :: 0 <= p <= |t| ==> !AmountAt(t, p, RamWords)
  {
    Amount(t, RamWords)
  }

  /** The required VRAM in GB: group 1 of `(\d+)\s*gb\s*(?:vram|video memory|graphics)`. */
  function VramAmount(t: string): (r: Option<nat>)
    ensures r.None? <==> forall p :: 0 <= p <= |t| ==> !AmountAt(t, p, VramWords)
  {
    Amount(t, VramWords)
  }

  /**
   * The amount a match reads is a whole number: the leftmost match never
   * starts in the middle of a digit run, and it reads the run to its end.
   */
  lemma AmountIsWholeNumber(t: string, words: seq<string>) returns (p: nat, e: nat)
    requires Amount(t, words).Some?
    ensures p < e <= |t| && e == DigitsEnd(t, p) && Leftmost(AmountPattern(words), t) == Some(p)
    ensures p == 0 || !IsDigit(t[p - 1])
    ensures e == |t| || !IsDigit(t[e])
    ensures forall k :: 0 <= k < e - p ==> IsDigit(t[p..e][k])
    ensures Amount(t, words) == Some(DigitsValue(t[p..e]))
  {
    LeftmostIsFirst(AmountPattern(words), t);
    p := Leftmost(AmountPattern(words), t).value;
    e := DigitsEnd(t, p);
    if p > 0 && IsDigit(t[p - 1]) {
      MatchExtendsLeft(t, words, p);
      assert false;
    }
    DigitRun(t, p, e);
  }

  lemma DigitRun(t: string, p: nat, e: nat)
    requires p <= e <= |t| && forall k :: p <= k < e ==> IsDigit(t[k])
    ensures forall k :: 0 <= k < e - p ==> IsDigit(t[p..e][k])
  {
  }

  /** A match preceded by a digit would also start one position earlier. */
  lemma MatchExtendsLeft(t: string, words: seq<string>, p: nat)
    requires AmountAt(t, p, words) && 0 < p && IsDigit(t[p - 1])
    ensures MatchesAt(AmountPattern(words), t, p - 1)
  {
    assert DigitsEnd(t, p - 1) == DigitsEnd(t, p);
  }

  /** No digit in the text: neither amount pattern can match. */
  lemma NoDigitNoAmount(t: string, words: seq<string>)
    requires forall k :: 0 <= k < |t| ==> !IsDigit(t[k])
    ensures Amount(t, words) == None
  {
    LeftmostIsFirst(AmountPattern(words), t);
    forall k | 0 <= k <= |t| ensures !MatchesAt(AmountPattern(words), t, k) {
    }
  }

  /** The length of the CPU vendor `(intel|amd)` at `p`, or 0. */
  function CpuVendor(t: string, p: nat): (n: nat)
    ensures n == 0 || n == 3 || n == 5
    ensures n > 0 ==> p + n <= |t|
  {
    if OccursAt(t, "intel", p) then 5
    else if OccursAt(t, "amd", p) then 3
    else 0
  }

  /** The length of a CPU family token `(i\d|ryzen\s\d|fx|pentium|celeron)` at `q`, or 0. */
  function CpuFamily(t: string, q: nat): (n: nat)
    ensures n > 0 ==> q + n <= |t|
  {
    if q + 1 < |t| && t[q] == 'i' && IsDigit(t[q + 1]) then 2
    else if q + 6 < |t| && OccursAt(t, "ryzen", q) && IsSpace(t[q + 5]) && IsDigit(t[q + 6]) then 7
    else if OccursAt(t, "fx", q) then 2
    else if OccursAt(t, "pentium", q) then 7
    else if OccursAt(t, "celeron", q) then 7
    else 0
  }

  /** The length of the GPU vendor `(gtx|rtx|rx)` at `p`, or 0. */
  function GpuVendor(t: string, p: nat): (n: nat)
    ensures n == 0 || n == 2 || n == 3
    ensures n > 0 ==> p + n <= |t|
  {
    if OccursAt(t, "gtx", p) then 3
    else if OccursAt(t, "rtx", p) then 3
    else if OccursAt(t, "rx", p) then 2
    else 0
  }

  /** Where the greedy `.*` after a CPU vendor at `p` stops: the last family token on the line. */
  function CpuTail(t: string, p: nat): Option<nat>
    requires CpuVendor(t, p) > 0
  {
    var from := p + CpuVendor(t, p);
    Rightmost(FamilyTail, t, from, LineEnd(t, from))
  }

  /** Where the greedy `.*` after a GPU vendor at `p` stops: the last digit on the line. */
  function GpuTail(t: string, p: nat): Option<nat>
    requires GpuVendor(t, p) > 0
  {
    var from := p + GpuVendor(t, p);
    Rightmost(DigitTail, t, from, LineEnd(t, from))
  }

  /**
   * The whole CPU match (`group()`), from the vendor through the last family
   * token, so at least a three-letter vendor and a two-letter family long;
   * None only when no position starts a match.
   */
  function CpuSpan(t: string): (r: Option<string>)
    ensures r.None? ==> forall p :: 0 <= p <= |t| ==> !MatchesAt(CpuPattern, t, p)
    ensures r.Some? ==> 5 <= |r.value|
  {
    LeftmostIsFirst(CpuPattern, t);
    match Leftmost(CpuPattern, t)
    case None => None
    case Some(p) =>
      var q := CpuTail(t, p).value;
      Some(t[p..q + CpuFamily(t, q)])
  }

  /**
   * The whole GPU match (`group()`), from the vendor through the last digit on
   * its line, so at least a two-letter vendor and a digit long; None only when
   * no position starts a match.
   */
  function GpuSpan(t: string): (r: Option<string>)
    ensures r.None? ==> forall p :: 0 <= p <= |t| ==> !MatchesAt(GpuPattern, t, p)
    ensures r.Some? ==> 3 <= |r.value|
  {
    LeftmostIsFirst(GpuPattern, t);
    match Leftmost(GpuPattern, t)
    case None => None
    case Some(p) => Some(t[p..GpuTail(t, p).value + 1])
  }

  /** A vendor token holds no newline. */
  lemma VendorOnOneLine(t: string, p: nat, v: string)
    requires OccursAt(t, v, p) && '\n' !in v
    ensures forall k :: p <= k < p + |v| ==> t[k] != '\n'
  {
    forall k | p <= k < p + |v| ensures t[k] != '\n' {
      assert t[p..p + |v|][k - p] == t[k];
    }
  }

  /**
   * The position a greedy `.*` backs off to lies on the line it started on,
   * and no later position on that line starts the tail.
   */
  lemma TailOnLine(tail: Tail, t: string, from: nat, q: nat)
    requires from <= |t| && Rightmost(tail, t, from, LineEnd(t, from)) == Some(q)
    ensures from <= q < |t| && q < LineEnd(t, q) && TailAt(tail, t, q)
    ensures forall k :: q < k < LineEnd(t, q) ==> !TailAt(tail, t, k)
    ensures forall k :: from <= k < q ==> t[k] != '\n'
  {
    LineEndWithin(t, from, q);
  }

  lemma CpuVendorOnOneLine(t: string, p: nat)
    requires CpuVendor(t, p) > 0
    ensures forall k :: p <= k < p + CpuVendor(t, p) ==> t[k] != '\n'
  {
    if OccursAt(t, "intel", p) {
      VendorOnOneLine(t, p, "intel");
    } else {
      VendorOnOneLine(t, p, "amd");
    }
  }

  lemma GpuVendorOnOneLine(t: string, p: nat)
    requires GpuVendor(t, p) > 0
    ensures forall k :: p <= k < p + GpuVendor(t, p) ==> t[k] != '\n'
  {
    if OccursAt(t, "gtx", p) {
      VendorOnOneLine(t, p, "gtx");
    } else if OccursAt(t, "rtx", p) {
      VendorOnOneLine(t, p, "rtx");
    } else {
      VendorOnOneLine(t, p, "rx");
    }
  }

  /** Where the CPU match starts and where its last token starts. */
  lemma CpuMatchBounds(t: string) returns (p: nat, q: nat)
    requires CpuSpan(t).Some?
    ensures Leftmost(CpuPattern, t) == Some(p) && CpuVendor(t, p) > 0 && CpuTail(t, p) == Some(q)
    ensures q + CpuFamily(t, q) <= |t| && CpuSpan(t).value == t[p..q + CpuFamily(t, q)]
    ensures forall k :: 0 <= k < p ==> !MatchesAt(CpuPattern, t, k)
  {
    p := LeftmostMatch(CpuPattern, t);
    q := CpuTail(t, p).value;
  }

  /** Where the GPU match starts and where its last digit is. */
  lemma GpuMatchBounds(t: string) returns (p: nat, q: nat)
    requires GpuSpan(t).Some?
    ensures Leftmost(GpuPattern, t) == Some(p) && GpuVendor(t, p) > 0 && GpuTail(t, p) == Some(q)
    ensures q < |t| && GpuSpan(t).value == t[p..q + 1]
    ensures forall k :: 0 <= k < p ==> !MatchesAt(GpuPattern, t, k)
  {
    p := LeftmostMatch(GpuPattern, t);
    q := GpuTail(t, p).value;
  }

  /** The position `re.search` reports, when there is one. */
  lemma LeftmostMatch(pat: Pattern, t: string) returns (p: nat)
    requires Leftmost(pat, t).Some?
    ensures Leftmost(pat, t) == Some(p) && p <= |t| && MatchesAt(pat, t, p)
    ensures forall k :: 0 <= k < p ==> !MatchesAt(pat, t, k)
  {
    LeftmostIsFirst(pat, t);
    p := Leftmost(pat, t).value;
  }

  /** The last family token on the line of a CPU vendor at `p`. */
  lemma LastFamilyOnLine(t: string, p: nat) returns (q: nat)
    requires CpuVendor(t, p) > 0 && CpuTail(t, p).Some?
    ensures q == CpuTail(t, p).value && p < q < |t| && q < LineEnd(t, q) && CpuFamily(t, q) > 0
    ensures forall k :: q < k < LineEnd(t, q) ==> CpuFamily(t, k) == 0
    ensures forall k :: p + CpuVendor(t, p) <= k < q ==> t[k] != '\n'
  {
    var from := p + CpuVendor(t, p);
    q := CpuTail(t, p).value;
    TailOnLine(FamilyTail, t, from, q);
    forall k | q < k < LineEnd(t, q) ensures CpuFamily(t, k) == 0 {
      assert !TailAt(FamilyTail, t, k);
    }
  }

  /** The last digit on the line of a GPU vendor at `p`. */
  lemma LastDigitOnLine(t: string, p: nat) returns (q: nat)
    requires GpuVendor(t, p) > 0 && GpuTail(t, p).Some?
    ensures q == GpuTail(t, p).value && p < q < |t| && q < LineEnd(t, q) && IsDigit(t[q])
    ensures forall k :: q < k < LineEnd(t, q) ==> !IsDigit(t[k])
    ensures forall k :: p + GpuVendor(t, p) <= k < q ==> t[k] != '\n'
  {
    var from := p + GpuVendor(t, p);
    q := GpuTail(t, p).value;
    TailOnLine(DigitTail, t, from, q);
    forall k | q < k < LineEnd(t, q) ensures !IsDigit(t[k]) {
      assert !TailAt(DigitTail, t, k);
    }
  }

  /**
   * Greediness of the CPU pattern: the span runs from the leftmost vendor that
   * has a family token after it on its line, through the LAST family token
   * that starts on that line.
   */
  lemma CpuSpanIsGreedy(t: string) returns (p: nat, q: nat)
    requires CpuSpan(t).Some?
    ensures p < q < |t| && q < LineEnd(t, q) && CpuVendor(t, p) > 0 && CpuFamily(t, q) > 0
    ensures CpuSpan(t).value == t[p..q + CpuFamily(t, q)]
    ensures forall k :: 0 <= k < p ==> !MatchesAt(CpuPattern, t, k)
    ensures forall k :: q < k < LineEnd(t, q) ==> CpuFamily(t, k) == 0
    ensures forall k :: p <= k < q ==> t[k] != '\n'
  {
    p, q := CpuMatchBounds(t);
    var q' := LastFamilyOnLine(t, p);
    CpuVendorOnOneLine(t, p);
  }

  /**
   * Greediness of the GPU pattern: the span runs from the leftmost vendor that
   * has a digit after it on its line, through the LAST digit on that line, so
   * "gtx 970 with 4 gb" yields "gtx 970 with 4".
   */
  lemma GpuSpanIsGreedy(t: string) returns (p: nat, q: nat)
    requires GpuSpan(t).Some?
    ensures p < q < |t| && q < LineEnd(t, q) && GpuVendor(t, p) > 0 && IsDigit(t[q])
    ensures GpuSpan(t).value == t[p..q + 1]
    ensures forall k :: 0 <= k < p ==> !MatchesAt(GpuPattern, t, k)
    ensures forall k :: q < k < LineEnd(t, q) ==> !IsDigit(t[k])
    ensures forall k :: p <= k < q ==> t[k] != '\n'
  {
    p, q := GpuMatchBounds(t);
    var q' := LastDigitOnLine(t, p);
    GpuVendorOnOneLine(t, p);
  }

  /** Any position before the end of a line shares that line's end. */
  lemma {:induction false} LineEndWithin(t: string, i: nat, j: nat)
    requires i <= |t| && i <= j < LineEnd(t, i)
    ensures LineEnd(t, j) == LineEnd(t, i)
    decreases j - i
  {
    if i < j {
      LineEndWithin(t, i + 1, j);
    }
  }
}
