/**
 * The string primitives the compatibility engine relies on: ASCII lower-casing
 * (`str.lower`), Python whitespace (`str.isspace`, the `\s` class of `re`),
 * ASCII digits (`\d`, `int`), substring search (`in`), `str.strip` and
 * `str.join`.
 */
module Text {

  predicate IsUpper(c: char) {
    'A' <= c <= 'Z'
  }

  /** Lower-cases one character (ASCII letters only). */
  function LowerChar(c: char): (d: char)
    ensures !IsUpper(d)
    ensures IsUpper(c) ==> d as int - c as int == 32
    ensures !IsUpper(c) ==> d == c
  {
    if IsUpper(c) then (c as int + 32) as char else c
  }

  /** `s.lower()`, restricted to ASCII letters. */
  function Lower(s: string): (r: string)
    ensures |r| == |s|
    ensures forall i :: 0 <= i < |r| ==> !IsUpper(r[i])
    ensures forall i :: 0 <= i < |s| && IsUpper(s[i]) ==> r[i] as int - s[i] as int == 32
    ensures forall i :: 0 <= i < |s| && !IsUpper(s[i]) ==> r[i] == s[i]
    ensures (forall i :: 0 <= i < |s| ==> !IsUpper(s[i])) ==> r == s
  {
    seq(|s|, i requires 0 <= i < |s| => LowerChar(s[i]))
  }

  lemma LowerIdempotent(s: string)
    ensures Lower(Lower(s)) == Lower(s)
  {
  }

  /** Lower-casing a prefix gives a prefix of the lower-cased text. */
  lemma LowerPrefix(a: string, b: string)
    requires a <= b
    ensures Lower(a) <= Lower(b)
  {
  }

  /** The lower-cased join of several items starts with the first item, lower-cased. */
  lemma JoinedLowerStartsWithFirst(xs: seq<string>, sep: string)
    ensures xs != [] ==> Lower(xs[0]) <= Lower(Join(xs, sep))
  {
    if xs != [] {
      LowerPrefix(xs[0], Join(xs, sep));
    }
  }

  /** `a` and `b` spell the same word up to the case of ASCII letters (the `re.I` comparison). */
  predicate EqualIgnoringCase(a: string, b: string)
  {
    |a| == |b| && (a == [] || (LowerChar(a[0]) == LowerChar(b[0]) && EqualIgnoringCase(a[1..], b[1..])))
  }

  lemma {:induction false} EqualIgnoringCaseMeansSameLower(a: string, b: string)
    ensures EqualIgnoringCase(a, b) <==> Lower(a) == Lower(b)
  {
    if |a| == |b| && a != [] {
      EqualIgnoringCaseMeansSameLower(a[1..], b[1..]);
      LowerCons(a);
      LowerCons(b);
    }
  }

  lemma LowerCons(s: string)
    requires s != []
    ensures Lower(s) == [LowerChar(s[0])] + Lower(s[1..])
  {
  }

  /** The characters `str.isspace` (and the `\s` class of `re` on str patterns) accept. */
  predicate IsSpace(c: char) {
    || '\t' <= c <= '\r' || '\U{1C}' <= c <= '\U{1F}' || c == ' ' || c == '\U{85}' || c == '\U{A0}'
    || c == '\U{1680}' || '\U{2000}' <= c <= '\U{200A}' || c == '\U{2028}' || c == '\U{2029}'
    || c == '\U{202F}' || c == '\U{205F}' || c == '\U{3000}'
  }

  predicate IsDigit(c: char) {
    '0' <= c <= '9'
  }

  /** `k` occurs in `s` starting at index `i`. */
  predicate OccursAt(s: string, k: string, i: nat) {
    i + |k| <= |s| && s[i..i + |k|] == k
  }

  /** `k in s` for strings: `k` occurs in `s` as a contiguous substring. */
  predicate Contains(s: string, k: string) {
    exists i | 0 <= i <= |s| :: OccursAt(s, k, i)
  }

  /** A substring of a substring is a substring. */
  lemma ContainsTransitive(s: string, k: string, k': string)
    requires Contains(s, k) && Contains(k, k')
    ensures Contains(s, k')
  {
    var i :| 0 <= i <= |s| && OccursAt(s, k, i);
    var j :| 0 <= j <= |k| && OccursAt(k, k', j);
    forall m | 0 <= m < |k'|
      ensures s[i + j..i + j + |k'|][m] == k'[m]
    {
      assert k'[m] == k[j + m] == s[i + (j + m)];
    }
    assert s[i + j..i + j + |k'|] == k';
    assert OccursAt(s, k', i + j);
  }

  /** A key holding a character that the text lacks does not occur in the text. */
  lemma NotContainsMissingChar(s: string, k: string, m: nat)
    requires m < |k| && k[m] !in s
    ensures !Contains(s, k)
  {
    forall i | 0 <= i <= |s|
      ensures !OccursAt(s, k, i)
    {
      if i + |k| <= |s| {
        assert s[i..i + |k|][m] == s[i + m];
        assert s[i + m] in s;
      }
    }
  }

  /**
   * When the text holds the key's `m`-th character only at position `p`, the
   * key can occur only at `p - m`; if it does not occur there, it does not occur.
   */
  lemma NotContainsPinned(s: string, k: string, m: nat, p: nat)
    requires m < |k| && m <= p < |s|
    requires forall i :: 0 <= i < |s| && s[i] == k[m] ==> i == p
    requires !OccursAt(s, k, p - m)
    ensures !Contains(s, k)
  {
    forall i | 0 <= i <= |s|
      ensures !OccursAt(s, k, i)
    {
      if i + |k| <= |s| && i != p - m {
        assert s[i..i + |k|][m] == s[i + m];
      }
    }
  }

  /** `s.lstrip()`: drops leading whitespace. */
  function TrimStart(s: string): (r: string)
    ensures |r| <= |s|
  {
    if |s| > 0 && IsSpace(s[0]) then TrimStart(s[1..]) else s
  }

  lemma {:induction false} TrimStartDropsSpace(s: string)
    ensures TrimStart(s) == s[|s| - |TrimStart(s)|..]
    ensures forall k :: 0 <= k < |s| - |TrimStart(s)| ==> IsSpace(s[k])
    ensures TrimStart(s) == [] || !IsSpace(TrimStart(s)[0])
  {
    if |s| > 0 && IsSpace(s[0]) {
      TrimStartDropsSpace(s[1..]);
    }
  }

  /** `s.rstrip()`: drops trailing whitespace. */
  function TrimEnd(s: string): (r: string)
    ensures |r| <= |s|
  {
    if |s| > 0 && IsSpace(s[|s| - 1]) then TrimEnd(s[..|s| - 1]) else s
  }

  lemma {:induction false} TrimEndDropsSpace(s: string)
    ensures TrimEnd(s) == s[..|TrimEnd(s)|]
    ensures forall k :: |TrimEnd(s)| <= k < |s| ==> IsSpace(s[k])
    ensures TrimEnd(s) == [] || !IsSpace(TrimEnd(s)[|TrimEnd(s)| - 1])
  {
    if |s| > 0 && IsSpace(s[|s| - 1]) {
      TrimEndDropsSpace(s[..|s| - 1]);
    }
  }

  /** `s.strip()`: removes whitespace at both ends. */
  function Strip(s: string): string
  {
    TrimEnd(TrimStart(s))
  }

  /** A text with no whitespace at either end is its own strip. */
  lemma StripKeeps(s: string)
    requires s == [] || (!IsSpace(s[0]) && !IsSpace(s[|s| - 1]))
    ensures Strip(s) == s
  {
  }

  /** What `Strip` keeps: the slice of `s` between its leading and trailing whitespace. */
  lemma StripIsTrimmedSlice(s: string)
    ensures exists i, j :: 0 <= i <= j <= |s| && Strip(s) == s[i..j]
                           && (forall k :: 0 <= k < i ==> IsSpace(s[k]))
                           && (forall k :: j <= k < |s| ==> IsSpace(s[k]))
    ensures Strip(s) == [] || (!IsSpace(Strip(s)[0]) && !IsSpace(Strip(s)[|Strip(s)| - 1]))
  {
    var t := TrimStart(s);
    var r := TrimEnd(t);
    TrimStartDropsSpace(s);
    TrimEndDropsSpace(t);
    assert r == s[|s| - |t|..|s| - |t| + |r|];
  }

  /** `sep.join(xs)`: the items of `xs` in order, with `sep` between neighbours. */
  function Join(xs: seq<string>, sep: string): (r: string)
    ensures |r| == TotalLength(xs) + if xs == [] then 0 else (|xs| - 1) * |sep|
    ensures xs != [] ==> xs[0] <= r
  {
    if |xs| == 0 then ""
    else if |xs| == 1 then xs[0]
    else
      assert xs[..|xs| - 1][0] == xs[0];
      Join(xs[..|xs| - 1], sep) + sep + xs[|xs| - 1]
  }

  /** The summed length of the items. */
  function TotalLength(xs: seq<string>): nat
  {
    if xs == [] then 0 else TotalLength(xs[..|xs| - 1]) + |xs[|xs| - 1]|
  }

  /** Joining one more item appends the separator and the item; a single item is joined as itself. */
  lemma {:induction false} JoinSnoc(xs: seq<string>, x: string, sep: string)
    ensures Join(xs + [x], sep) == if xs == [] then x else Join(xs, sep) + sep + x
  {
    assert (xs + [x])[..|xs|] == xs;
  }

  /** `int(s)` for a string of ASCII decimal digits: the last digit is the value's units digit. */
  function DigitsValue(s: string): (r: nat)
    requires forall k :: 0 <= k < |s| ==> IsDigit(s[k])
    ensures s != [] ==> r % 10 == s[|s| - 1] as int - '0' as int
    ensures (forall k :: 0 <= k < |s| ==> s[k] == '0') ==> r == 0
  {
    if s == [] then 0
    else
      assert IsDigit(s[|s| - 1]);
      10 * DigitsValue(s[..|s| - 1]) + (s[|s| - 1] as int - '0' as int)
  }

  /** Reading one more digit multiplies the value so far by ten and adds that digit. */
  lemma {:induction false} DigitsValueSnoc(s: string, d: char)
    requires forall k :: 0 <= k < |s| ==> IsDigit(s[k])
    requires IsDigit(d)
    ensures DigitsValue(s + [d]) == 10 * DigitsValue(s) + (d as int - '0' as int)
  {
    assert (s + [d])[..|s|] == s;
  }

  /** Leading zeros do not change the value: `int("08") == int("8")`. */
  lemma {:induction false} DigitsValueLeadingZero(s: string)
    requires forall k :: 0 <= k < |s| ==> IsDigit(s[k])
    ensures DigitsValue("0" + s) == DigitsValue(s)
    decreases |s|
  {
    if s != [] {
      var init := s[..|s| - 1];
      DigitsValueLeadingZero(init);
      assert ("0" + s)[..|s|] == "0" + init;
    }
  }

  /** A digit string is read in decimal: "16" is sixteen. */
  lemma DigitsValueExample()
    ensures DigitsValue("16") == 16
  {
    DigitsValueSnoc("1", '6');
    DigitsValueSnoc("", '1');
    assert "" + ['1'] == "1" && "1" + ['6'] == "16";
  }
}
