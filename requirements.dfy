/**
 * The requirement text parser (`parse_requirements`): sorts the `<li>` lines of
 * a Steam requirement block into eight fixed categories. A line that begins with
 * a category label overwrites that category; any other line is appended to
 * "Additional Notes"; when every category is still empty at the end, the whole
 * text of the block becomes "Additional Notes".
 */
module Requirements {
  import opened Wrappers
  import opened Text

  /** The category unlabelled lines are folded into. */
  const Notes: string := "Additional Notes"

  /** The category labels, in the order in which lines are tested against them. */
  const Categories: seq<string> := ["OS", "Processor", "Memory", "Graphics", "Storage",
                                    "Sound Card", Notes, "Other requirements"]

  /** The position of "Additional Notes" among the labels. */
  const NotesIndex: nat := 6

  const NoteSeparator: string := " | "

  /**
   * The markup as BeautifulSoup presents it: the raw string, the text of each
   * `<li>` element (`get_text(" ", strip=True)`), and all of the text joined
   * with single spaces (`" ".join(soup.stripped_strings)`).
   */
  datatype Markup = Markup(html: string, items: seq<string>, text: string)

  /**
   * A parsed requirement block. The source builds a dict whose keys are the
   * eight labels, inserted in label order and never removed; it is modelled as
   * the sequence of its values in that order, so `b[k]` is the content of
   * `Categories[k]`.
   */
  type Block = seq<string>

  /** The block has exactly one entry per category. */
  predicate IsBlock(b: Block) {
    |b| == |Categories|
  }

  /** `{cat: "" for cat in categories}`. */
  function Blank(): (b: Block)
    ensures IsBlock(b)
    ensures forall k :: 0 <= k < |b| ==> b[k] == ""
  {
    seq(|Categories|, k => "")
  }

  predicate IsSeparator(c: char) {
    c == ':' || IsSpace(c)
  }

  /** `label` occurs at position `i` of `s`, ignoring the case of ASCII letters (`re.I`). */
  predicate LabelAt(s: string, i: nat, cat: string) {
    i + |cat| <= |s| && EqualIgnoringCase(s[i..i + |cat|], cat)
  }

  /** `re.match(label + r"[:\s]", line, re.I)`: the line opens with the label and a colon or whitespace. */
  predicate StartsWithLabel(line: string, cat: string) {
    LabelAt(line, 0, cat) && |cat| < |line| && IsSeparator(line[|cat|])
  }

  /** The first category, in label order from index `k`, whose label opens `line`. */
  function ClassifyFrom(line: string, k: nat): (r: Option<nat>)
    requires k <= |Categories|
    ensures r.Some? ==> k <= r.value < |Categories|
    decreases |Categories| - k
  {
    if k == |Categories| then None
    else if StartsWithLabel(line, Categories[k]) then Some(k)
    else ClassifyFrom(line, k + 1)
  }

  /** The category a line is filed under, or None when it is to be folded into the notes. */
  function Classify(line: string): (r: Option<nat>)
    ensures r.Some? ==> r.value < |Categories| && StartsWithLabel(line, Categories[r.value])
  {
    ClassifyFromIsFirst(line, 0);
    ClassifyFrom(line, 0)
  }

  /** `ClassifyFrom` finds the first label, from `k` on, that opens the line, and None only when no label does. */
  lemma {:induction false} ClassifyFromIsFirst(line: string, k: nat)
    requires k <= |Categories|
    ensures var r := ClassifyFrom(line, k);
            && (r.Some? ==> StartsWithLabel(line, Categories[r.value]))
            && (r.Some? ==> forall j :: k <= j < r.value ==> !StartsWithLabel(line, Categories[j]))
            && (r.None? <==> forall j :: k <= j < |Categories| ==> !StartsWithLabel(line, Categories[j]))
    decreases |Categories| - k
  {
    if k < |Categories| && !StartsWithLabel(line, Categories[k]) {
      ClassifyFromIsFirst(line, k + 1);
    }
  }

  /**
   * A line is filed under the first category, in label order, whose label
   * opens it; it goes to the notes exactly when no label opens it.
   */
  lemma ClassifyIsFirstLabel(line: string)
    ensures Classify(line).Some? ==> StartsWithLabel(line, Categories[Classify(line).value])
    ensures Classify(line).Some? ==> forall j :: 0 <= j < Classify(line).value ==> !StartsWithLabel(line, Categories[j])
    ensures Classify(line).None? <==> forall j :: 0 <= j < |Categories| ==> !StartsWithLabel(line, Categories[j])
  {
    ClassifyFromIsFirst(line, 0);
  }

  /** Drops a leading run of colons and whitespace (the `[:\s]*` of the label pattern). */
  function SkipSeparators(s: string): (r: string)
    ensures |r| <= |s|
  {
    if |s| > 0 && IsSeparator(s[0]) then SkipSeparators(s[1..]) else s
  }

  /** The label occurs somewhere in `s`, ignoring case. */
  predicate HasLabel(s: string, cat: string) {
    exists i | 0 <= i <= |s| :: LabelAt(s, i, cat)
  }

  /**
   * `re.sub(label + r"[:\s]*", "", s, flags=re.I)`: scanning left to right,
   * every occurrence of the label, with the colons and whitespace after it, is
   * deleted; other characters are kept in order.
   */
  function RemoveLabel(s: string, cat: string): (r: string)
    requires |cat| > 0
    ensures |r| <= |s|
    decreases |s|
  {
    if |s| == 0 then ""
    else if LabelAt(s, 0, cat) then RemoveLabel(SkipSeparators(s[|cat|..]), cat)
    else [s[0]] + RemoveLabel(s[1..], cat)
  }

  /** Text in which the label does not occur passes through the substitution unchanged. */
  lemma {:induction false} RemoveLabelAbsent(s: string, cat: string)
    requires |cat| > 0 && !HasLabel(s, cat)
    ensures RemoveLabel(s, cat) == s
    decreases |s|
  {
    if |s| > 0 {
      assert !LabelAt(s, 0, cat);
      if HasLabel(s[1..], cat) {
        var i :| 0 <= i <= |s[1..]| && LabelAt(s[1..], i, cat);
        assert s[1..][i..i + |cat|] == s[i + 1..i + 1 + |cat|];
        assert LabelAt(s, i + 1, cat);
      }
      RemoveLabelAbsent(s[1..], cat);
    }
  }

  /** The content stored for a labelled line: the line with the label removed, stripped. */
  function Content(line: string, cat: string): (r: string)
    requires |cat| > 0
    ensures |r| <= |line|
    ensures r == [] || (!IsSpace(r[0]) && !IsSpace(r[|r| - 1]))
  {
    StripIsTrimmedSlice(RemoveLabel(line, cat));
    Strip(RemoveLabel(line, cat))
  }

  /** The `[:\s]*` after a label consumes the whole run of separators and nothing after it. */
  lemma {:induction false} SkipSeparatorRun(seps: string, rest: string)
    requires forall k :: 0 <= k < |seps| ==> IsSeparator(seps[k])
    requires rest == [] || !IsSeparator(rest[0])
    ensures SkipSeparators(seps + rest) == rest
  {
    if seps != [] {
      assert (seps + rest)[1..] == seps[1..] + rest;
      SkipSeparatorRun(seps[1..], rest);
    }
  }

  /** A label (in any case) with the separators after it is deleted, and the scan resumes after them. */
  lemma {:induction false} LabelDeleted(pre: string, seps: string, rest: string, cat: string)
    requires |cat| > 0 && EqualIgnoringCase(pre, cat)
    requires forall k :: 0 <= k < |seps| ==> IsSeparator(seps[k])
    requires rest == [] || !IsSeparator(rest[0])
    ensures RemoveLabel(pre + seps + rest, cat) == RemoveLabel(rest, cat)
  {
    var line := pre + seps + rest;
    assert line[0..|cat|] == pre;
    assert line[|cat|..] == seps + rest;
    SkipSeparatorRun(seps, rest);
  }

  /** A character at which the label does not start is kept. */
  lemma {:induction false} CharKept(c: char, rest: string, cat: string)
    requires |cat| > 0 && !LabelAt([c] + rest, 0, cat)
    ensures RemoveLabel([c] + rest, cat) == [c] + RemoveLabel(rest, cat)
  {
    assert ([c] + rest)[1..] == rest;
  }

  /** A text with no letter matching the label's first letter holds no label. */
  lemma {:induction false} NoLabelWithoutFirstLetter(s: string, cat: string)
    requires |cat| > 0
    requires forall k :: 0 <= k < |s| ==> LowerChar(s[k]) != LowerChar(cat[0])
    ensures !HasLabel(s, cat)
  {
    forall i | 0 <= i <= |s| ensures !LabelAt(s, i, cat) {
      if i + |cat| <= |s| {
        assert s[i..i + |cat|][0] == s[i];
      }
    }
  }

  lemma {:induction false} EqualIgnoringCaseReflexive(a: string)
    ensures EqualIgnoringCase(a, a)
  {
    EqualIgnoringCaseMeansSameLower(a, a);
  }

  /**
   * An ordinary labelled line, the label (in any case) then colons and
   * whitespace then text in which the label does not occur again, stores that
   * text, stripped.
   */
  lemma {:induction false} LabelledLineContent(pre: string, seps: string, rest: string, cat: string)
    requires |cat| > 0 && EqualIgnoringCase(pre, cat)
    requires forall k :: 0 <= k < |seps| ==> IsSeparator(seps[k])
    requires rest == [] || !IsSeparator(rest[0])
    requires !HasLabel(rest, cat)
    ensures Content(pre + seps + rest, cat) == Strip(rest)
  {
    LabelDeleted(pre, seps, rest, cat);
    RemoveLabelAbsent(rest, cat);
  }

  /**
   * The substitution removes the label wherever it occurs, inside words too:
   * "OS: macOS 10.15" stores "mac10.15" under "OS".
   */
  lemma LabelInsideWordRemoved()
    ensures Content("OS: macOS 10.15", "OS") == "mac10.15"
  {
    EqualIgnoringCaseReflexive("OS");
    assert "OS: macOS 10.15" == "OS" + ": " + "macOS 10.15";
    LabelDeleted("OS", ": ", "macOS 10.15", "OS");
    InWordLabelRemoved();
    StripKeeps("mac10.15");
  }

  /** Inside "macOS 10.15" the label is removed with the space after it. */
  lemma InWordLabelRemoved()
    ensures RemoveLabel("macOS 10.15", "OS") == "mac10.15"
  {
    assert "macOS 10.15" == "mac" + "OS 10.15";
    assert "mac" + "10.15" == "mac10.15";
    TrailingLabelRemoved();
    WordKept("mac", "OS 10.15", "OS");
  }

  /** A word none of whose letters can start the label is kept in front of what the removal leaves of the rest. */
  lemma {:induction false} WordKept(w: string, rest: string, cat: string)
    requires |cat| > 0
    requires forall i :: 0 <= i < |w| ==> LowerChar(w[i]) != LowerChar(cat[0])
    ensures RemoveLabel(w + rest, cat) == w + RemoveLabel(rest, cat)
    decreases |w|
  {
    if w != [] {
      var s := w + rest;
      assert s == [w[0]] + (w[1..] + rest);
      WordKept(w[1..], rest, cat);
      assert !LabelAt(s, 0, cat) by {
        if |cat| <= |s| {
          assert s[0..|cat|][0] == w[0];
        }
      }
      CharKept(w[0], w[1..] + rest, cat);
      assert w == [w[0]] + w[1..];
    } else {
      assert w + rest == rest;
    }
  }

  lemma TrailingLabelRemoved()
    ensures RemoveLabel("OS 10.15", "OS") == "10.15"
  {
    EqualIgnoringCaseReflexive("OS");
    NoLabelWithoutFirstLetter("10.15", "OS");
    RemoveLabelAbsent("10.15", "OS");
    assert "OS 10.15" == "OS" + " " + "10.15";
    LabelDeleted("OS", " ", "10.15", "OS");
  }

  /** The for-else branch: append to the notes with " | ", or start them. */
  function AppendNote(notes: string, line: string): string
  {
    if notes != "" then notes + NoteSeparator + line else line
  }

  /**
   * The effect of one `<li>` line on the block: a labelled line sets its
   * category to its content, an unlabelled one is appended to the notes, and
   * every other category is left as it was.
   */
  function Absorb(data: Block, line: string): (r: Block)
    requires IsBlock(data)
    ensures IsBlock(r)
    ensures Classify(line).Some? ==> r[Classify(line).value] == Content(line, Categories[Classify(line).value])
    ensures Classify(line).None? ==> r[NotesIndex] == AppendNote(data[NotesIndex], line)
    ensures forall k :: 0 <= k < |r| && Classify(line) != Some(k) && (k != NotesIndex || Classify(line).Some?) ==> r[k] == data[k]
  {
    match Classify(line)
    case Some(k) => data[k := Content(line, Categories[k])]
    case None => data[NotesIndex := AppendNote(data[NotesIndex], line)]
  }

  /** The block after the line loop has absorbed `lines` in order. */
  function Categorise(lines: seq<string>): (r: Block)
    ensures IsBlock(r)
  {
    if lines == [] then Blank()
    else Absorb(Categorise(lines[..|lines| - 1]), lines[|lines| - 1])
  }

  /** One more line: the block absorbs it. */
  lemma {:induction false} CategoriseStep(lines: seq<string>, line: string)
    ensures Categorise(lines + [line]) == Absorb(Categorise(lines), line)
  {
    assert (lines + [line])[..|lines|] == lines;
  }

  /** `not any(data.values())`: every category is empty. */
  predicate AllEmpty(data: Block)
  {
    forall k | 0 <= k < |data| :: data[k] == ""
  }

  /**
   * The inner `for cat in categories` loop: the index of the first label that
   * opens the line, or `|Categories|` when the loop runs out (its `else`).
   */
  method FindCategory(text: string) returns (k: nat)
    ensures k <= |Categories|
    ensures Classify(text) == if k < |Categories| then Some(k) else None
  {
    k := 0;
    while k < |Categories| && !StartsWithLabel(text, Categories[k])
      invariant 0 <= k <= |Categories|
      invariant ClassifyFrom(text, k) == Classify(text)
    {
      k := k + 1;
    }
  }

  /**
   * The body of the line loop: file `text` under the first label that opens it
   * (overwriting that category), or append it to "Additional Notes".
   */
  method FileLine(data: Block, text: string) returns (r: Block)
    requires IsBlock(data)
    ensures r == Absorb(data, text)
  {
    var k := FindCategory(text);
    if k < |Categories| {
      r := data[k := Content(text, Categories[k])];
    } else if data[NotesIndex] != "" {
      r := data[NotesIndex := data[NotesIndex] + NoteSeparator + text];
    } else {
      r := data[NotesIndex := text];
    }
  }

  /** `parse_requirements(html_text)`. */
  method ParseRequirements(markup: Option<Markup>) returns (r: Option<Block>)
    ensures r.None? <==> markup.None? || markup.value.html == ""
    ensures r.Some? ==> IsBlock(r.value)
    ensures r.Some? ==> var data := Categorise(markup.value.items);
              r.value == if AllEmpty(data) then data[NotesIndex := markup.value.text] else data
  {
    if markup.None? || markup.value.html == "" {
      return None;
    }
    var lines := markup.value.items;
    var data := Blank();
    var i := 0;
    ghost var done: seq<string> := [];
    while i < |lines|
      invariant 0 <= i <= |lines|
      invariant done == lines[..i]
      invariant data == Categorise(done)
    {
      var text := lines[i];
      CategoriseStep(done, text);
      data := FileLine(data, text);
      done := done + [text];
      i := i + 1;
    }
    assert done == lines;
    if forall k | 0 <= k < |Categories| :: data[k] == "" {
      data := data[NotesIndex := markup.value.text];
    }
    return Some(data);
  }

  /**
   * Last writer wins: a category other than "Additional Notes" holds the
   * content of the last line filed under it.
   */
  lemma {:induction false} LastLabelledLineWins(lines: seq<string>, i: nat, k: nat)
    requires i < |lines| && k < |Categories| && k != NotesIndex
    requires Classify(lines[i]) == Some(k)
    requires forall j {:trigger Classify(lines[j])} :: i < j < |lines| ==> Classify(lines[j]) != Some(k)
    ensures Categorise(lines)[k] == Content(lines[i], Categories[k])
  {
    var last := |lines| - 1;
    var prefix := lines[..last];
    SplitLast(lines, i);
    CategoriseStep(prefix, lines[last]);
    if i < last {
      LastLabelledLineWins(prefix, i, k);
    } else {
    }
  }

  /** A category other than "Additional Notes" that no line is filed under stays empty. */
  lemma {:induction false} UnlabelledCategoryEmpty(lines: seq<string>, k: nat)
    requires k < |Categories| && k != NotesIndex
    requires forall j {:trigger Classify(lines[j])} :: 0 <= j < |lines| ==> Classify(lines[j]) != Some(k)
    ensures Categorise(lines)[k] == ""
  {
    if lines != [] {
      var last := |lines| - 1;
      var prefix := lines[..last];
      SplitLast(lines, 0);
      CategoriseStep(prefix, lines[last]);
      UnlabelledCategoryEmpty(prefix, k);
    }
  }

  /** The lines that no label opens, in their original order. */
  function Unlabelled(lines: seq<string>): (r: seq<string>)
    ensures |r| <= |lines|
  {
    if lines == [] then []
    else if Classify(lines[|lines| - 1]).None? then Unlabelled(lines[..|lines| - 1]) + [lines[|lines| - 1]]
    else Unlabelled(lines[..|lines| - 1])
  }

  lemma JoinSingle(c: string)
    ensures Join(DropLeadingEmpty([c]), NoteSeparator) == c
  {
  }

  lemma {:induction false} UnlabelledSnoc(lines: seq<string>, t: string)
    ensures Unlabelled(lines + [t]) == Unlabelled(lines) + if Classify(t).None? then [t] else []
  {
    assert (lines + [t])[..|lines|] == lines;
  }

  lemma SplitLast<T>(s: seq<T>, n: nat)
    requires n < |s|
    ensures s[..|s| - 1] + [s[|s| - 1]] == s
    ensures s[..|s| - 1][..n] == s[..n]
    ensures s[n..] == s[..|s| - 1][n..] + [s[|s| - 1]]
  {
  }

  lemma TakeSnoc<T>(s: seq<T>, i: nat)
    requires i < |s|
    ensures s[..i + 1] == s[..i] + [s[i]]
  {
  }

  /** Drops the empty strings at the front of `xs`. */
  function DropLeadingEmpty(xs: seq<string>): (r: seq<string>)
    ensures r == [] || r[0] != ""
  {
    if xs == [] then []
    else if xs[0] == "" then DropLeadingEmpty(xs[1..])
    else xs
  }

  lemma {:induction false} DropLeadingEmptySnoc(xs: seq<string>, t: string)
    ensures DropLeadingEmpty(xs + [t]) ==
            if DropLeadingEmpty(xs) == [] then (if t == "" then [] else [t])
            else DropLeadingEmpty(xs) + [t]
  {
    if xs != [] {
      assert (xs + [t])[1..] == xs[1..] + [t];
      if xs[0] == "" {
        DropLeadingEmptySnoc(xs[1..], t);
      }
    }
  }

  /** A join of parts whose first part is non-empty is non-empty. */
  lemma {:induction false} JoinNonEmpty(xs: seq<string>)
    requires xs != [] && xs[0] != ""
    ensures Join(xs, NoteSeparator) != ""
  {
    if |xs| >= 2 {
      assert |Join(xs, NoteSeparator)| >= |NoteSeparator|;
    }
  }

  /** Appending one unlabelled line to notes that join `parts` joins one part more. */
  lemma {:induction false} AppendNoteJoin(parts: seq<string>, t: string)
    ensures AppendNote(Join(DropLeadingEmpty(parts), NoteSeparator), t)
            == Join(DropLeadingEmpty(parts + [t]), NoteSeparator)
  {
    DropLeadingEmptySnoc(parts, t);
    var d := DropLeadingEmpty(parts);
    if d != [] {
      JoinNonEmpty(d);
      assert (d + [t])[..|d|] == d;
    }
  }

  /**
   * From line `n` on, with no line labelled "Additional Notes", the notes grow
   * by the unlabelled lines, joined with " | ".
   */
  lemma {:induction false} NotesAccumulate(lines: seq<string>, n: nat, start: seq<string>)
    requires n <= |lines|
    requires Categorise(lines[..n])[NotesIndex] == Join(DropLeadingEmpty(start), NoteSeparator)
    requires forall j {:trigger Classify(lines[j])} :: n <= j < |lines| ==> Classify(lines[j]) != Some(NotesIndex)
    ensures Categorise(lines)[NotesIndex] == Join(DropLeadingEmpty(start + Unlabelled(lines[n..])), NoteSeparator)
  {
    if |lines| == n {
      assert lines[..n] == lines;
      assert start + Unlabelled(lines[n..]) == start;
    } else {
      var last := |lines| - 1;
      var prefix := lines[..last];
      var t := lines[last];
      SplitLast(lines, n);
      assert start + Unlabelled(lines[n..])
          == (start + Unlabelled(prefix[n..])) + if Classify(t).None? then [t] else [] by {
        UnlabelledSnoc(prefix[n..], t);
      }
      NotesAccumulate(prefix, n, start);
      NotesStep(prefix, t, start + Unlabelled(prefix[n..]));
    }
  }

  /** One more line that is not labelled "Additional Notes" extends the joined notes by itself when unlabelled. */
  lemma {:induction false} NotesStep(lines: seq<string>, t: string, parts: seq<string>)
    requires Categorise(lines)[NotesIndex] == Join(DropLeadingEmpty(parts), NoteSeparator)
    requires Classify(t) != Some(NotesIndex)
    ensures Categorise(lines + [t])[NotesIndex]
            == Join(DropLeadingEmpty(parts + if Classify(t).None? then [t] else []), NoteSeparator)
  {
    CategoriseStep(lines, t);
    if Classify(t).None? {
      AppendNoteJoin(parts, t);
    } else {
      assert parts + [] == parts;
    }
  }

  /**
   * Unlabelled lines are folded into "Additional Notes": with no line labelled
   * "Additional Notes", the notes are the unlabelled lines in order, joined
   * with " | " (empty lines before the first non-empty one leave no trace).
   */
  lemma {:induction false} NotesFromUnlabelled(lines: seq<string>)
    requires forall j {:trigger Classify(lines[j])} :: 0 <= j < |lines| ==> Classify(lines[j]) != Some(NotesIndex)
    ensures Categorise(lines)[NotesIndex] == Join(DropLeadingEmpty(Unlabelled(lines)), NoteSeparator)
  {
    assert lines[..0] == [] && lines[0..] == lines;
    assert Categorise([]) == Blank();
    assert [] + Unlabelled(lines) == Unlabelled(lines);
    NotesAccumulate(lines, 0, []);
  }

  /**
   * A line labelled "Additional Notes" overwrites the notes gathered so far;
   * the unlabelled lines after it are appended to its content.
   */
  lemma {:induction false} NotesAfterLabelledLine(lines: seq<string>, i: nat)
    requires i < |lines| && Classify(lines[i]) == Some(NotesIndex)
    requires forall j {:trigger Classify(lines[j])} :: i < j < |lines| ==> Classify(lines[j]) != Some(NotesIndex)
    ensures Categorise(lines)[NotesIndex]
            == Join(DropLeadingEmpty([Content(lines[i], Notes)] + Unlabelled(lines[i + 1..])), NoteSeparator)
  {
    var c := Content(lines[i], Notes);
    TakeSnoc(lines, i);
    CategoriseStep(lines[..i], lines[i]);
    JoinSingle(c);
    NotesAccumulate(lines, i + 1, [c]);
  }

  lemma {:induction false} UnlabelledAll(lines: seq<string>)
    requires forall j {:trigger Classify(lines[j])} :: 0 <= j < |lines| ==> Classify(lines[j]).None?
    ensures Unlabelled(lines) == lines
  {
    if lines != [] {
      UnlabelledAll(lines[..|lines| - 1]);
    }
  }

  /**
   * A block made only of unlabelled, non-empty lines: every line lands in
   * "Additional Notes", joined with " | " in the original order, and every other
   * category stays empty.
   */
  lemma {:induction false} OnlyUnlabelledLines(lines: seq<string>)
    requires forall j {:trigger Classify(lines[j])} :: 0 <= j < |lines| ==> Classify(lines[j]).None?
    requires forall j :: 0 <= j < |lines| ==> lines[j] != ""
    ensures Categorise(lines)[NotesIndex] == Join(lines, NoteSeparator)
    ensures forall k :: 0 <= k < |Categories| && k != NotesIndex ==> Categorise(lines)[k] == ""
  {
    UnlabelledAll(lines);
    NotesFromUnlabelled(lines);
    forall k | 0 <= k < |Categories| && k != NotesIndex
      ensures Categorise(lines)[k] == ""
    {
      UnlabelledCategoryEmpty(lines, k);
    }
  }
}
