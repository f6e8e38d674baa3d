/**
 * `compare_specs`: the user's hardware profile against one requirement block.
 * The block's values are joined with spaces and lower-cased; each of the four
 * patterns that matches contributes a ratio (what the user has over what is
 * required), a shortfall note when the ratio is below 1, and up to 25 points.
 */
module Comparator {
  import opened Wrappers
  import opened Text
  import opened Scoring
  import opened Patterns

  /** The entries of the hardware profile the comparator reads; an absent "CPU" or "GPU" key is None. */
  datatype Profile = Profile(ramGb: real, vramMb: real, cpu: Option<string>, gpu: Option<string>)

  /** What `user_specs.get("CPU", "i5")` and `user_specs.get("GPU", "gtx 1050")` fall back to. */
  const DefaultCpu: string := "i5"
  const DefaultGpu: string := "gtx 1050"

  /** A shortfall note, carrying the values its message prints. */
  datatype Note =
    | RamTooLow(haveGb: real, needGb: nat)
    | VramTooLow(haveMb: real, needMb: nat)
    | CpuInsufficient(haveCpu: Option<string>, needCpu: string)
    | GpuInsufficient(haveGpu: Option<string>, needGpu: string)

  /** The position of a note's dimension in the order the comparator checks them. */
  function Rank(n: Note): nat
  {
    match n
    case RamTooLow(_, _) => 0
    case VramTooLow(_, _) => 1
    case CpuInsufficient(_, _) => 2
    case GpuInsufficient(_, _) => 3
  }

  /** One matched dimension: its ratio, and the note it leaves when the ratio is below 1. */
  datatype Check = Check(ratio: real, note: Note)

  /** The returned dictionary: `can_meet`, `notes` and `score`. */
  datatype Comparison = Comparison(canMeet: bool, notes: seq<Note>, score: real)

  /** A comparison, or the ZeroDivisionError a required "0 GB" of RAM or VRAM raises. */
  datatype Outcome = Compared(result: Comparison) | DivisionByZero

  /** Points per dimension, and the cap on the total. */
  const Weight: real := 25.0
  const Cap: real := 100.0

  /** What a falsy requirement block yields. */
  const NoRequirements: Comparison := Comparison(false, [], 0.0)

  /**
   * `" ".join(req_text.values()).lower()`: every value and one space between
   * neighbours, with no upper-case letter left.
   */
  function RequirementText(values: seq<string>): (r: string)
    ensures |r| == TotalLength(values) + if values == [] then 0 else |values| - 1
    ensures forall i :: 0 <= i < |r| ==> !IsUpper(r[i])
    ensures values != [] ==> Lower(values[0]) <= r
  {
    JoinedLowerStartsWithFirst(values, " ");
    Lower(Join(values, " "))
  }

  /** `min(ratio, 1)`. */
  function Capped(ratio: real): (r: real)
    ensures r <= 1.0 && r <= ratio
    ensures r == ratio || r == 1.0
  {
    if 1.0 < ratio then 1.0 else ratio
  }

  function RamCheck(user: Profile, need: Option<nat>): seq<Check>
    requires need != Some(0)
  {
    match need
    case None => []
    case Some(n) => [Check(user.ramGb / n as real, RamTooLow(user.ramGb, n))]
  }

  /** The VRAM ratio is megabytes over required gigabytes, then over 1024. */
  function VramCheck(user: Profile, need: Option<nat>): seq<Check>
    requires need != Some(0)
  {
    match need
    case None => []
    case Some(n) => [Check(user.vramMb / n as real / 1024.0, VramTooLow(user.vramMb, n * 1024))]
  }

  /** The CPU ratio: the user's CPU score over the score of the matched span. */
  function CpuCheck(user: Profile, span: Option<string>): seq<Check>
  {
    match span
    case None => []
    case Some(s) =>
      [Check(CpuScore(user.cpu.GetOr(DefaultCpu)) as real / CpuScore(s) as real, CpuInsufficient(user.cpu, s))]
  }

  /** The GPU ratio: the user's GPU score over the score of the matched span. */
  function GpuCheck(user: Profile, span: Option<string>): seq<Check>
  {
    match span
    case None => []
    case Some(s) =>
      [Check(GpuScore(user.gpu.GetOr(DefaultGpu)) as real / GpuScore(s) as real, GpuInsufficient(user.gpu, s))]
  }

  /** What the four `re.search` calls found in the requirement text. */
  datatype Found = Found(ram: Option<nat>, vram: Option<nat>, cpu: Option<string>, gpu: Option<string>)

  /** Runs the four patterns over the lower-cased requirement text. */
  function Scan(txt: string): Found
  {
    Found(RamAmount(txt), VramAmount(txt), CpuSpan(txt), GpuSpan(txt))
  }

  /**
   * The checks made for what was found, RAM, VRAM, CPU, GPU in that order, one
   * per pattern that matched; None when a required amount is 0.
   */
  function Checks(user: Profile, found: Found): (r: Option<seq<Check>>)
    ensures r.None? <==> found.ram == Some(0) || found.vram == Some(0)
    ensures r.Some? ==> |r.value| == (if found.ram.Some? then 1 else 0) + (if found.vram.Some? then 1 else 0)
                                     + (if found.cpu.Some? then 1 else 0) + (if found.gpu.Some? then 1 else 0)
  {
    if found.ram == Some(0) || found.vram == Some(0) then None
    else Some(RamCheck(user, found.ram) + VramCheck(user, found.vram) + CpuCheck(user, found.cpu) + GpuCheck(user, found.gpu))
  }

  /** Folding checks in order: the flag drops, a note is appended and points are added, per check. */
  function Tally(checks: seq<Check>): (r: Comparison)
    ensures |r.notes| <= |checks|
    ensures r.score <= |checks| as real * Weight
  {
    if checks == [] then Comparison(true, [], 0.0)
    else
      var before := Tally(checks[..|checks| - 1]);
      var c := checks[|checks| - 1];
      Comparison(before.canMeet && !(c.ratio < 1.0),
                 before.notes + (if c.ratio < 1.0 then [c.note] else []),
                 before.score + Capped(c.ratio) * Weight)
  }

  /** `min(score, 100)`: only the score changes, and only when it exceeds the cap. */
  function CapScore(c: Comparison): (r: Comparison)
    ensures r.canMeet == c.canMeet && r.notes == c.notes
    ensures r.score <= Cap && r.score <= c.score
    ensures r.score == c.score || r.score == Cap
  {
    if Cap < c.score then c.(score := Cap) else c
  }

  /**
   * The outcome for a non-empty requirement block in which `found` was found.
   * The only failure is a required amount of 0 GB: the CPU and GPU divisions
   * cannot fail, since every score is positive.
   */
  function Judge(user: Profile, found: Found): (r: Outcome)
    ensures r.DivisionByZero? <==> found.ram == Some(0) || found.vram == Some(0)
    ensures r.Compared? ==> r.result.score <= Cap && |r.result.notes| <= 4
  {
    match Checks(user, found)
    case None => DivisionByZero
    case Some(checks) => Compared(CapScore(Tally(checks)))
  }

  /** `compare_specs(user_specs, req_text)`, where `req` is the requirement block's values. */
  function Compare(user: Profile, req: Option<seq<string>>): (r: Outcome)
    ensures (req.None? || req.value == []) ==> r == Compared(NoRequirements)
    ensures r.DivisionByZero? ==> req.Some? && req.value != []
    ensures r.Compared? ==> r.result.score <= Cap && |r.result.notes| <= 4
  {
    if req.None? || req.value == [] then Compared(NoRequirements)
    else Judge(user, Scan(RequirementText(req.value)))
  }

  /** One more check extends the tally by one step. */
  lemma {:induction false} TallySnoc(checks: seq<Check>, c: Check)
    ensures var before := Tally(checks);
            Tally(checks + [c]) == Comparison(before.canMeet && !(c.ratio < 1.0),
                                              before.notes + (if c.ratio < 1.0 then [c.note] else []),
                                              before.score + Capped(c.ratio) * Weight)
  {
    assert (checks + [c])[..|checks|] == checks;
  }

  /**
   * One matched dimension, as each branch of `compare_specs` handles it: a ratio
   * below 1 clears the flag and appends the note, and `min(ratio, 1) * 25` is
   * added to the score. `done` is the checks made so far.
   */
  method Account(ghost done: seq<Check>, canMeet: bool, notes: seq<Note>, score: real, ratio: real, note: Note)
    returns (canMeet': bool, notes': seq<Note>, score': real)
    requires Tally(done) == Comparison(canMeet, notes, score)
    ensures Tally(done + [Check(ratio, note)]) == Comparison(canMeet', notes', score')
  {
    canMeet', notes', score' := canMeet, notes, score;
    if ratio < 1.0 {
      canMeet' := false;
      notes' := notes' + [note];
    }
    score' := score' + Capped(ratio) * Weight;
    TallySnoc(done, Check(ratio, note));
  }

  /** The RAM branch of `compare_specs`; `need` is the required gigabytes, if the pattern matched. */
  method RamStep(user: Profile, need: Option<nat>, ghost done: seq<Check>, canMeet: bool, notes: seq<Note>, score: real)
    returns (canMeet': bool, notes': seq<Note>, score': real)
    requires need != Some(0)
    requires Tally(done) == Comparison(canMeet, notes, score)
    ensures Tally(done + RamCheck(user, need)) == Comparison(canMeet', notes', score')
  {
    canMeet', notes', score' := canMeet, notes, score;
    if need.Some? {
      var n := need.value;
      canMeet', notes', score' := Account(done, canMeet, notes, score, user.ramGb / n as real, RamTooLow(user.ramGb, n));
    } else {
      assert done + RamCheck(user, need) == done;
    }
  }

  /** The VRAM branch of `compare_specs`; `need` is the required gigabytes, if the pattern matched. */
  method VramStep(user: Profile, need: Option<nat>, ghost done: seq<Check>, canMeet: bool, notes: seq<Note>, score: real)
    returns (canMeet': bool, notes': seq<Note>, score': real)
    requires need != Some(0)
    requires Tally(done) == Comparison(canMeet, notes, score)
    ensures Tally(done + VramCheck(user, need)) == Comparison(canMeet', notes', score')
  {
    canMeet', notes', score' := canMeet, notes, score;
    if need.Some? {
      var n := need.value;
      canMeet', notes', score' := Account(done, canMeet, notes, score, user.vramMb / n as real / 1024.0, VramTooLow(user.vramMb, n * 1024));
    } else {
      assert done + VramCheck(user, need) == done;
    }
  }

  /** The CPU branch of `compare_specs`; `span` is what the CPU pattern matched, if anything. */
  method CpuStep(user: Profile, span: Option<string>, ghost done: seq<Check>, canMeet: bool, notes: seq<Note>, score: real)
    returns (canMeet': bool, notes': seq<Note>, score': real)
    requires Tally(done) == Comparison(canMeet, notes, score)
    ensures Tally(done + CpuCheck(user, span)) == Comparison(canMeet', notes', score')
  {
    canMeet', notes', score' := canMeet, notes, score;
    if span.Some? {
      var s := span.value;
      canMeet', notes', score' := Account(done, canMeet, notes, score,
                                          CpuScore(user.cpu.GetOr(DefaultCpu)) as real / CpuScore(s) as real,
                                          CpuInsufficient(user.cpu, s));
    } else {
      assert done + CpuCheck(user, span) == done;
    }
  }

  /** The GPU branch of `compare_specs`; `span` is what the GPU pattern matched, if anything. */
  method GpuStep(user: Profile, span: Option<string>, ghost done: seq<Check>, canMeet: bool, notes: seq<Note>, score: real)
    returns (canMeet': bool, notes': seq<Note>, score': real)
    requires Tally(done) == Comparison(canMeet, notes, score)
    ensures Tally(done + GpuCheck(user, span)) == Comparison(canMeet', notes', score')
  {
    canMeet', notes', score' := canMeet, notes, score;
    if span.Some? {
      var s := span.value;
      canMeet', notes', score' := Account(done, canMeet, notes, score,
                                          GpuScore(user.gpu.GetOr(DefaultGpu)) as real / GpuScore(s) as real,
                                          GpuInsufficient(user.gpu, s));
    } else {
      assert done + GpuCheck(user, span) == done;
    }
  }

  /**
   * The body of `compare_specs` once the four patterns have been searched:
   * RAM, VRAM, CPU and GPU are accounted for in turn, a required 0 GB raising
   * the division by zero when its branch is reached, and the score is capped.
   */
  method CompareFound(user: Profile, found: Found) returns (r: Outcome)
    ensures r == Judge(user, found)
  {
    var notes: seq<Note> := [];
    var score: real := 0.0;
    var canMeet := true;

    if found.ram == Some(0) {
      return DivisionByZero;
    }
    canMeet, notes, score := RamStep(user, found.ram, [], canMeet, notes, score);
    ghost var done := RamCheck(user, found.ram);
    assert [] + done == done;

    if found.vram == Some(0) {
      return DivisionByZero;
    }
    canMeet, notes, score := VramStep(user, found.vram, done, canMeet, notes, score);
    done := done + VramCheck(user, found.vram);
    canMeet, notes, score := CpuStep(user, found.cpu, done, canMeet, notes, score);
    done := done + CpuCheck(user, found.cpu);
    canMeet, notes, score := GpuStep(user, found.gpu, done, canMeet, notes, score);
    done := done + GpuCheck(user, found.gpu);

    if Cap < score {
      score := Cap;
    }
    return Compared(Comparison(canMeet, notes, score));
  }

  /**
   * `compare_specs`: a falsy block yields `NoRequirements`; otherwise the block
   * is joined, lower-cased and searched, and what was found is compared.
   */
  method CompareSpecs(user: Profile, req: Option<seq<string>>) returns (r: Outcome)
    ensures r == Compare(user, req)
    ensures req.None? || req.value == [] ==> r == Compared(NoRequirements)
  {
    if req.None? || req.value == [] {
      return Compared(NoRequirements);
    }
    var txt := RequirementText(req.value);
    var found := Found(RamAmount(txt), VramAmount(txt), CpuSpan(txt), GpuSpan(txt));
    r := CompareFound(user, found);
  }

  /**
   * The verdict of a tally: the flag holds exactly when no note was written,
   * exactly when every check has a ratio of at least 1.
   */
  lemma {:induction false} TallyVerdict(checks: seq<Check>)
    ensures Tally(checks).canMeet <==> Tally(checks).notes == []
    ensures Tally(checks).canMeet <==> forall i :: 0 <= i < |checks| ==> checks[i].ratio >= 1.0
  {
    if checks != [] {
      var init := checks[..|checks| - 1];
      TallyVerdict(init);
      assert forall i :: 0 <= i < |init| ==> init[i] == checks[i];
    }
  }

  /** Every note in a tally is the note of a failing check, and every failing check leaves its note. */
  lemma {:induction false} TallyNotes(checks: seq<Check>)
    ensures forall n :: n in Tally(checks).notes ==> exists i :: 0 <= i < |checks| && checks[i].ratio < 1.0 && checks[i].note == n
    ensures forall i :: 0 <= i < |checks| && checks[i].ratio < 1.0 ==> checks[i].note in Tally(checks).notes
    ensures |Tally(checks).notes| <= |checks|
  {
    if checks != [] {
      var init := checks[..|checks| - 1];
      TallyNotes(init);
      assert forall i :: 0 <= i < |init| ==> init[i] == checks[i];
    }
  }

  /** Checks in strictly increasing dimension order leave notes in strictly increasing order. */
  lemma {:induction false} TallyNotesOrdered(checks: seq<Check>)
    requires forall i, j :: 0 <= i < j < |checks| ==> Rank(checks[i].note) < Rank(checks[j].note)
    ensures forall i, j :: 0 <= i < j < |Tally(checks).notes| ==> Rank(Tally(checks).notes[i]) < Rank(Tally(checks).notes[j])
  {
    if checks != [] {
      var init := checks[..|checks| - 1];
      var c := checks[|checks| - 1];
      TallyNotesOrdered(init);
      TallyNotes(init);
      var before := Tally(init).notes;
      forall n | n in before ensures Rank(n) < Rank(c.note) {
        var i :| 0 <= i < |init| && init[i].ratio < 1.0 && init[i].note == n;
        assert init[i] == checks[i];
      }
    }
  }

  /** With non-negative ratios, the running score lies in [0, 25 × the number of checks]. */
  lemma {:induction false} TallyScoreBounds(checks: seq<Check>)
    requires RatiosNonNegative(checks)
    ensures 0.0 <= Tally(checks).score <= Weight * |checks| as real
  {
    if checks != [] {
      var init := checks[..|checks| - 1];
      assert forall i :: 0 <= i < |init| ==> init[i] == checks[i];
      TallyScoreBounds(init);
    }
  }

  /** The score never decreases when any ratios grow: it is monotone in each ratio. */
  lemma {:induction false} TallyScoreMonotone(lo: seq<Check>, hi: seq<Check>)
    requires RatiosAtMost(lo, hi)
    ensures Tally(lo).score <= Tally(hi).score
  {
    if lo != [] {
      var n := |lo| - 1;
      assert forall i :: 0 <= i < n ==> lo[..n][i] == lo[i] && hi[..n][i] == hi[i];
      TallyScoreMonotone(lo[..n], hi[..n]);
      assert Capped(lo[n].ratio) <= Capped(hi[n].ratio);
    }
  }

  /** At most one check per dimension, in the order RAM, VRAM, CPU, GPU. */
  lemma ChecksRanked(user: Profile, found: Found)
    requires Checks(user, found).Some?
    ensures var cs := Checks(user, found).value;
            |cs| <= 4 && forall i, j :: 0 <= i < j < |cs| ==> Rank(cs[i].note) < Rank(cs[j].note)
  {
    var ram, vram := RamCheck(user, found.ram), VramCheck(user, found.vram);
    var cpu, gpu := CpuCheck(user, found.cpu), GpuCheck(user, found.gpu);
    assert RanksAscendWithin(ram, 0, 1) && RanksAscendWithin(vram, 1, 2);
    CpuCheckRanked(user, found.cpu);
    GpuCheckRanked(user, found.gpu);
    RanksAscendConcat(ram, vram, 0, 1, 2);
    RanksAscendConcat(ram + vram, cpu, 0, 2, 3);
    RanksAscendConcat(ram + vram + cpu, gpu, 0, 3, 4);
  }

  lemma CpuCheckRanked(user: Profile, span: Option<string>)
    ensures RanksAscendWithin(CpuCheck(user, span), 2, 3)
  {
    if span.Some? {
      assert CpuCheck(user, span)[0].note == CpuInsufficient(user.cpu, span.value);
    }
  }

  lemma GpuCheckRanked(user: Profile, span: Option<string>)
    ensures RanksAscendWithin(GpuCheck(user, span), 3, 4)
  {
    if span.Some? {
      assert GpuCheck(user, span)[0].note == GpuInsufficient(user.gpu, span.value);
    }
  }

  /** Checks whose note ranks strictly ascend and lie in [lo, hi); there are at most hi - lo of them. */
  predicate RanksAscendWithin(cs: seq<Check>, lo: nat, hi: nat)
  {
    && |cs| <= hi - lo
    && (forall i :: 0 <= i < |cs| ==> lo <= Rank(cs[i].note) < hi)
    && (forall i, j :: 0 <= i < j < |cs| ==> Rank(cs[i].note) < Rank(cs[j].note))
  }

  lemma RanksAscendConcat(a: seq<Check>, b: seq<Check>, lo: nat, mid: nat, hi: nat)
    requires RanksAscendWithin(a, lo, mid) && RanksAscendWithin(b, mid, hi)
    ensures RanksAscendWithin(a + b, lo, hi)
  {
    forall i | 0 <= i < |a + b| ensures lo <= Rank((a + b)[i].note) < hi {
      if i < |a| { assert (a + b)[i] == a[i]; } else { assert (a + b)[i] == b[i - |a|]; }
    }
    forall i, j | 0 <= i < j < |a + b| ensures Rank((a + b)[i].note) < Rank((a + b)[j].note) {
      if i < |a| { assert (a + b)[i] == a[i]; } else { assert (a + b)[i] == b[i - |a|]; }
      if j < |a| { assert (a + b)[j] == a[j]; } else { assert (a + b)[j] == b[j - |a|]; }
    }
  }

  predicate RatiosNonNegative(checks: seq<Check>)
  {
    forall i :: 0 <= i < |checks| ==> checks[i].ratio >= 0.0
  }

  lemma RatiosNonNegativeConcat(a: seq<Check>, b: seq<Check>)
    requires RatiosNonNegative(a) && RatiosNonNegative(b)
    ensures RatiosNonNegative(a + b)
  {
    forall i | 0 <= i < |a + b| ensures (a + b)[i].ratio >= 0.0 {
      if i >= |a| {
        assert (a + b)[i] == b[i - |a|];
      }
    }
  }

  /** A quotient of non-negative by positive reals is non-negative. */
  lemma QuotientNonNegative(a: real, b: real)
    requires a >= 0.0 && b > 0.0
    ensures a / b >= 0.0
  {
  }

  lemma CpuCheckNonNegative(user: Profile, span: Option<string>)
    ensures RatiosNonNegative(CpuCheck(user, span))
  {
    if span.Some? {
      QuotientNonNegative(CpuScore(user.cpu.GetOr(DefaultCpu)) as real, CpuScore(span.value) as real);
    }
  }

  lemma GpuCheckNonNegative(user: Profile, span: Option<string>)
    ensures RatiosNonNegative(GpuCheck(user, span))
  {
    if span.Some? {
      QuotientNonNegative(GpuScore(user.gpu.GetOr(DefaultGpu)) as real, GpuScore(span.value) as real);
    }
  }

  lemma MemoryChecksNonNegative(user: Profile, found: Found)
    requires user.ramGb >= 0.0 && user.vramMb >= 0.0
    requires found.ram != Some(0) && found.vram != Some(0)
    ensures RatiosNonNegative(RamCheck(user, found.ram)) && RatiosNonNegative(VramCheck(user, found.vram))
  {
    if found.ram.Some? {
      QuotientNonNegative(user.ramGb, found.ram.value as real);
    }
    if found.vram.Some? {
      QuotientNonNegative(user.vramMb, found.vram.value as real);
      QuotientNonNegative(user.vramMb / found.vram.value as real, 1024.0);
    }
  }

  /** Ratios are non-negative when the user's memory sizes are. */
  lemma ChecksNonNegative(user: Profile, found: Found)
    requires user.ramGb >= 0.0 && user.vramMb >= 0.0 && Checks(user, found).Some?
    ensures RatiosNonNegative(Checks(user, found).value)
  {
    var ram := RamCheck(user, found.ram);
    var vram := VramCheck(user, found.vram);
    var cpu := CpuCheck(user, found.cpu);
    var gpu := GpuCheck(user, found.gpu);
    MemoryChecksNonNegative(user, found);
    CpuCheckNonNegative(user, found.cpu);
    GpuCheckNonNegative(user, found.gpu);
    RatiosNonNegativeConcat(ram, vram);
    RatiosNonNegativeConcat(ram + vram, cpu);
    RatiosNonNegativeConcat(ram + vram + cpu, gpu);
  }

  /**
   * `can_meet` is true exactly when no note was written, exactly when every
   * matched dimension has a ratio of at least 1.
   */
  lemma CanMeetIffNoShortfall(user: Profile, found: Found)
    requires Judge(user, found).Compared?
    ensures var c := Judge(user, found).result;
            var checks := Checks(user, found).value;
            && (c.canMeet <==> c.notes == [])
            && (c.canMeet <==> forall i :: 0 <= i < |checks| ==> checks[i].ratio >= 1.0)
  {
    TallyVerdict(Checks(user, found).value);
  }

  /** The notes come one per failed dimension, in the order RAM, VRAM, CPU, GPU. */
  lemma NotesInDimensionOrder(user: Profile, req: Option<seq<string>>)
    requires Compare(user, req).Compared?
    ensures var notes := Compare(user, req).result.notes;
            |notes| <= 4 && forall i, j :: 0 <= i < j < |notes| ==> Rank(notes[i]) < Rank(notes[j])
  {
    if req.Some? && req.value != [] {
      var found := Scan(RequirementText(req.value));
      JudgedNotesInOrder(user, found);
    }
  }

  /** With non-negative memory sizes every compared score lies in [0, 100]. */
  lemma CompareScoreInRange(user: Profile, req: Option<seq<string>>)
    requires user.ramGb >= 0.0 && user.vramMb >= 0.0 && Compare(user, req).Compared?
    ensures 0.0 <= Compare(user, req).result.score <= Cap
  {
    if req.Some? && req.value != [] {
      ScoreInRange(user, Scan(RequirementText(req.value)));
    }
  }

  /** For a non-empty requirement block, `can_meet` holds exactly when no note was written. */
  lemma CompareVerdict(user: Profile, req: Option<seq<string>>)
    requires req.Some? && req.value != [] && Compare(user, req).Compared?
    ensures Compare(user, req).result.canMeet <==> Compare(user, req).result.notes == []
  {
    CanMeetIffNoShortfall(user, Scan(RequirementText(req.value)));
  }

  lemma JudgedNotesInOrder(user: Profile, found: Found)
    requires Judge(user, found).Compared?
    ensures var notes := Judge(user, found).result.notes;
            |notes| <= 4 && forall i, j :: 0 <= i < j < |notes| ==> Rank(notes[i]) < Rank(notes[j])
  {
    var checks := Checks(user, found).value;
    ChecksRanked(user, found);
    TallyNotesOrdered(checks);
    TallyNotes(checks);
  }

  /**
   * With non-negative memory sizes the score lies in [0, 100], and the cap
   * never takes effect: four dimensions give at most 4 × 25 points.
   */
  lemma ScoreInRange(user: Profile, found: Found)
    requires user.ramGb >= 0.0 && user.vramMb >= 0.0 && Judge(user, found).Compared?
    ensures 0.0 <= Judge(user, found).result.score <= Cap
    ensures Judge(user, found).result.score == Tally(Checks(user, found).value).score
  {
    ChecksRanked(user, found);
    ChecksNonNegative(user, found);
    TallyScoreBounds(Checks(user, found).value);
  }

  /** When no pattern matches, nothing can fail: the verdict is a pass with score 0. */
  lemma NothingMatchedPasses(user: Profile)
    ensures Judge(user, Found(None, None, None, None)) == Compared(Comparison(true, [], 0.0))
  {
    assert Checks(user, Found(None, None, None, None)).value == [];
  }

  /** 4 GB of RAM against a requirement of 8 GB: a failure with one note and 12.5 points. */
  lemma RamShortfallExample(user: Profile)
    requires user.ramGb == 4.0
    ensures Judge(user, Found(Some(8), None, None, None)) == Compared(Comparison(false, [RamTooLow(4.0, 8)], 12.5))
  {
    var checks := Checks(user, Found(Some(8), None, None, None)).value;
    assert checks == [Check(0.5, RamTooLow(4.0, 8))];
    TallySnoc([], checks[0]);
    assert [] + [checks[0]] == checks;
  }

  /**
   * More RAM or more VRAM never lowers the score, and never turns a pass into
   * a failure.
   */
  lemma MoreMemoryNeverHurts(user: Profile, more: Profile, found: Found)
    requires user.ramGb <= more.ramGb && user.vramMb <= more.vramMb
    requires user.cpu == more.cpu && user.gpu == more.gpu
    requires Judge(user, found).Compared?
    ensures Judge(more, found).Compared?
    ensures Judge(user, found).result.score <= Judge(more, found).result.score
    ensures Judge(user, found).result.canMeet ==> Judge(more, found).result.canMeet
  {
    var lo := Checks(user, found).value;
    ChecksGrow(user, more, found);
    var hi := Checks(more, found).value;
    TallyScoreMonotone(lo, hi);
    TallyVerdict(lo);
    TallyVerdict(hi);
  }

  /** Check by check, the ratios for the better-equipped profile are at least as large. */
  lemma ChecksGrow(user: Profile, more: Profile, found: Found)
    requires user.ramGb <= more.ramGb && user.vramMb <= more.vramMb
    requires user.cpu == more.cpu && user.gpu == more.gpu
    requires Checks(user, found).Some?
    ensures Checks(more, found).Some?
    ensures RatiosAtMost(Checks(user, found).value, Checks(more, found).value)
  {
    var ram, vram := RamCheck(user, found.ram), VramCheck(user, found.vram);
    var ram', vram' := RamCheck(more, found.ram), VramCheck(more, found.vram);
    var cpu, gpu := CpuCheck(user, found.cpu), GpuCheck(user, found.gpu);
    MemoryRatiosGrow(user, more, found);
    RatiosAtMostConcat(ram, vram, ram', vram');
    RatiosAtMostConcat(ram + vram, cpu, ram' + vram', cpu);
    RatiosAtMostConcat(ram + vram + cpu, gpu, ram' + vram' + cpu, gpu);
  }

  lemma MemoryRatiosGrow(user: Profile, more: Profile, found: Found)
    requires user.ramGb <= more.ramGb && user.vramMb <= more.vramMb
    requires found.ram != Some(0) && found.vram != Some(0)
    ensures RatiosAtMost(RamCheck(user, found.ram), RamCheck(more, found.ram))
    ensures RatiosAtMost(VramCheck(user, found.vram), VramCheck(more, found.vram))
  {
    if found.ram.Some? {
      DivideMonotone(user.ramGb, more.ramGb, found.ram.value as real);
    }
    if found.vram.Some? {
      var n := found.vram.value as real;
      DivideMonotone(user.vramMb, more.vramMb, n);
      DivideMonotone(user.vramMb / n, more.vramMb / n, 1024.0);
    }
  }

  /** `lo` and `hi` are checks of the same length whose ratios are pointwise ordered. */
  predicate RatiosAtMost(lo: seq<Check>, hi: seq<Check>)
  {
    |lo| == |hi| && forall i :: 0 <= i < |lo| ==> lo[i].ratio <= hi[i].ratio
  }

  lemma RatiosAtMostConcat(a: seq<Check>, b: seq<Check>, a': seq<Check>, b': seq<Check>)
    requires RatiosAtMost(a, a') && RatiosAtMost(b, b')
    ensures RatiosAtMost(a + b, a' + b')
  {
    forall i | 0 <= i < |a + b| ensures (a + b)[i].ratio <= (a' + b')[i].ratio {
      if i >= |a| {
        assert (a + b)[i] == b[i - |a|] && (a' + b')[i] == b'[i - |a|];
      } else {
        assert (a + b)[i] == a[i] && (a' + b')[i] == a'[i];
      }
    }
  }

  lemma DivideMonotone(a: real, b: real, d: real)
    requires a <= b && d > 0.0
    ensures a / d <= b / d
  {
  }
}
