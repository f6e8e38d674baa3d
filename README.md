# PixelBuddy compatibility engine, in Dafny

PixelBuddy is a Streamlit application. It compares the user's PC with the system requirements that a Steam game's store page lists. This project models the deterministic engine inside `PixelBuddy/PixelBuddy1.py`, which has five parts:

- **hardware scorers**: `get_cpu_score` and `get_gpu_score`. Each does a first-match substring lookup in an ordered table.
- **requirement parser**: `parse_requirements`. It sorts the `<li>` lines of a requirement block into eight categories.
- **comparator**: `compare_specs`. From a requirement block it extracts the required RAM, VRAM, CPU and GPU, then computes ratios, a pass/fail flag, shortfall notes and a score.
- **estimator**: `estimate_graphics_level` and `graphics_badge`. They map a score to a graphics tier, a frame rate and a display badge.
- **aggregation**: the few lines of the UI that combine the minimum and the recommended comparison into one verdict.

The modules follow that structure, one file each:

- `wrappers.dfy` (`Wrappers`): an `Option` type.
- `text.dfy` (`Text`): the string operations the source takes from Python:
  - ASCII lower-casing;
  - case-insensitive comparison;
  - `str.strip`, `str.join` and `int()`;
  - `in` on strings.
- `scoring.dfy` (`Scoring`): the two score tables, as ordered sequences of key and score. A Python dict keeps insertion order, and the first match wins.
- `requirements.dfy` (`Requirements`): the line parser.
  - `ParseRequirements` is imperative, like the source.
  - It is proved against the function `Categorise`, which folds `Absorb` over the lines.
- `patterns.dfy` (`Patterns`): hand-written scanners for the four regular expressions `compare_specs` uses. Each one:
  - finds the leftmost match start;
  - reads the digits before `\s*gb\s*`;
  - for the greedy `(intel|amd).*(…)` and `(gtx|rtx|rx).*(\d+)`, runs from the leftmost vendor token that has a family token (or digit) after it on its own line, to the last such token on that line.
- `comparator.dfy` (`Comparator`): `compare_specs`.
  - `CompareSpecs` updates the flag, the notes and the score dimension by dimension.
  - It is proved equal to `Compare`, a function that folds `Tally` over the checks made for what the patterns found.
- `estimator.dfy` (`Estimator`): the tier bands and the badge lookup.
- `assessment.dfy` (`Assessment`): the two-tier combination.

Conventions of the model:

- Ratios and scores are `real`. They are exact quotients.
- Whitespace is exactly the set of characters Python's `str.isspace` accepts, which is also what `\s` matches in a str pattern: the ASCII controls from tab to carriage return and 0x1C–0x1F, the space, U+0085, U+00A0, U+1680, U+2000–U+200A, U+2028, U+2029, U+202F, U+205F and U+3000.
- A required "0 GB" of RAM or VRAM raises `ZeroDivisionError` in the source. The comparator models it as the outcome `DivisionByZero`.
- Shortfall notes are a tagged datatype that carries the values the message prints.

## Model

| member | source | states |
|---|---|---|
| Text.Lower | PixelBuddy/PixelBuddy1.py:35 | lower-casing keeps the length, leaves no upper-case letter, shifts each upper-case letter by 32 and keeps every other character; a text with no upper-case letter is returned unchanged |
| Text.LowerIdempotent | PixelBuddy/PixelBuddy1.py:155 | lower-casing an already lower-cased text changes nothing |
| Text.EqualIgnoringCaseMeansSameLower | PixelBuddy/PixelBuddy1.py:113 | the case-insensitive label comparison holds exactly when both texts lower-case to the same string |
| Text.TrimStartDropsSpace | PixelBuddy/PixelBuddy1.py:115 | the left trim is a suffix of the input, everything it drops is whitespace, and it starts with a non-space |
| Text.TrimEndDropsSpace | PixelBuddy/PixelBuddy1.py:115 | the right trim is a prefix of the input, everything it drops is whitespace, and it ends with a non-space |
| Text.StripIsTrimmedSlice | PixelBuddy/PixelBuddy1.py:115 | `strip()` returns the slice between the leading and the trailing whitespace, with no whitespace at either end |
| Text.Join | PixelBuddy/PixelBuddy1.py:155 | `sep.join` keeps every item and puts one separator between neighbours: its length is the items' total length plus one separator per gap, and it starts with the first item |
| Text.JoinSnoc | PixelBuddy/PixelBuddy1.py:121 | joining one more item appends the separator and the item, as `+= " \| " + text` does; a single item is joined as itself |
| Text.DigitsValue | PixelBuddy/PixelBuddy1.py:160 | `int()` of a digit string: the value's last decimal digit is the string's last digit, and a string of zeros reads as 0 |
| Text.DigitsValueSnoc | PixelBuddy/PixelBuddy1.py:169 | reading one more digit multiplies the value so far by ten and adds that digit |
| Text.DigitsValueLeadingZero | PixelBuddy/PixelBuddy1.py:160 | a leading zero does not change the value, as `int("08") == 8` |
| Text.DigitsValueExample | PixelBuddy/PixelBuddy1.py:160 | example: "16" reads as sixteen |
| Scoring.FirstMatch | PixelBuddy/PixelBuddy1.py:36-38 | the result is the index of the first table key, in declaration order, that occurs in the name; it is None exactly when no key occurs |
| Scoring.Lookup | PixelBuddy/PixelBuddy1.py:35-39 | the looked-up score is either the default or the score of some table entry |
| Scoring.CpuScore | PixelBuddy/PixelBuddy1.py:17-22 | every CPU score lies in [10, 90], so it is never 0 as a divisor |
| Scoring.GpuScore | PixelBuddy/PixelBuddy1.py:24-32 | every GPU score lies in [20, 100], so it is never 0 as a divisor |
| Scoring.CpuScoreOfFirstKey | PixelBuddy/PixelBuddy1.py:34-38 | a CPU name scores the entry of the first key, in table order, that occurs in its lower-cased form |
| Scoring.CpuScoreDefault | PixelBuddy/PixelBuddy1.py:39 | a CPU name in which no key occurs scores the default, 40 |
| Scoring.GpuScoreOfFirstKey | PixelBuddy/PixelBuddy1.py:41-45 | a GPU name scores the entry of the first key, in table order, that occurs in its lower-cased form |
| Scoring.GpuScoreDefault | PixelBuddy/PixelBuddy1.py:46 | a GPU name in which no key occurs scores the default, 50 |
| Scoring.FirstMatchAt | PixelBuddy/PixelBuddy1.py:43-45 | a key that occurs in the name, with no earlier key occurring, is the one selected |
| Scoring.Shadowed | PixelBuddy/PixelBuddy1.py:24-32 | a key that contains an earlier key can never be the first match, whatever the name |
| Scoring.SelfMatch | PixelBuddy/PixelBuddy1.py:36-38 | an entry is selected for its own key exactly when no earlier key occurs inside it |
| Scoring.RxEntriesShadowed | PixelBuddy/PixelBuddy1.py:29-30 | the "rx 5600" and "rx 5700" entries are never selected, because "rx 560" and "rx 570" come first |
| Scoring.CpuExampleIntel | PixelBuddy/PixelBuddy1.py:34-39 | example: "Intel i7-9700K" scores 70 (case-insensitive) |
| Scoring.CpuExampleRyzen | PixelBuddy/PixelBuddy1.py:34-39 | example: "AMD Ryzen 7 5800X" scores 70 |
| Scoring.CpuExampleUnknown | PixelBuddy/PixelBuddy1.py:39 | example: "Unobtainium X1" contains no CPU key and scores 40 |
| Scoring.GpuExampleRx5600 | PixelBuddy/PixelBuddy1.py:41-46 | example: "RX 5600 XT" scores 30, the score of "rx 560", not 65 |
| Scoring.GpuExampleUnknown | PixelBuddy/PixelBuddy1.py:46 | example: "Unobtainium X1" contains no GPU key and scores 50 |
| Requirements.ClassifyFromIsFirst | PixelBuddy/PixelBuddy1.py:112-113 | scanning from label k selects the first label at or after k that opens the line, or none when no such label does |
| Requirements.Classify | PixelBuddy/PixelBuddy1.py:112-113 | a line filed under a category opens with that category's label followed by a colon or whitespace |
| Requirements.ClassifyIsFirstLabel | PixelBuddy/PixelBuddy1.py:112-117 | a line is filed under the first label, in list order, that opens it followed by a colon or whitespace; it is unlabelled exactly when no label does |
| Requirements.RemoveLabel | PixelBuddy/PixelBuddy1.py:115 | removing the label never lengthens the text |
| Requirements.RemoveLabelAbsent | PixelBuddy/PixelBuddy1.py:115 | the substitution leaves a text in which the label never occurs unchanged |
| Requirements.LabelDeleted | PixelBuddy/PixelBuddy1.py:115 | the label at the start of a line is deleted together with the whole run of colons and whitespace after it |
| Requirements.Content | PixelBuddy/PixelBuddy1.py:115 | the stored content is no longer than the line and has no whitespace at either end |
| Requirements.LabelledLineContent | PixelBuddy/PixelBuddy1.py:113-115 | a line made of the label, separators and a rest without the label stores the stripped rest |
| Requirements.LabelInsideWordRemoved | PixelBuddy/PixelBuddy1.py:115 | example: the substitution also deletes the label inside words, so "OS: macOS 10.15" stores "mac10.15" under "OS" |
| Requirements.WordKept | PixelBuddy/PixelBuddy1.py:115 | for any label, a word none of whose letters lower-cases to the label's first letter is kept in order in front of what the substitution leaves of the rest |
| Requirements.Absorb | PixelBuddy/PixelBuddy1.py:111-123 | a labelled line sets its category to its content, an unlabelled line is appended to the notes, and every other category is unchanged |
| Requirements.Categorise | PixelBuddy/PixelBuddy1.py:108-123 | the block built from any lines has exactly one entry per category |
| Requirements.FindCategory | PixelBuddy/PixelBuddy1.py:112-117 | the inner loop stops at the label that classifies the line, or runs off the end when none does |
| Requirements.FileLine | PixelBuddy/PixelBuddy1.py:111-123 | one pass of the outer loop body files the line as `Absorb` specifies |
| Requirements.ParseRequirements | PixelBuddy/PixelBuddy1.py:103-130 | None exactly for absent or empty markup; otherwise a block with exactly the eight categories, equal to the lines categorised in order, and when all eight are empty the notes become the whole text |
| Requirements.LastLabelledLineWins | PixelBuddy/PixelBuddy1.py:113-116 | a category other than the notes holds the content of the last line filed under it: a later label overwrites an earlier one |
| Requirements.UnlabelledCategoryEmpty | PixelBuddy/PixelBuddy1.py:108-117 | a category other than the notes that no line is filed under stays empty |
| Requirements.NotesFromUnlabelled | PixelBuddy/PixelBuddy1.py:118-123 | when no line is labelled "Additional Notes", the notes are the unlabelled lines in their original order joined with " \| ", leading empty lines dropped (an empty note is falsy, so the next line replaces it) |
| Requirements.NotesAfterLabelledLine | PixelBuddy/PixelBuddy1.py:113-123 | after the last labelled notes line, the notes are its content followed by the later unlabelled lines, joined with " \| " |
| Requirements.UnlabelledAll | PixelBuddy/PixelBuddy1.py:118 | when no line is labelled, every line is unlabelled |
| Requirements.OnlyUnlabelledLines | PixelBuddy/PixelBuddy1.py:118-123 | a block of unlabelled, non-empty lines puts them all, joined with " \| ", in the notes and leaves every other category empty |
| Requirements.NotesAccumulate | PixelBuddy/PixelBuddy1.py:120-123 | from a point where the notes are the joined list `start`, they end as `start` followed by every later unlabelled line, joined with " \| " |
| Patterns.First | PixelBuddy/PixelBuddy1.py:158 | the result is the first marked position at or after i, or None exactly when none is marked |
| Patterns.LeftmostIsFirst | PixelBuddy/PixelBuddy1.py:158 | a search returns the leftmost position at which the pattern matches, and None exactly when it matches nowhere |
| Patterns.Rightmost | PixelBuddy/PixelBuddy1.py:176 | the result is the last position in [lo, hi) at which the tail token starts, or None exactly when there is none |
| Patterns.DigitsEnd | PixelBuddy/PixelBuddy1.py:158 | `\d+` runs over every digit from its start and stops at the first non-digit |
| Patterns.Amount | PixelBuddy/PixelBuddy1.py:158-160 | an amount pattern finds nothing exactly when no position starts a digit run followed by "gb" and one of its keywords |
| Patterns.RamAmount | PixelBuddy/PixelBuddy1.py:158-160 | no RAM amount exactly when no position starts `\d+\s*gb\s*ram` |
| Patterns.VramAmount | PixelBuddy/PixelBuddy1.py:167-169 | no VRAM amount exactly when no position starts `\d+\s*gb\s*` followed by "vram", "video memory" or "graphics" |
| Patterns.AmountIsWholeNumber | PixelBuddy/PixelBuddy1.py:158-160 | the required amount is the value of a maximal digit run at the leftmost match, followed by "gb" and the keyword |
| Patterns.NoDigitNoAmount | PixelBuddy/PixelBuddy1.py:158-159 | a text without digits matches neither amount pattern |
| Patterns.CpuSpan | PixelBuddy/PixelBuddy1.py:176-178 | the CPU span is absent only when no position starts a match, and it is at least five characters long (a vendor and a family token) |
| Patterns.GpuSpan | PixelBuddy/PixelBuddy1.py:187-189 | the GPU span is absent only when no position starts a match, and it is at least three characters long (a vendor and a digit) |
| Patterns.CpuSpanIsGreedy | PixelBuddy/PixelBuddy1.py:176-178 | the CPU span starts at the leftmost vendor token that has a family token after it on its own line, and ends after the LAST family token that starts on that line (a "ryzen" token may reach past the line end, since its `\s` also matches a newline); a vendor with no family token on its line is skipped, so for "amd\nintel i5" the span starts at "intel" |
| Patterns.GpuSpanIsGreedy | PixelBuddy/PixelBuddy1.py:187-189 | the GPU span starts at the leftmost vendor token that has a digit after it on its own line, and ends at the LAST digit on that line; a vendor with no digit on its line is skipped |
| Comparator.Capped | PixelBuddy/PixelBuddy1.py:165 | `min(ratio, 1)` is at most 1, at most the ratio, and equal to one of them |
| Comparator.RequirementText | PixelBuddy/PixelBuddy1.py:155 | the requirement text holds every value with one space between neighbours, starts with the first value lower-cased, and contains no upper-case letter |
| Comparator.CapScore | PixelBuddy/PixelBuddy1.py:198 | `min(score, 100)` changes only the score, never raises it, leaves it at most 100, and either keeps it or sets it to 100 |
| Comparator.Checks | PixelBuddy/PixelBuddy1.py:156-196 | no checks (a division by zero) exactly when the required RAM or VRAM is 0; otherwise one check per pattern that matched |
| Comparator.Tally | PixelBuddy/PixelBuddy1.py:156-196 | the tally writes at most one note per check and adds at most 25 points per check |
| Comparator.Judge | PixelBuddy/PixelBuddy1.py:156-198 | the comparison fails exactly when the required RAM or VRAM is 0, since the CPU and GPU divisions never fail; a result has at most four notes and a score of at most 100 |
| Comparator.Compare | PixelBuddy/PixelBuddy1.py:152-198 | a falsy block gives (False, [], 0) and can never fail; any result has at most four notes and a score of at most 100 |
| Comparator.Account | PixelBuddy/PixelBuddy1.py:162-165 | the shared branch body turns the tally of the checks so far into the tally with this check added |
| Comparator.RamStep | PixelBuddy/PixelBuddy1.py:158-165 | the RAM branch extends the tally by the RAM check: the user's GB over the required GB |
| Comparator.VramStep | PixelBuddy/PixelBuddy1.py:167-174 | the VRAM branch extends the tally by the VRAM check: the user's MB over the required GB, over 1024 |
| Comparator.CpuStep | PixelBuddy/PixelBuddy1.py:176-185 | the CPU branch extends the tally by the CPU check: the user's CPU score over the score of the matched span |
| Comparator.GpuStep | PixelBuddy/PixelBuddy1.py:187-196 | the GPU branch extends the tally by the GPU check: the user's GPU score over the score of the matched span |
| Comparator.CompareFound | PixelBuddy/PixelBuddy1.py:156-198 | the four branches in order, with the score capped at 100, give exactly `Judge` of what the patterns found |
| Comparator.CompareSpecs | PixelBuddy/PixelBuddy1.py:152-198 | a falsy block gives (False, [], 0); otherwise the result equals `Compare` on the lower-cased, space-joined block |
| Comparator.TallyVerdict | PixelBuddy/PixelBuddy1.py:156-196 | the flag holds exactly when no note was written, and exactly when every check's ratio is at least 1 |
| Comparator.TallyNotes | PixelBuddy/PixelBuddy1.py:162-196 | the notes are exactly the notes of the checks whose ratio is below 1, at most one per check |
| Comparator.TallyNotesOrdered | PixelBuddy/PixelBuddy1.py:164-195 | checks in dimension order leave notes in dimension order |
| Comparator.TallyScoreBounds | PixelBuddy/PixelBuddy1.py:165-196 | with non-negative ratios the score lies between 0 and 25 per check |
| Comparator.TallyScoreMonotone | PixelBuddy/PixelBuddy1.py:165-196 | raising any ratios never lowers the score |
| Comparator.ChecksRanked | PixelBuddy/PixelBuddy1.py:158-196 | there are at most four checks, one per dimension, in the order RAM, VRAM, CPU, GPU |
| Comparator.ChecksNonNegative | PixelBuddy/PixelBuddy1.py:161-192 | with non-negative RAM and VRAM every ratio is non-negative |
| Comparator.CanMeetIffNoShortfall | PixelBuddy/PixelBuddy1.py:156-198 | `can_meet` holds exactly when there are no notes, and exactly when every matched dimension has a ratio of at least 1; it holds when nothing matched |
| Comparator.NotesInDimensionOrder | PixelBuddy/PixelBuddy1.py:152-198 | the notes number at most four and follow the order RAM, VRAM, CPU, GPU |
| Comparator.CompareScoreInRange | PixelBuddy/PixelBuddy1.py:152-198 | with non-negative RAM and VRAM the score lies in [0, 100] |
| Comparator.CompareVerdict | PixelBuddy/PixelBuddy1.py:155-198 | for a non-empty block, `can_meet` holds exactly when there are no notes |
| Comparator.JudgedNotesInOrder | PixelBuddy/PixelBuddy1.py:156-198 | the notes of a comparison number at most four and follow the order RAM, VRAM, CPU, GPU |
| Comparator.ScoreInRange | PixelBuddy/PixelBuddy1.py:165-198 | with non-negative RAM and VRAM the score lies in [0, 100], and the cap never changes it |
| Comparator.NothingMatchedPasses | PixelBuddy/PixelBuddy1.py:156-198 | when no pattern matches, the result is a pass with no notes and score 0 |
| Comparator.RamShortfallExample | PixelBuddy/PixelBuddy1.py:158-165 | example: 4 GB of RAM against 8 GB gives a failure with one RAM note (4 < 8) and 12.5 points |
| Comparator.MoreMemoryNeverHurts | PixelBuddy/PixelBuddy1.py:158-198 | more RAM or VRAM never lowers the score and never turns a pass into a failure |
| Comparator.ChecksGrow | PixelBuddy/PixelBuddy1.py:161-170 | with more RAM or VRAM, every check's ratio is at least as large |
| Estimator.EstimateGraphicsLevel | PixelBuddy/PixelBuddy1.py:201-211 | the result is one of the four tier pairs; the frame rate is 0 exactly for scores of at most 25, and the tier is "High/Ultra" exactly for scores from 76 to 100 |
| Estimator.WholeScoreBands | PixelBuddy/PixelBuddy1.py:202-211 | whole-number scores map to: Cannot run (at most 25), Low (26–50), Medium (51–75), High/Ultra (76–100), and Low above 100 |
| Estimator.FpsMonotoneOnScale | PixelBuddy/PixelBuddy1.py:202-209 | over whole-number scores from 0 to 100 the frame rate never falls as the score rises |
| Estimator.FallbackToLow | PixelBuddy/PixelBuddy1.py:210-211 | a fractional score between two bands, or any score above 100, gets ("Low", 40) |
| Estimator.FallbackExamples | PixelBuddy/PixelBuddy1.py:210-211 | example: 50.5 gives ("Low", 40), and 101 gets a lower frame rate than 100 |
| Estimator.GraphicsBadge | PixelBuddy/PixelBuddy1.py:213-214 | the text is returned unchanged exactly when it is not one of the four labels; a label gets an emoji and a space in front of the label itself, up to letter case |
| Estimator.EveryEstimateHasBadge | PixelBuddy/PixelBuddy1.py:201-214 | every level the estimator returns has a badge that differs from the label |
| Estimator.BadgesDistinct | PixelBuddy/PixelBuddy1.py:213-214 | distinct labels have distinct badges |
| Assessment.Or | PixelBuddy/PixelBuddy1.py:245-246 | `a or b` is `a` whenever `a` is truthy, is always one of its operands, and is truthy when either operand is |
| Assessment.Assess | PixelBuddy/PixelBuddy1.py:242-248 | the requirements are reported unavailable exactly when neither block is truthy; an assessment has one of the four tiers and a score of at most 100 |
| Assessment.ScoreOnScale | PixelBuddy/PixelBuddy1.py:245-248 | with non-negative RAM and VRAM, the averaged score is a whole number in [0, 100], so the tier follows the four bands and never the fallback |
| Assessment.CanRunIffNoNotes | PixelBuddy/PixelBuddy1.py:245-255 | "Can Run" is shown exactly when the minimum comparison left no notes |
| Assessment.MinimumDecidesVerdict | PixelBuddy/PixelBuddy1.py:245-255 | when the minimum block is truthy, "Can Run" and the notes are those of comparing against the minimum block alone; the recommended block only moves the score |
| Assessment.SingleBlock | PixelBuddy/PixelBuddy1.py:245-247 | with a single block, both comparisons use it, the order of the two tiers does not matter, and the score is the floor of that block's score |
| Assessment.CrashedExactly | PixelBuddy/PixelBuddy1.py:245-246 | the assessment crashes exactly when either comparison divides by zero |

## Left out

- The Streamlit UI is left out: page layout, widgets, the form, the progress bar and the tables. Only the arithmetic that combines the two comparisons is modelled.
- `get_system_specs` and `get_total_disk_size` are left out. They probe the host through psutil, platform, GPUtil and shutil. The hardware profile is an input record (`Comparator.Profile`).
- `search_steam` and `fetch_steam_requirements` are left out. They make network requests, decode JSON and swallow exceptions. The minimum and recommended blocks are inputs.
- BeautifulSoup and `html.unescape` are foreign code. `Requirements.Markup` stands for their output:
  - the raw string;
  - the text of each `<li>`;
  - all of the text joined with spaces.
- The regular-expression engine is not modelled in general. Each of the four patterns is a dedicated scanner.
- Lower-casing, `\d` and the `re.I` comparison cover ASCII only. Python also folds and recognises non-ASCII letters and digits.
- Comparator.Note: the note messages are not formatted. Each note carries the values its f-string prints, and how Python prints a float is not modelled.
- Comparator.CompareSpecs: a `ZeroDivisionError` is the outcome `DivisionByZero`. Other exceptions are not modelled, such as a missing `'RAM (GB)'` key or a non-string CPU value.
- Comparator.CompareFound: the four searches run before the branches rather than between them. The searches are pure, so this changes no result.
- Assessment.Assess: the score and the tier are computed, but what the page prints with them is not modelled.
