/**
 * The paragraph loop of `extract_document_structure`, as a pure step
 * function over an explicit numbering state.
 *
 * The source keeps two dictionaries keyed by the heading levels 1..5 —
 * `current_numbers` (a counter per level) and `current_headings` (the full
 * text of the last heading seen at each level) — plus `current_level`, the
 * level of the last heading. `Step` is what one loop iteration does to them,
 * `Run` is the whole loop. Class `Extractor` in module Extraction runs the same loop
 * with the dictionaries updated in place and is proved to agree with `Step`.
 *
 * A Python exception aborts the whole extraction; here it is an `Err` that
 * `Run` propagates.
 */
module Numbering {
  import opened Text
  import opened Captions

  /** The keys of both dictionaries: the heading levels 1..5. */
  const Levels: set<int> := set i | 1 <= i <= 5

  /** A paragraph of the document: its text and the name of its style. */
  datatype Paragraph = Paragraph(text: string, style: string)

  datatype Kind = Heading | TableCaption | FigureCaption {
    /** The value written in the 'type' column of the flat table. */
    function Label(): string {
      match this
      case Heading => "heading"
      case TableCaption => "表"
      case FigureCaption => "図"
    }
  }

  /** One row of the flat table: type, level, number, text, full_text, parent_heading. */
  datatype Element = Element(kind: Kind, level: int, number: string, text: string, fullText: string, parent: string)

  /** The exceptions that abort the extraction. */
  datatype Error =
    | LevelNotAnInteger(style: string)   // ValueError from int() on the style's last token
    | NoSuchLevel(level: int)            // KeyError: current_numbers[level] for a level outside 1..5
    | CaptionBeforeHeading(text: string) // KeyError: current_headings[0]
    | NoElements                         // KeyError: df1['level'] on an empty data frame

  datatype Result<T> = Ok(value: T) | Err(error: Error)

  /** `current_numbers`, `current_headings` and `current_level`. */
  datatype State = State(numbers: map<int, nat>, headings: map<int, string>, level: int)

  /** Both dictionaries hold exactly the keys 1..5; the level is 0 before the first heading. */
  ghost predicate Valid(s: State) {
    && s.numbers.Keys == Levels
    && s.headings.Keys == Levels
    && (s.level == 0 || s.level in Levels)
  }

  /** `{1: 0, ..., 5: 0}`, `{1: '', ..., 5: ''}` and level 0. */
  function Initial(): State {
    State(map i | i in Levels :: 0, map i | i in Levels :: "", 0)
  }

  /** `m` with every entry at a level deeper than `level` set to `blank`. */
  function Reset<V>(m: map<int, V>, level: int, blank: V): map<int, V> {
    map i | i in m :: if i > level then blank else m[i]
  }

  /** The counters at levels 1..`level` that are nonzero, in ascending level order. */
  function NonzeroCounters(numbers: map<int, nat>, level: int): (cs: seq<nat>)
    requires forall i :: 1 <= i <= level ==> i in numbers
    ensures |cs| <= if level < 0 then 0 else level
    ensures forall k :: 0 <= k < |cs| ==> cs[k] > 0
    ensures level >= 1 && numbers[level] > 0 ==> |cs| > 0 && cs[|cs| - 1] == numbers[level]
    decreases level
  {
    if level < 1 then []
    else NonzeroCounters(numbers, level - 1) + (if numbers[level] > 0 then [numbers[level]] else [])
  }

  /** `str()` of each counter. */
  function Numerals(cs: seq<nat>): (r: seq<string>)
    ensures |r| == |cs|
    ensures forall k :: 0 <= k < |cs| ==> r[k] == NatToString(cs[k])
  {
    seq(|cs|, k requires 0 <= k < |cs| => NatToString(cs[k]))
  }

  /** `get_current_section_number(level)`: the nonzero counters of levels 1..`level`, joined by '.'. */
  function SectionNumber(numbers: map<int, nat>, level: int): string
    requires forall i :: 1 <= i <= level ==> i in numbers
  {
    Join(Numerals(NonzeroCounters(numbers, level)), '.')
  }

  /** `paragraph.style.name.startswith('Heading')`. */
  predicate IsHeadingStyle(style: string) {
    StartsWith(style, "Heading")
  }

  /** `int(style.split()[-1])`. */
  function HeadingLevel(style: string): Option<int> {
    ParseInt(LastToken(style))
  }

  /** A heading at `level` with stripped text `text`: bump, reset deeper, number, remember. */
  function OnHeading(s: State, level: int, text: string): (r: (State, Element))
    requires Valid(s) && level in Levels
    ensures Valid(r.0)
  {
    var numbers := Reset(s.numbers[level := s.numbers[level] + 1], level, 0);
    var number := SectionNumber(numbers, level);
    var fullText := number + " " + text;
    var headings := Reset(s.headings[level := fullText], level, "");
    var parent := if level > 1 then headings[level - 1] else "";
    (State(numbers, headings, level), Element(Heading, level, number, text, fullText, parent))
  }

  /** A caption with stripped text `text`, attached below the current heading. */
  function OnCaption(s: State, text: string): Element
    requires s.level in s.headings
  {
    var kind := if IsTableCaption(text) then TableCaption else FigureCaption;
    Element(kind, s.level + 1, "", text, text, s.headings[s.level])
  }

  /** One iteration of the paragraph loop: the new state and the element it appends, if any. */
  function Step(s: State, p: Paragraph): (r: Result<(State, Option<Element>)>)
    requires Valid(s)
    ensures r.Ok? ==> Valid(r.value.0)
  {
    var text := Strip(p.text);
    if text == "" then Ok((s, None))
    else if IsHeadingStyle(p.style) then
      match HeadingLevel(p.style)
      case None => Err(LevelNotAnInteger(p.style))
      case Some(level) =>
        if level !in s.numbers then Err(NoSuchLevel(level))
        else
          var (s', e) := OnHeading(s, level, text);
          Ok((s', Some(e)))
    else if IsCaption(text) then
      if s.level !in s.headings then Err(CaptionBeforeHeading(text))
      else Ok((s, Some(OnCaption(s, text))))
    else Ok((s, None))
  }

  function Emitted(o: Option<Element>): seq<Element> {
    match o
    case None => []
    case Some(e) => [e]
  }

  /** The paragraph loop over `ps`: the final state and the elements appended, or the first error. */
  function Run(ps: seq<Paragraph>): (r: Result<(State, seq<Element>)>)
    ensures r.Ok? ==> Valid(r.value.0)
    decreases |ps|
  {
    if ps == [] then Ok((Initial(), []))
    else
      match Run(ps[..|ps| - 1])
      case Err(e) => Err(e)
      case Ok((s, es)) =>
        match Step(s, ps[|ps| - 1])
        case Err(e) => Err(e)
        case Ok((s', o)) => Ok((s', es + Emitted(o)))
  }

  /** The flat table: every element, in document order. */
  function Extract(ps: seq<Paragraph>): Result<seq<Element>> {
    match Run(ps)
    case Err(e) => Err(e)
    case Ok((_, es)) => Ok(es)
  }

  // ---------------------------------------------------------------------
  // One heading

  /** A non-blank paragraph with a heading style and a level in 1..5 is handled by `OnHeading`. */
  lemma StepOnHeading(s: State, p: Paragraph, level: int)
    requires Valid(s) && IsHeadingStyle(p.style) && Strip(p.text) != ""
    requires HeadingLevel(p.style) == Some(level) && level in Levels
    ensures Step(s, p) == Ok((OnHeading(s, level, Strip(p.text)).0, Some(OnHeading(s, level, Strip(p.text)).1)))
  {
  }

  /**
   * A heading at level L adds one to counter L, zeroes every deeper counter
   * and leaves the shallower ones alone; the current level becomes L.
   */
  lemma HeadingUpdatesCounters(s: State, p: Paragraph, level: int)
    requires Valid(s) && IsHeadingStyle(p.style) && Strip(p.text) != ""
    requires HeadingLevel(p.style) == Some(level) && 1 <= level <= 5
    ensures Step(s, p).Ok?
    ensures var (s', o) := Step(s, p).value;
      && o.Some? && o.value.kind == Heading && o.value.level == level
      && s'.level == level
      && s'.numbers[level] == s.numbers[level] + 1
      && (forall i :: 1 <= i < level ==> s'.numbers[i] == s.numbers[i])
      && (forall i :: level < i <= 5 ==> s'.numbers[i] == 0)
  {
    StepOnHeading(s, p, level);
  }

  /**
   * The heading's full text is its number, a space and its stripped text; it
   * becomes the remembered heading of its level, every deeper remembered
   * heading is cleared, and its parent is the remembered heading one level up.
   */
  lemma HeadingRecordsFullText(s: State, p: Paragraph, level: int)
    requires Valid(s) && IsHeadingStyle(p.style) && Strip(p.text) != ""
    requires HeadingLevel(p.style) == Some(level) && 1 <= level <= 5
    ensures Step(s, p).Ok?
    ensures var (s', o) := Step(s, p).value;
      && o.Some?
      && o.value.text == Strip(p.text)
      && o.value.number == SectionNumber(s'.numbers, level)
      && o.value.fullText == o.value.number + " " + Strip(p.text)
      && s'.headings[level] == o.value.fullText
      && (forall i :: 1 <= i < level ==> s'.headings[i] == s.headings[i])
      && (forall i :: level < i <= 5 ==> s'.headings[i] == "")
      && o.value.parent == (if level == 1 then "" else s.headings[level - 1])
  {
    StepOnHeading(s, p, level);
  }

  /** A heading's number is never empty: its own counter is at least 1 and comes last. */
  lemma HeadingNumberEndsWithOwnCounter(s: State, level: int, text: string)
    requires Valid(s) && level in Levels
    ensures var (s', e) := OnHeading(s, level, text);
      var cs := NonzeroCounters(s'.numbers, level);
      && |cs| > 0 && cs[|cs| - 1] == s.numbers[level] + 1
      && e.number == Join(Numerals(cs), '.')
  {
  }

  // ---------------------------------------------------------------------
  // Section numbers

  /** When no level in 1..L has been skipped, the number lists every counter of levels 1..L. */
  lemma {:induction false} NonzeroCountersOfFullPath(numbers: map<int, nat>, level: int)
    requires level >= 0
    requires forall i :: 1 <= i <= level ==> i in numbers && numbers[i] > 0
    ensures NonzeroCounters(numbers, level) == seq(level, k requires 0 <= k < level => numbers[k + 1])
  {
    if level > 0 {
      NonzeroCountersOfFullPath(numbers, level - 1);
    }
  }

  /** A level whose counter is zero contributes nothing to the number. */
  lemma {:induction false} NonzeroCountersSkipZero(numbers: map<int, nat>, level: int)
    requires level >= 1
    requires forall i :: 1 <= i <= level ==> i in numbers
    requires numbers[level] == 0
    ensures NonzeroCounters(numbers, level) == NonzeroCounters(numbers, level - 1)
  {
  }

  /** The number depends on the counters of levels 1..L only. */
  lemma {:induction false} NonzeroCountersFrame(n1: map<int, nat>, n2: map<int, nat>, level: int)
    requires forall i :: 1 <= i <= level ==> i in n1 && i in n2 && n1[i] == n2[i]
    ensures NonzeroCounters(n1, level) == NonzeroCounters(n2, level)
    decreases level
  {
    if level >= 1 {
      NonzeroCountersFrame(n1, n2, level - 1);
    }
  }

  /** Reads a section number back into its counters: split on '.', then `int()` of each part. */
  function ParseSectionNumber(number: string): Option<seq<nat>> {
    ParseCounters(Split(number, '.'))
  }

  function ParseCounters(parts: seq<string>): Option<seq<nat>>
    decreases |parts|
  {
    if parts == [] then Some([])
    else if !IsNumeral(parts[0]) then None
    else
      match ParseCounters(parts[1..])
      case None => None
      case Some(cs) => Some([DecimalValue(parts[0])] + cs)
  }

  lemma {:induction false} ParseNumerals(cs: seq<nat>)
    ensures ParseCounters(Numerals(cs)) == Some(cs)
    decreases |cs|
  {
    if cs != [] {
      NatToStringRoundTrip(cs[0]);
      assert Numerals(cs)[1..] == Numerals(cs[1..]);
      ParseNumerals(cs[1..]);
      assert cs == [cs[0]] + cs[1..];
    }
  }

  /** A section number determines the nonzero counters it was built from. */
  lemma SectionNumberRoundTrip(numbers: map<int, nat>, level: int)
    requires forall i :: 1 <= i <= level ==> i in numbers
    requires NonzeroCounters(numbers, level) != []
    ensures ParseSectionNumber(SectionNumber(numbers, level)) == Some(NonzeroCounters(numbers, level))
  {
    var parts := Numerals(NonzeroCounters(numbers, level));
    forall k, m | 0 <= k < |parts| && 0 <= m < |parts[k]|
      ensures parts[k][m] != '.'
    {
      assert IsDigit(parts[k][m]);
    }
    SplitJoin(parts, '.');
    ParseNumerals(NonzeroCounters(numbers, level));
  }

  /** Two different counter paths never print as the same section number. */
  lemma SectionNumberInjective(n1: map<int, nat>, l1: int, n2: map<int, nat>, l2: int)
    requires forall i :: 1 <= i <= l1 ==> i in n1
    requires forall i :: 1 <= i <= l2 ==> i in n2
    requires NonzeroCounters(n1, l1) != [] && NonzeroCounters(n2, l2) != []
    requires NonzeroCounters(n1, l1) != NonzeroCounters(n2, l2)
    ensures SectionNumber(n1, l1) != SectionNumber(n2, l2)
  {
    SectionNumberRoundTrip(n1, l1);
    SectionNumberRoundTrip(n2, l2);
  }

  // ---------------------------------------------------------------------
  // Paragraphs that are not headings

  /** A blank paragraph produces no element and leaves the state as it was. */
  lemma BlankParagraphIgnored(s: State, p: Paragraph)
    requires Valid(s)
    requires forall m :: 0 <= m < |p.text| ==> IsSpace(p.text[m])
    ensures Step(s, p) == Ok((s, None))
  {
  }

  /** A non-blank paragraph that is neither a heading nor a caption produces no element and changes nothing. */
  lemma BodyTextIgnored(s: State, p: Paragraph)
    requires Valid(s) && !IsHeadingStyle(p.style) && !IsCaption(Strip(p.text))
    ensures Step(s, p) == Ok((s, None))
  {
  }

  /**
   * A caption sits one level below the current heading, has no number, keeps
   * its text as its full text and names the current heading as its parent;
   * a caption before the first heading is an error. The state is unchanged.
   */
  lemma CaptionElement(s: State, p: Paragraph)
    requires Valid(s) && !IsHeadingStyle(p.style)
    requires Strip(p.text) != "" && IsCaption(Strip(p.text))
    ensures var text := Strip(p.text);
      && (s.level == 0 ==> Step(s, p) == Err(CaptionBeforeHeading(text)))
      && (s.level != 0 ==>
           Step(s, p).Ok? && Step(s, p).value.0 == s && Step(s, p).value.1.Some?
           && var e := Step(s, p).value.1.value;
           && e.kind == (if IsTableCaption(text) then TableCaption else FigureCaption)
           && e.kind.Label() == (if IsTableCaption(text) then "表" else "図")
           && e.level == s.level + 1 && e.number == "" && e.text == text && e.fullText == text
           && e.parent == s.headings[s.level])
  {
  }

  /**
   * A paragraph with a heading style is a heading or an error, never a
   * caption; the error is `LevelNotAnInteger` when the style's last token is
   * not an integer and `NoSuchLevel` when it is one outside 1..5.
   */
  lemma HeadingStyleOutcomes(s: State, p: Paragraph)
    requires Valid(s) && IsHeadingStyle(p.style) && Strip(p.text) != ""
    ensures HeadingLevel(p.style).None? ==> Step(s, p) == Err(LevelNotAnInteger(p.style))
    ensures HeadingLevel(p.style).Some? && HeadingLevel(p.style).value !in Levels ==>
      Step(s, p) == Err(NoSuchLevel(HeadingLevel(p.style).value))
    ensures Step(s, p).Ok? <==> HeadingLevel(p.style).Some? && HeadingLevel(p.style).value in Levels
    ensures Step(s, p).Ok? ==> Step(s, p).value.1.Some? && Step(s, p).value.1.value.kind == Heading
    ensures Step(s, p).Ok? ==> Step(s, p).value.1.value.kind.Label() == "heading"
  {
  }

  // ---------------------------------------------------------------------
  // What the state always satisfies

  /**
   * Counters and remembered headings deeper than the current level are zero
   * and empty; a level's remembered heading is empty exactly when its counter
   * is zero; the remembered heading of a level starts with that level's
   * current section number and a space; the current level's counter is set.
   */
  ghost predicate Consistent(s: State) {
    && Valid(s)
    && (forall i :: i in Levels && i > s.level ==> s.numbers[i] == 0 && s.headings[i] == "")
    && (forall i :: i in Levels ==> (s.headings[i] == "" <==> s.numbers[i] == 0))
    && (forall i :: i in Levels && s.numbers[i] > 0 ==> SectionNumber(s.numbers, i) + " " <= s.headings[i])
    && (s.level in Levels ==> s.numbers[s.level] > 0)
  }

  /** What `OnHeading` does to each level of the two dictionaries. */
  lemma OnHeadingShape(s: State, level: int, text: string)
    requires Valid(s) && level in Levels
    ensures var (s', e) := OnHeading(s, level, text);
      && Valid(s') && s'.level == level
      && s'.numbers[level] == s.numbers[level] + 1
      && s'.headings[level] == e.fullText == e.number + " " + text
      && e.number == SectionNumber(s'.numbers, level)
      && (forall i :: i in Levels && i < level ==> s'.numbers[i] == s.numbers[i] && s'.headings[i] == s.headings[i])
      && (forall i :: i in Levels && i > level ==> s'.numbers[i] == 0 && s'.headings[i] == "")
  {
  }

  lemma HeadingPreservesConsistent(s: State, level: int, text: string)
    requires Consistent(s) && level in Levels
    ensures Consistent(OnHeading(s, level, text).0)
  {
    var (s', e) := OnHeading(s, level, text);
    OnHeadingShape(s, level, text);
    assert s'.headings[level] != "" by {
      assert s'.headings[level][|e.number|] == ' ';
    }
    forall i | i in Levels && s'.numbers[i] > 0
      ensures SectionNumber(s'.numbers, i) + " " <= s'.headings[i]
    {
      if i < level {
        NonzeroCountersFrame(s.numbers, s'.numbers, i);
      } else {
        assert i == level;
        assert s'.headings[i] == (SectionNumber(s'.numbers, i) + " ") + text;
      }
    }
  }

  lemma StepPreservesConsistent(s: State, p: Paragraph)
    requires Consistent(s) && Step(s, p).Ok?
    ensures Consistent(Step(s, p).value.0)
  {
    var text := Strip(p.text);
    if text != "" && IsHeadingStyle(p.style) {
      StepOnHeading(s, p, HeadingLevel(p.style).value);
      HeadingPreservesConsistent(s, HeadingLevel(p.style).value, text);
    }
  }

  /** Every state the paragraph loop reaches is consistent. */
  lemma {:induction false} RunConsistent(ps: seq<Paragraph>)
    requires Run(ps).Ok?
    ensures Consistent(Run(ps).value.0)
    decreases |ps|
  {
    if ps != [] {
      RunConsistent(ps[..|ps| - 1]);
      StepPreservesConsistent(Run(ps[..|ps| - 1]).value.0, ps[|ps| - 1]);
    }
  }

  /** In a consistent state a caption's parent is the current heading's full text, which starts with its number. */
  lemma CaptionParentIsCurrentHeading(s: State, text: string)
    requires Consistent(s) && s.level in Levels
    ensures var e := OnCaption(s, text);
      e.parent != "" && SectionNumber(s.numbers, s.level) + " " <= e.parent
  {
  }

  /** A caption right after a heading sits one level below it and has that heading's full text as its parent. */
  lemma CaptionAfterHeading(s: State, h: Paragraph, c: Paragraph)
    requires Valid(s) && Step(s, h).Ok? && Step(s, h).value.1.Some? && Step(s, h).value.1.value.kind == Heading
    requires !IsHeadingStyle(c.style) && Strip(c.text) != "" && IsCaption(Strip(c.text))
    ensures var (s1, o1) := Step(s, h).value;
      && Step(s1, c).Ok? && Step(s1, c).value.1.Some?
      && Step(s1, c).value.1.value.level == o1.value.level + 1
      && Step(s1, c).value.1.value.parent == o1.value.fullText
  {
    assert Strip(h.text) != "" && IsHeadingStyle(h.style);
    StepOnHeading(s, h, HeadingLevel(h.style).value);
  }

  // ---------------------------------------------------------------------
  // The whole loop

  /** The element a step appends, if any, is a heading at a level in 1..5 or a caption at a level in 2..6. */
  lemma StepLevels(s: State, p: Paragraph)
    requires Valid(s) && Step(s, p).Ok? && Step(s, p).value.1.Some?
    ensures var e := Step(s, p).value.1.value;
      if e.kind == Heading then 1 <= e.level <= 5 else 2 <= e.level <= 6
  {
    if IsHeadingStyle(p.style) {
      StepOnHeading(s, p, HeadingLevel(p.style).value);
    }
  }

  /** Headings have levels 1..5, captions 2..6; so every level is at least 1. */
  lemma {:induction false} RunLevels(ps: seq<Paragraph>)
    requires Run(ps).Ok?
    ensures forall e :: e in Run(ps).value.1 ==>
      if e.kind == Heading then 1 <= e.level <= 5 else 2 <= e.level <= 6
    decreases |ps|
  {
    if ps != [] {
      var init := ps[..|ps| - 1];
      RunLevels(init);
      var (s, es) := Run(init).value;
      if Step(s, ps[|ps| - 1]).value.1.Some? {
        StepLevels(s, ps[|ps| - 1]);
      }
    }
  }

  /** Once a prefix of the paragraphs fails, the whole loop fails with the same error. */
  lemma {:induction false} RunErrorPersists(ps: seq<Paragraph>, k: nat)
    requires k <= |ps| && Run(ps[..k]).Err?
    ensures Run(ps) == Run(ps[..k])
    decreases |ps| - k
  {
    if k < |ps| {
      assert Run(ps[..k + 1]) == Run(ps[..k]) by {
        assert ps[..k + 1][..k] == ps[..k];
      }
      RunErrorPersists(ps, k + 1);
    } else {
      assert ps[..k] == ps;
    }
  }

  /** Processing one more paragraph from a successful prefix is one `Step`. */
  lemma RunSnoc(ps: seq<Paragraph>, k: nat)
    requires k < |ps| && Run(ps[..k]).Ok?
    ensures Run(ps[..k + 1]) ==
      match Step(Run(ps[..k]).value.0, ps[k])
      case Err(e) => Err(e)
      case Ok((s', o)) => Ok((s', Run(ps[..k]).value.1 + Emitted(o)))
  {
    var q := ps[..k + 1];
    assert q[..|q| - 1] == ps[..k] && q[|q| - 1] == ps[k];
  }
}
