/**
 * Section numbers of runs of headings, computed once through the
 * dictionaries of module Numbering and once on a plain vector of the five
 * counters, with a lemma that the two agree; worked examples; and a lemma
 * that the headings the whole loop emits are numbered as the run of their
 * levels, whatever else the document holds.
 */
module WorkedNumbers {
  import opened Text
  import opened Numbering

  /** The numbers given to headings at `levels`, one after another, starting from `s`. */
  function HeadingNumbers(s: State, levels: seq<int>): (r: seq<string>)
    requires Valid(s) && forall k :: 0 <= k < |levels| ==> levels[k] in Levels
    ensures |r| == |levels|
    decreases |levels|
  {
    if levels == [] then []
    else
      var (s', e) := OnHeading(s, levels[0], "T");
      [e.number] + HeadingNumbers(s', levels[1..])
  }

  /** The counters of levels 1..5 as a sequence; level i is at index i - 1. */
  function CounterVector(numbers: map<int, nat>): (c: seq<nat>)
    requires numbers.Keys == Levels
    ensures |c| == 5 && forall i :: i in Levels ==> c[i - 1] == numbers[i]
  {
    seq(5, k requires 0 <= k < 5 => numbers[k + 1])
  }

  /** The counter vector after a heading at `level`: bump that counter, zero the deeper ones. */
  function Bump(c: seq<nat>, level: int): seq<nat>
    requires |c| == 5
  {
    seq(5, k requires 0 <= k < 5 => if k + 1 < level then c[k] else if k + 1 == level then c[k] + 1 else 0)
  }

  /** The nonzero entries among the first `level` counters of `c`, in order. */
  function NonzeroPrefix(c: seq<nat>, level: nat): seq<nat>
    requires level <= |c|
  {
    if level == 0 then [] else NonzeroPrefix(c, level - 1) + (if c[level - 1] > 0 then [c[level - 1]] else [])
  }

  /** The numbers of a run of headings, computed on counter vectors. */
  function VectorNumbers(c: seq<nat>, levels: seq<int>): seq<string>
    requires |c| == 5 && forall k :: 0 <= k < |levels| ==> 1 <= levels[k] <= 5
    decreases |levels|
  {
    if levels == [] then []
    else
      var c' := Bump(c, levels[0]);
      [Join(Numerals(NonzeroPrefix(c', levels[0])), '.')] + VectorNumbers(c', levels[1..])
  }

  lemma {:induction false} NonzeroCountersByVector(numbers: map<int, nat>, level: int)
    requires numbers.Keys == Levels && 0 <= level <= 5
    ensures NonzeroCounters(numbers, level) == NonzeroPrefix(CounterVector(numbers), level)
  {
    if level > 0 {
      NonzeroCountersByVector(numbers, level - 1);
    }
  }

  /** On the counters, a heading does what `Bump` does to the vector. */
  lemma OnHeadingBumps(s: State, level: int, text: string)
    requires Valid(s) && level in Levels
    ensures CounterVector(OnHeading(s, level, text).0.numbers) == Bump(CounterVector(s.numbers), level)
  {
    OnHeadingShape(s, level, text);
  }

  /** Numbering through the dictionaries and numbering on counter vectors give the same numbers. */
  lemma {:induction false} HeadingNumbersByVector(s: State, levels: seq<int>)
    requires Valid(s) && forall k :: 0 <= k < |levels| ==> levels[k] in Levels
    ensures HeadingNumbers(s, levels) == VectorNumbers(CounterVector(s.numbers), levels)
    decreases |levels|
  {
    if levels != [] {
      var level := levels[0];
      var (s', e) := OnHeading(s, level, "T");
      OnHeadingBumps(s, level, "T");
      OnHeadingShape(s, level, "T");
      NonzeroCountersByVector(s'.numbers, level);
      HeadingNumbersByVector(s', levels[1..]);
    }
  }

  lemma InitialVector()
    ensures CounterVector(Initial().numbers) == [0, 0, 0, 0, 0]
  {
  }

  /** One heading of a run on literal vectors: its number, then the numbers of the rest. */
  lemma VectorStep(c: seq<nat>, levels: seq<int>, c': seq<nat>, cs: seq<nat>, number: string, rest: seq<string>)
    requires |c| == 5 && |levels| > 0 && forall k :: 0 <= k < |levels| ==> 1 <= levels[k] <= 5
    requires Bump(c, levels[0]) == c' && NonzeroPrefix(c', levels[0]) == cs && Join(Numerals(cs), '.') == number
    requires VectorNumbers(c', levels[1..]) == rest
    ensures VectorNumbers(c, levels) == [number] + rest
  {
  }

  // Levels 1, 1, 2, 1 are numbered "1", "2", "2.1", "3", one heading at a time from the back.

  lemma SiblingsLast()
    ensures VectorNumbers([2, 1, 0, 0, 0], [1]) == ["3"]
  {
    assert Bump([2, 1, 0, 0, 0], 1) == [3, 0, 0, 0, 0];
    assert NonzeroPrefix([3, 0, 0, 0, 0], 1) == [3];
    assert Numerals([3]) == ["3"];
    VectorStep([2, 1, 0, 0, 0], [1], [3, 0, 0, 0, 0], [3], "3", []);
  }

  lemma SiblingsThird()
    ensures VectorNumbers([2, 0, 0, 0, 0], [2, 1]) == ["2.1", "3"]
  {
    SiblingsLast();
    assert Bump([2, 0, 0, 0, 0], 2) == [2, 1, 0, 0, 0];
    assert NonzeroPrefix([2, 1, 0, 0, 0], 2) == [2, 1];
    assert Numerals([2, 1]) == ["2", "1"];
    assert [2, 1][1..] == [1];
    VectorStep([2, 0, 0, 0, 0], [2, 1], [2, 1, 0, 0, 0], [2, 1], "2.1", ["3"]);
  }

  lemma SiblingsSecond()
    ensures VectorNumbers([1, 0, 0, 0, 0], [1, 2, 1]) == ["2", "2.1", "3"]
  {
    SiblingsThird();
    assert Bump([1, 0, 0, 0, 0], 1) == [2, 0, 0, 0, 0];
    assert NonzeroPrefix([2, 0, 0, 0, 0], 1) == [2];
    assert Numerals([2]) == ["2"];
    assert [1, 2, 1][1..] == [2, 1];
    VectorStep([1, 0, 0, 0, 0], [1, 2, 1], [2, 0, 0, 0, 0], [2], "2", ["2.1", "3"]);
  }

  lemma SiblingsFirst()
    ensures VectorNumbers([0, 0, 0, 0, 0], [1, 1, 2, 1]) == ["1", "2", "2.1", "3"]
  {
    SiblingsSecond();
    assert Bump([0, 0, 0, 0, 0], 1) == [1, 0, 0, 0, 0];
    assert NonzeroPrefix([1, 0, 0, 0, 0], 1) == [1];
    assert Numerals([1]) == ["1"];
    assert [1, 1, 2, 1][1..] == [1, 2, 1];
    VectorStep([0, 0, 0, 0, 0], [1, 1, 2, 1], [1, 0, 0, 0, 0], [1], "1", ["2", "2.1", "3"]);
  }

  /** Headings at levels 1, 1, 2, 1 are numbered "1", "2", "2.1", "3". */
  lemma SiblingNumbering()
    ensures HeadingNumbers(Initial(), [1, 1, 2, 1]) == ["1", "2", "2.1", "3"]
  {
    SiblingsFirst();
    InitialVector();
    HeadingNumbersByVector(Initial(), [1, 1, 2, 1]);
  }

  // Levels 1, 2, 3, 1 are numbered "1", "1.1", "1.1.1", "2".

  lemma NestedLast()
    ensures VectorNumbers([1, 1, 1, 0, 0], [1]) == ["2"]
  {
    assert Bump([1, 1, 1, 0, 0], 1) == [2, 0, 0, 0, 0];
    assert NonzeroPrefix([2, 0, 0, 0, 0], 1) == [2];
    assert Numerals([2]) == ["2"];
    VectorStep([1, 1, 1, 0, 0], [1], [2, 0, 0, 0, 0], [2], "2", []);
  }

  lemma NestedThird()
    ensures VectorNumbers([1, 1, 0, 0, 0], [3, 1]) == ["1.1.1", "2"]
  {
    NestedLast();
    assert Bump([1, 1, 0, 0, 0], 3) == [1, 1, 1, 0, 0];
    assert NonzeroPrefix([1, 1, 1, 0, 0], 2) == [1, 1];
    assert NonzeroPrefix([1, 1, 1, 0, 0], 3) == [1, 1, 1];
    assert Numerals([1, 1, 1]) == ["1", "1", "1"];
    assert Join(["1", "1"], '.') == "1.1";
    assert Join(["1", "1", "1"], '.') == "1.1.1";
    assert [3, 1][1..] == [1];
    VectorStep([1, 1, 0, 0, 0], [3, 1], [1, 1, 1, 0, 0], [1, 1, 1], "1.1.1", ["2"]);
  }

  lemma NestedSecond()
    ensures VectorNumbers([1, 0, 0, 0, 0], [2, 3, 1]) == ["1.1", "1.1.1", "2"]
  {
    NestedThird();
    assert Bump([1, 0, 0, 0, 0], 2) == [1, 1, 0, 0, 0];
    assert NonzeroPrefix([1, 1, 0, 0, 0], 2) == [1, 1];
    assert Numerals([1, 1]) == ["1", "1"];
    assert [2, 3, 1][1..] == [3, 1];
    VectorStep([1, 0, 0, 0, 0], [2, 3, 1], [1, 1, 0, 0, 0], [1, 1], "1.1", ["1.1.1", "2"]);
  }

  lemma NestedFirst()
    ensures VectorNumbers([0, 0, 0, 0, 0], [1, 2, 3, 1]) == ["1", "1.1", "1.1.1", "2"]
  {
    NestedSecond();
    assert Bump([0, 0, 0, 0, 0], 1) == [1, 0, 0, 0, 0];
    assert NonzeroPrefix([1, 0, 0, 0, 0], 1) == [1];
    assert Numerals([1]) == ["1"];
    assert [1, 2, 3, 1][1..] == [2, 3, 1];
    VectorStep([0, 0, 0, 0, 0], [1, 2, 3, 1], [1, 0, 0, 0, 0], [1], "1", ["1.1", "1.1.1", "2"]);
  }

  /** Headings at levels 1, 2, 3, 1 are numbered "1", "1.1", "1.1.1", "2". */
  lemma NestedNumbering()
    ensures HeadingNumbers(Initial(), [1, 2, 3, 1]) == ["1", "1.1", "1.1.1", "2"]
  {
    NestedFirst();
    InitialVector();
    HeadingNumbersByVector(Initial(), [1, 2, 3, 1]);
  }

  // Levels 1, 3 (level 2 skipped) are numbered "1", "1.1": the zero level-2 counter is left out.

  lemma SkippedLast()
    ensures VectorNumbers([1, 0, 0, 0, 0], [3]) == ["1.1"]
  {
    assert Bump([1, 0, 0, 0, 0], 3) == [1, 0, 1, 0, 0];
    assert NonzeroPrefix([1, 0, 1, 0, 0], 3) == [1, 1];
    assert Numerals([1, 1]) == ["1", "1"];
    VectorStep([1, 0, 0, 0, 0], [3], [1, 0, 1, 0, 0], [1, 1], "1.1", []);
  }

  lemma SkippedFirst()
    ensures VectorNumbers([0, 0, 0, 0, 0], [1, 3]) == ["1", "1.1"]
  {
    SkippedLast();
    assert Bump([0, 0, 0, 0, 0], 1) == [1, 0, 0, 0, 0];
    assert NonzeroPrefix([1, 0, 0, 0, 0], 1) == [1];
    assert Numerals([1]) == ["1"];
    assert [1, 3][1..] == [3];
    VectorStep([0, 0, 0, 0, 0], [1, 3], [1, 0, 0, 0, 0], [1], "1", ["1.1"]);
  }

  /** A level-3 heading right after a level-1 heading is numbered "1.1", not "1.0.1". */
  lemma SkippedLevelNumbering()
    ensures HeadingNumbers(Initial(), [1, 3]) == ["1", "1.1"]
  {
    SkippedFirst();
    InitialVector();
    HeadingNumbersByVector(Initial(), [1, 3]);
  }

  // ---------------------------------------------------------------------
  // From a whole document to the numbers of its headings

  /** The level of `p` when it is a heading whose level parses, as a sequence of at most one level. */
  function HeadingLevelOf(p: Paragraph): seq<int> {
    if Strip(p.text) != "" && IsHeadingStyle(p.style) && HeadingLevel(p.style).Some?
    then [HeadingLevel(p.style).value] else []
  }

  /** The levels of the headings among `ps`, in document order; blank paragraphs are skipped. */
  function HeadingLevelsOf(ps: seq<Paragraph>): seq<int>
    decreases |ps|
  {
    if ps == [] then [] else HeadingLevelsOf(ps[..|ps| - 1]) + HeadingLevelOf(ps[|ps| - 1])
  }

  /** The numbers of the heading elements of `es`, in order. */
  function NumbersOf(es: seq<Element>): seq<string>
    decreases |es|
  {
    if es == [] then []
    else NumbersOf(es[..|es| - 1]) + (if es[|es| - 1].kind == Heading then [es[|es| - 1].number] else [])
  }

  /** The counter vector after headings at `levels`, starting from `c`. */
  function VectorAfter(c: seq<nat>, levels: seq<int>): (r: seq<nat>)
    requires |c| == 5 && forall k :: 0 <= k < |levels| ==> 1 <= levels[k] <= 5
    ensures |r| == 5
    decreases |levels|
  {
    if levels == [] then c else VectorAfter(Bump(c, levels[0]), levels[1..])
  }

  /** One more heading at the end of a run: its number is computed from the vector the run ends with. */
  lemma {:induction false} VectorSnoc(c: seq<nat>, levels: seq<int>, level: int)
    requires |c| == 5 && 1 <= level <= 5 && forall k :: 0 <= k < |levels| ==> 1 <= levels[k] <= 5
    ensures VectorAfter(c, levels + [level]) == Bump(VectorAfter(c, levels), level)
    ensures VectorNumbers(c, levels + [level]) ==
      VectorNumbers(c, levels) + [Join(Numerals(NonzeroPrefix(Bump(VectorAfter(c, levels), level), level)), '.')]
    decreases |levels|
  {
    if levels != [] {
      assert (levels + [level])[1..] == levels[1..] + [level];
      VectorSnoc(Bump(c, levels[0]), levels[1..], level);
    }
  }

  /** The number of the heading that `OnHeading` makes, read off the counter vector. */
  lemma OnHeadingNumberByVector(s: State, level: int, text: string)
    requires Valid(s) && level in Levels
    ensures OnHeading(s, level, text).1.number ==
      Join(Numerals(NonzeroPrefix(Bump(CounterVector(s.numbers), level), level)), '.')
  {
    var s' := OnHeading(s, level, text).0;
    OnHeadingShape(s, level, text);
    OnHeadingBumps(s, level, text);
    NonzeroCountersByVector(s'.numbers, level);
  }

  /** The loop state after the headings at `levels` (from the start of the document) and the elements `es`. */
  ghost predicate NumberedBy(s: State, es: seq<Element>, levels: seq<int>) {
    && Valid(s)
    && (forall k :: 0 <= k < |levels| ==> levels[k] in Levels)
    && CounterVector(s.numbers) == VectorAfter([0, 0, 0, 0, 0], levels)
    && NumbersOf(es) == VectorNumbers([0, 0, 0, 0, 0], levels)
  }

  /** A heading adds its level to the run and its number to the numbers. */
  lemma HeadingStepNumbered(s: State, es: seq<Element>, levels: seq<int>, p: Paragraph)
    requires NumberedBy(s, es, levels) && Step(s, p).Ok?
    requires Strip(p.text) != "" && IsHeadingStyle(p.style)
    ensures HeadingLevelOf(p) == [HeadingLevel(p.style).value]
    ensures NumberedBy(Step(s, p).value.0, es + Emitted(Step(s, p).value.1), levels + HeadingLevelOf(p))
  {
    var text := Strip(p.text);
    var level := HeadingLevel(p.style).value;
    StepOnHeading(s, p, level);
    var (s', e) := OnHeading(s, level, text);
    OnHeadingBumps(s, level, text);
    OnHeadingNumberByVector(s, level, text);
    VectorSnoc([0, 0, 0, 0, 0], levels, level);
    assert (es + [e])[..|es|] == es;
  }

  /** Any other paragraph leaves the run of levels, the counters and the numbers as they were. */
  lemma OtherStepNumbered(s: State, es: seq<Element>, levels: seq<int>, p: Paragraph)
    requires NumberedBy(s, es, levels) && Step(s, p).Ok?
    requires !(Strip(p.text) != "" && IsHeadingStyle(p.style))
    ensures HeadingLevelOf(p) == []
    ensures NumberedBy(Step(s, p).value.0, es + Emitted(Step(s, p).value.1), levels + HeadingLevelOf(p))
  {
    var o := Step(s, p).value.1;
    assert Step(s, p).value.0 == s;
    assert levels + [] == levels;
    if o.Some? {
      assert o.value.kind != Heading;
      assert (es + [o.value])[..|es|] == es;
    } else {
      assert es + [] == es;
    }
  }

  /** Every state the loop reaches is numbered by the levels of the headings read so far. */
  lemma {:induction false} RunHeadingsVector(ps: seq<Paragraph>)
    requires Run(ps).Ok?
    ensures NumberedBy(Run(ps).value.0, Run(ps).value.1, HeadingLevelsOf(ps))
    decreases |ps|
  {
    if ps == [] {
      InitialVector();
    } else {
      var init := ps[..|ps| - 1];
      var p := ps[|ps| - 1];
      RunHeadingsVector(init);
      var (s, es) := Run(init).value;
      if Strip(p.text) != "" && IsHeadingStyle(p.style) {
        HeadingStepNumbered(s, es, HeadingLevelsOf(init), p);
      } else {
        OtherStepNumbered(s, es, HeadingLevelsOf(init), p);
      }
    }
  }

  /**
   * The heading elements the loop emits are numbered exactly as the run of
   * their levels is, whatever captions, body text and blank paragraphs come
   * between them.
   */
  lemma RunHeadingNumbers(ps: seq<Paragraph>)
    requires Run(ps).Ok?
    ensures forall k :: 0 <= k < |HeadingLevelsOf(ps)| ==> HeadingLevelsOf(ps)[k] in Levels
    ensures NumbersOf(Run(ps).value.1) == HeadingNumbers(Initial(), HeadingLevelsOf(ps))
  {
    RunHeadingsVector(ps);
    InitialVector();
    HeadingNumbersByVector(Initial(), HeadingLevelsOf(ps));
  }

  /** Any document whose headings have levels 1, 1, 2, 1 numbers them "1", "2", "2.1", "3". */
  lemma SiblingDocument(ps: seq<Paragraph>)
    requires Run(ps).Ok? && HeadingLevelsOf(ps) == [1, 1, 2, 1]
    ensures NumbersOf(Run(ps).value.1) == ["1", "2", "2.1", "3"]
  {
    RunHeadingNumbers(ps);
    SiblingNumbering();
  }
}
