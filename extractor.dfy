/**
 * The paragraph loop of `extract_document_structure` as the source runs it:
 * `current_numbers` and `current_headings` are dictionaries updated in place
 * (here `map` fields that the methods reassign), `current_level` is
 * reassigned and `elements` is appended to. Each method is proved to do what
 * the step function of module Numbering says.
 */
module Extraction {
  import opened Text
  import opened Captions
  import opened Numbering

  class Extractor {
    var numbers: map<int, nat>
    var headings: map<int, string>
    var currentLevel: int
    var elements: seq<Element>

    /** The numbering state held in the fields. */
    ghost function Current(): State
      reads this
    {
      State(numbers, headings, currentLevel)
    }

    constructor ()
      ensures Current() == Initial() && elements == []
    {
      numbers := map i | i in Levels :: 0;
      headings := map i | i in Levels :: "";
      currentLevel := 0;
      elements := [];
    }

    /** `get_current_section_number(level)`: collect the nonzero counters of levels 1..level, then join. */
    method CurrentSectionNumber(level: int) returns (number: string)
      requires forall i :: 1 <= i <= level ==> i in numbers
      ensures number == SectionNumber(numbers, level)
    {
      var parts: seq<string> := [];
      var i := 1;
      while i <= level
        invariant 1 <= i && (i <= level + 1 || i == 1)
        invariant parts == Numerals(NonzeroCounters(numbers, i - 1))
      {
        if numbers[i] > 0 {
          parts := parts + [NatToString(numbers[i])];
        }
        i := i + 1;
      }
      number := Join(parts, '.');
    }

    /** `for i in range(level + 1, 6): current_numbers[i] = 0` */
    method ZeroDeeperCounters(level: int)
      requires numbers.Keys == Levels && level in Levels
      modifies this`numbers
      ensures numbers == Reset(old(numbers), level, 0)
    {
      for i := level + 1 to 6
        invariant numbers.Keys == Levels
        invariant forall k :: k in Levels ==> numbers[k] == if level < k < i then 0 else old(numbers)[k]
      {
        numbers := numbers[i := 0];
      }
    }

    /** `for i in range(level + 1, 6): current_headings[i] = ''` */
    method ClearDeeperHeadings(level: int)
      requires headings.Keys == Levels && level in Levels
      modifies this`headings
      ensures headings == Reset(old(headings), level, "")
    {
      for i := level + 1 to 6
        invariant headings.Keys == Levels
        invariant forall k :: k in Levels ==> headings[k] == if level < k < i then "" else old(headings)[k]
      {
        headings := headings[i := ""];
      }
    }

    /** The heading branch of the loop body, for a level that is a key of both dictionaries. */
    method OpenHeading(level: int, text: string) returns (e: Element)
      requires Valid(Current()) && level in Levels
      modifies this
      ensures (Current(), e) == OnHeading(old(Current()), level, text)
      ensures elements == old(elements) + [e]
    {
      ghost var s := Current();
      currentLevel := level;
      numbers := numbers[level := numbers[level] + 1];
      ZeroDeeperCounters(level);
      assert numbers == OnHeading(s, level, text).0.numbers;
      var number := CurrentSectionNumber(level);
      var fullText := number + " " + text;
      headings := headings[level := fullText];
      ClearDeeperHeadings(level);
      assert headings == OnHeading(s, level, text).0.headings;
      var parent := if level > 1 then headings[level - 1] else "";
      e := Element(Heading, level, number, text, fullText, parent);
      elements := elements + [e];
    }

    /**
     * One iteration of the paragraph loop. On an exception of the source the
     * error is returned and the extraction stops; otherwise the fields hold
     * the state `Step` computes and the element it yields, if any, has been
     * appended.
     */
    method Process(p: Paragraph) returns (failure: Option<Error>)
      requires Valid(Current())
      modifies this
      ensures match Step(old(Current()), p)
        case Err(e) => failure == Some(e)
        case Ok((s, o)) => failure == None && Current() == s && elements == old(elements) + Emitted(o)
    {
      var text := Strip(p.text);
      if text == "" {
        return None;
      }
      if IsHeadingStyle(p.style) {
        var parsed := HeadingLevel(p.style);
        if parsed.None? {
          return Some(LevelNotAnInteger(p.style));
        }
        var level := parsed.value;
        if level !in numbers {
          return Some(NoSuchLevel(level));
        }
        var e := OpenHeading(level, text);
      } else if IsCaption(text) {
        var kind := if IsTableCaption(text) then TableCaption else FigureCaption;
        if currentLevel !in headings {
          return Some(CaptionBeforeHeading(text));
        }
        elements := elements + [Element(kind, currentLevel + 1, "", text, text, headings[currentLevel])];
      }
      return None;
    }
  }
}
