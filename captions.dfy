/**
 * The caption test of extract_sectionNames.py: `re.match` of four patterns
 * against the stripped paragraph text,
 *
 *   `^表\s*\d+`   `^図\s*\d+`   `^Tab\w*\.*\s*\d+`   `^Fig\.*\s*\d+`
 *
 * written as hand-made prefix matchers, together with a declarative statement
 * of what each pattern means (the positions where its pieces start and end)
 * and lemmas that the two agree. Character classes are those of module Text.
 */
module Captions {
  import opened Text

  /** Whether some character of `t[lo..hi]` is a digit. */
  function HasDigit(t: string, lo: nat, hi: nat): (b: bool)
    requires lo <= hi <= |t|
    ensures b <==> exists m :: lo <= m < hi && IsDigit(t[m])
    decreases hi - lo
  {
    lo < hi && (IsDigit(t[lo]) || HasDigit(t, lo + 1, hi))
  }

  /** Matcher for `^表\s*\d+` (mark '表') and `^図\s*\d+` (mark '図'). */
  predicate MarkLabel(t: string, mark: char) {
    |t| > 0 && t[0] == mark &&
    var k := SkipWhile(t, 1, IsSpace);
    k < |t| && IsDigit(t[k])
  }

  /**
   * Matcher for `^Tab\w*\.*\s*\d+`. Because `\w` also matches digits, the
   * pattern matches either when a digit occurs inside the run of word
   * characters after "Tab", or when the longest runs of word characters,
   * dots and whitespace are followed by a digit.
   */
  predicate TabLabel(t: string) {
    StartsWith(t, "Tab") &&
    var w := SkipWhile(t, 3, IsWordChar);
    var d := SkipWhile(t, w, IsDot);
    var k := SkipWhile(t, d, IsSpace);
    HasDigit(t, 3, w) || (k < |t| && IsDigit(t[k]))
  }

  /** Matcher for `^Fig\.*\s*\d+`. */
  predicate FigLabel(t: string) {
    StartsWith(t, "Fig") &&
    var d := SkipWhile(t, 3, IsDot);
    var k := SkipWhile(t, d, IsSpace);
    k < |t| && IsDigit(t[k])
  }

  /** `is_caption(text)`: one of the four patterns matches at the start of the stripped text. */
  predicate IsCaption(text: string) {
    var t := Strip(text);
    MarkLabel(t, '表') || MarkLabel(t, '図') || TabLabel(t) || FigLabel(t)
  }

  /** The caption type test `text.startswith(('表', 'Tab'))`; any other caption is a figure. */
  predicate IsTableCaption(text: string) {
    StartsWith(text, "表") || StartsWith(text, "Tab")
  }

  // What the patterns mean: a match is a choice of positions splitting the
  // start of the text into the pattern's pieces.

  /** `t` = mark, whitespace in `t[1..k]`, digit at `k`. */
  ghost predicate MarkSplit(t: string, mark: char, k: int) {
    |t| > 0 && t[0] == mark && 1 <= k < |t| && All(t, 1, k, IsSpace) && IsDigit(t[k])
  }

  /** `t` = "Tab", word characters in `t[3..i]`, dots in `t[i..j]`, whitespace in `t[j..k]`, digit at `k`. */
  ghost predicate TabSplit(t: string, i: int, j: int, k: int) {
    && StartsWith(t, "Tab") && 3 <= i <= j <= k < |t|
    && All(t, 3, i, IsWordChar) && All(t, i, j, IsDot) && All(t, j, k, IsSpace) && IsDigit(t[k])
  }

  /** `t` = "Fig", dots in `t[3..j]`, whitespace in `t[j..k]`, digit at `k`. */
  ghost predicate FigSplit(t: string, j: int, k: int) {
    && StartsWith(t, "Fig") && 3 <= j <= k < |t|
    && All(t, 3, j, IsDot) && All(t, j, k, IsSpace) && IsDigit(t[k])
  }

  ghost predicate MatchesMark(t: string, mark: char) {
    exists k :: MarkSplit(t, mark, k)
  }

  ghost predicate MatchesTab(t: string) {
    exists i, j, k :: TabSplit(t, i, j, k)
  }

  ghost predicate MatchesFig(t: string) {
    exists j, k :: FigSplit(t, j, k)
  }

  lemma MarkLabelCorrect(t: string, mark: char)
    ensures MarkLabel(t, mark) <==> MatchesMark(t, mark)
  {
    if MarkLabel(t, mark) {
      assert MarkSplit(t, mark, SkipWhile(t, 1, IsSpace));
    }
    if MatchesMark(t, mark) {
      var k :| MarkSplit(t, mark, k);
      SkipWhileStopsAt(t, 1, k, IsSpace);
    }
  }

  lemma FigLabelCorrect(t: string)
    ensures FigLabel(t) <==> MatchesFig(t)
  {
    if FigLabel(t) {
      var d := SkipWhile(t, 3, IsDot);
      assert FigSplit(t, d, SkipWhile(t, d, IsSpace));
    }
    if MatchesFig(t) {
      var j, k :| FigSplit(t, j, k);
      SkipWhileStopsAt(t, 3, j, IsDot);
      SkipWhileStopsAt(t, j, k, IsSpace);
    }
  }

  /** Every text the `Tab` matcher accepts matches the pattern. */
  lemma TabLabelSound(t: string)
    requires TabLabel(t)
    ensures MatchesTab(t)
  {
    var w := SkipWhile(t, 3, IsWordChar);
    var d := SkipWhile(t, w, IsDot);
    var k := SkipWhile(t, d, IsSpace);
    if HasDigit(t, 3, w) {
      var m :| 3 <= m < w && IsDigit(t[m]);
      assert TabSplit(t, m, m, m);
    } else {
      assert TabSplit(t, w, d, k);
    }
  }

  /** Every text that matches the `Tab` pattern is accepted by the matcher. */
  lemma TabLabelComplete(t: string)
    requires MatchesTab(t)
    ensures TabLabel(t)
  {
    var i, j, k :| TabSplit(t, i, j, k);
    var w := SkipWhile(t, 3, IsWordChar);
    if i == k {
      assert All(t, 3, k + 1, IsWordChar);
      assert 3 <= k < w;
    } else {
      assert !IsWordChar(t[i]);
      SkipWhileStopsAt(t, 3, i, IsWordChar);
      SkipWhileStopsAt(t, i, j, IsDot);
      SkipWhileStopsAt(t, j, k, IsSpace);
    }
  }

  lemma TabLabelCorrect(t: string)
    ensures TabLabel(t) <==> MatchesTab(t)
  {
    if TabLabel(t) {
      TabLabelSound(t);
    }
    if MatchesTab(t) {
      TabLabelComplete(t);
    }
  }

  /**
   * The caption test holds exactly when one of the four patterns matches at
   * the start of the stripped text.
   */
  lemma IsCaptionMatchesPatterns(text: string)
    ensures IsCaption(text) <==>
      var t := Strip(text);
      MatchesMark(t, '表') || MatchesMark(t, '図') || MatchesTab(t) || MatchesFig(t)
  {
    var t := Strip(text);
    MarkLabelCorrect(t, '表');
    MarkLabelCorrect(t, '図');
    TabLabelCorrect(t);
    FigLabelCorrect(t);
  }

  /** A caption whose text starts with '表' or "Tab" is a table caption; every other caption starts with '図' or "Fig". */
  lemma CaptionKinds(text: string)
    requires text == Strip(text) && IsCaption(text)
    ensures IsTableCaption(text) <==> MarkLabel(text, '表') || TabLabel(text)
    ensures !IsTableCaption(text) ==> StartsWith(text, "図") || StartsWith(text, "Fig")
  {
    if MarkLabel(text, '図') {
      assert text[..1] == ['図'];
    } else if FigLabel(text) {
      assert text[..3] == "Fig";
    }
  }

  /** "Table 1" is a table caption. */
  lemma TableCaptionExample()
    ensures IsCaption("Table 1")
  {
    StripUnpadded("Table 1");
    SkipWhileStopsAt("Table 1", 3, 5, IsWordChar);
    assert !HasDigit("Table 1", 3, 5);
    SkipWhileStopsAt("Table 1", 5, 5, IsDot);
    SkipWhileStopsAt("Table 1", 5, 6, IsSpace);
  }

  /** "Table.1": the dots after the word run are skipped too. */
  lemma TableDotCaptionExample()
    ensures IsCaption("Table.1")
  {
    StripUnpadded("Table.1");
    SkipWhileStopsAt("Table.1", 3, 5, IsWordChar);
    SkipWhileStopsAt("Table.1", 5, 6, IsDot);
    SkipWhileStopsAt("Table.1", 6, 6, IsSpace);
  }

  /** "Fig. 2": dots, then whitespace, then the number. */
  lemma FigCaptionExample()
    ensures IsCaption("Fig. 2")
  {
    StripUnpadded("Fig. 2");
    SkipWhileStopsAt("Fig. 2", 3, 4, IsDot);
    SkipWhileStopsAt("Fig. 2", 4, 5, IsSpace);
  }

  /** "表3 結果" and "図 1": the number may follow the mark directly or after whitespace. */
  lemma MarkCaptionExamples()
    ensures IsCaption("表3 結果") && IsCaption("図 1")
  {
    StripUnpadded("表3 結果");
    SkipWhileStopsAt("表3 結果", 1, 1, IsSpace);
    StripUnpadded("図 1");
    SkipWhileStopsAt("図 1", 1, 2, IsSpace);
  }

  /** "Figure 2" is not a caption: only dots and whitespace may separate "Fig" from the number. */
  lemma FigureWordNotCaption()
    ensures !IsCaption("Figure 2")
  {
    StripUnpadded("Figure 2");
    SkipWhileStopsAt("Figure 2", 3, 3, IsDot);
    SkipWhileStopsAt("Figure 2", 3, 3, IsSpace);
  }

  /** "Table" and "表の一覧" are not captions: no number follows. */
  lemma UnnumberedNotCaption()
    ensures !IsCaption("Table") && !IsCaption("表の一覧")
  {
    StripUnpadded("Table");
    SkipWhileStopsAt("Table", 3, 5, IsWordChar);
    assert !HasDigit("Table", 3, 5);
    StripUnpadded("表の一覧");
    SkipWhileStopsAt("表の一覧", 1, 1, IsSpace);
  }
}
