/**
 * The level-outline table of `extract_document_structure`: a list of
 * `max_level` slots, one per level; each element writes its full text into
 * the slot of its level, blanks every deeper slot, and a copy of the slots
 * becomes one row.
 */
module Outline {
  import opened Numbering

  /** `max(df1['level'])`, the number of outline columns. */
  function MaxLevel(es: seq<Element>): (m: int)
    requires |es| > 0
    ensures forall k :: 0 <= k < |es| ==> es[k].level <= m
    ensures exists k :: 0 <= k < |es| && es[k].level == m
  {
    if |es| == 1 then es[0].level
    else
      var m := MaxLevel(es[..|es| - 1]);
      if es[|es| - 1].level > m then es[|es| - 1].level else m
  }

  /** `[''] * width` */
  function Blank(width: nat): (r: seq<string>)
    ensures |r| == width && forall i :: 0 <= i < width ==> r[i] == ""
  {
    seq(width, _ => "")
  }

  /**
   * `row` holds what the slots hold once `e` has been written over the
   * slots `prev`: its full text at its own level, nothing deeper, and the
   * shallower slots as they were.
   */
  ghost predicate OutlineRow(prev: seq<string>, e: Element, row: seq<string>) {
    && |row| == |prev| && 1 <= e.level <= |row|
    && row[e.level - 1] == e.fullText
    && (forall i :: e.level <= i < |row| ==> row[i] == "")
    && (forall i :: 0 <= i < e.level - 1 ==> row[i] == prev[i])
  }

  /** The slots before row `k` is written. */
  ghost function Before(rows: seq<seq<string>>, k: int, width: nat): seq<string>
    requires 0 <= k <= |rows|
  {
    if k == 0 then Blank(width) else rows[k - 1]
  }

  /** Row `k` of `rows` is element `k` written over the row before it. */
  ghost predicate RowAt(es: seq<Element>, rows: seq<seq<string>>, k: int, width: nat)
    requires 0 <= k < |es| && |rows| >= k + 1
  {
    OutlineRow(Before(rows, k, width), es[k], rows[k])
  }

  /** `rows` is the outline of `es` with `width` columns. */
  ghost predicate IsOutline(es: seq<Element>, rows: seq<seq<string>>, width: nat) {
    && |rows| == |es|
    && (forall k :: 0 <= k < |rows| ==> |rows[k]| == width)
    && (forall k :: 0 <= k < |es| ==> 1 <= es[k].level <= width)
    && (forall k :: 0 <= k < |es| ==> RowAt(es, rows, k, width))
  }

  /**
   * The outline loop. An empty element list is an error (the source's
   * `max` over a missing column); otherwise there is one row per element,
   * each `MaxLevel(es)` wide, built as `OutlineRow` says.
   */
  method BuildOutline(es: seq<Element>) returns (r: Result<seq<seq<string>>>)
    requires forall k :: 0 <= k < |es| ==> es[k].level >= 1
    ensures r.Err? <==> es == []
    ensures r.Err? ==> r.error == NoElements
    ensures r.Ok? ==> es != [] && IsOutline(es, r.value, MaxLevel(es))
  {
    if es == [] {
      return Err(NoElements);
    }
    var width := MaxLevel(es);
    var slots := new string[width](_ => "");
    var rows: seq<seq<string>> := [];
    for k := 0 to |es|
      invariant |rows| == k
      invariant forall j :: 0 <= j < k ==> |rows[j]| == width
      invariant slots[..] == Before(rows, k, width)
      invariant forall j :: 0 <= j < k ==> RowAt(es, rows, j, width)
    {
      var level := es[k].level;
      ghost var prev := slots[..];
      slots[level - 1] := es[k].fullText;
      for i := level to width
        invariant forall m :: 0 <= m < width ==>
          slots[m] == if m == level - 1 then es[k].fullText else if level <= m < i then "" else prev[m]
      {
        slots[i] := "";
      }
      ghost var done := rows;
      rows := rows + [slots[..]];
      assert Before(rows, k, width) == prev;
      assert RowAt(es, rows, k, width);
      forall j | 0 <= j < k
        ensures RowAt(es, rows, j, width)
      {
        assert RowAt(es, done, j, width);
        assert Before(rows, j, width) == Before(done, j, width);
      }
    }
    return Ok(rows);
  }

  /**
   * Reading the outline: a non-empty slot at level i+1 in row k holds the
   * full text of the latest element at that level up to k, and every element
   * after it up to k is deeper.
   */
  lemma {:induction false} OutlineSlotIsOpenElement(es: seq<Element>, rows: seq<seq<string>>, width: nat, k: nat, i: nat)
    requires IsOutline(es, rows, width) && k < |es| && i < width
    requires rows[k][i] != ""
    ensures exists j :: 0 <= j <= k && es[j].level == i + 1 && es[j].fullText == rows[k][i]
                        && forall j' :: j < j' <= k ==> es[j'].level > i + 1
  {
    var e := es[k];
    assert RowAt(es, rows, k, width);
    if e.level == i + 1 {
      assert es[k].level == i + 1 && es[k].fullText == rows[k][i];
    } else {
      assert i < e.level - 1;
      assert k > 0;
      OutlineSlotIsOpenElement(es, rows, width, k - 1, i);
      var j :| 0 <= j <= k - 1 && es[j].level == i + 1 && es[j].fullText == rows[k - 1][i]
               && forall j' :: j < j' <= k - 1 ==> es[j'].level > i + 1;
      assert es[j].fullText == rows[k][i];
    }
  }

  /**
   * Conversely, the latest element at level i+1 up to row k stays in slot i
   * as long as every later element is deeper.
   */
  lemma {:induction false} OpenElementStaysInSlot(es: seq<Element>, rows: seq<seq<string>>, width: nat, j: nat, k: nat)
    requires IsOutline(es, rows, width) && j <= k < |es|
    requires forall j' :: j < j' <= k ==> es[j'].level > es[j].level
    ensures rows[k][es[j].level - 1] == es[j].fullText
    decreases k
  {
    assert RowAt(es, rows, j, width);
    if j < k {
      OpenElementStaysInSlot(es, rows, width, j, k - 1);
      assert RowAt(es, rows, k, width);
    }
  }
}
