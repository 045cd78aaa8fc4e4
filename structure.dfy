/**
 * `extract_document_structure` without its document reader and spreadsheet
 * writer: the paragraphs come in as a sequence and the two sheets go out as
 * values.
 */
module Structure {
  import opened Text
  import opened Numbering
  import opened Outline
  import opened Extraction

  /** The two sheets: the flat list of elements and the level outline. */
  datatype Tables = Tables(flat: seq<Element>, outline: seq<seq<string>>)

  /**
   * Runs the paragraph loop, then the outline loop. The first exception of
   * the paragraph loop is the result; a document without headings and
   * captions is the `NoElements` error; otherwise the flat sheet is the
   * elements `Extract` specifies and the outline sheet is their outline.
   */
  method ExtractDocumentStructure(paragraphs: seq<Paragraph>) returns (r: Result<Tables>)
    ensures Extract(paragraphs).Err? ==> r == Err(Extract(paragraphs).error)
    ensures Extract(paragraphs) == Ok([]) ==> r == Err(NoElements)
    ensures r.Ok? <==> Extract(paragraphs).Ok? && Extract(paragraphs).value != []
    ensures r.Ok? ==> && r.value.flat == Extract(paragraphs).value
                      && 1 <= MaxLevel(r.value.flat) <= 6
                      && IsOutline(r.value.flat, r.value.outline, MaxLevel(r.value.flat))
  {
    var extractor := new Extractor();
    for k := 0 to |paragraphs|
      invariant Valid(extractor.Current())
      invariant Run(paragraphs[..k]) == Ok((extractor.Current(), extractor.elements))
    {
      RunSnoc(paragraphs, k);
      var failure := extractor.Process(paragraphs[k]);
      if failure.Some? {
        RunErrorPersists(paragraphs, k + 1);
        return Err(failure.value);
      }
    }
    assert paragraphs[..|paragraphs|] == paragraphs;
    RunLevels(paragraphs);
    var flat := extractor.elements;
    var outline := BuildOutline(flat);
    if outline.Err? {
      return Err(outline.error);
    }
    return Ok(Tables(flat, outline.value));
  }
}
