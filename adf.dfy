/** The ADF builder: plain text wrapped as a one-paragraph document. */
module Adf {
  import opened Wrappers
  import opened Json
  import opened Errors
  import opened JiraIssue

  function TextNode(text: string): Json {
    JObj(map["type" := JStr("text"), "text" := JStr(text)])
  }

  function Paragraph(text: string): Json {
    JObj(map["type" := JStr("paragraph"), "content" := JArr([TextNode(text)])])
  }

  function Document(text: string): Json {
    JObj(map["type" := JStr("doc"), "version" := JNum(1), "content" := JArr([Paragraph(text)])])
  }

  /**
   * `_text_to_adf`: a non-string input is rejected with "Input must be a
   * string"; a string, empty or spanning several lines, becomes a version-1
   * `doc` whose single paragraph holds a single text node, and reading that
   * document back gives the string unchanged.
   */
  function TextToAdf(v: Json): (r: Result<Json, Error>)
    ensures r.Err? <==> !v.JStr?
    ensures r.Err? ==> r.error == InvalidInput("Input must be a string")
    ensures r.Ok? ==> WellFormedAdf(r.value)
    ensures r.Ok? ==>
      r.value.JObj? && r.value.fields.Keys == {"type", "version", "content"}
      && r.value.fields["type"] == JStr("doc")
      && r.value.fields["version"] == JNum(1)
      && r.value.fields["content"] == JArr([Paragraph(v.s)])
    ensures r.Ok? ==> ExtractAdfText(r.value) == Ok(v.s)
  {
    match v
    case JStr(text) =>
      AdfReadsBack(text);
      Ok(Document(text))
    case _ => Err(InvalidInput("Input must be a string"))
  }

  /** Reading a document made of one paragraph with one text node gives the text. */
  lemma AdfReadsBack(text: string)
    ensures WellFormedAdf(Paragraph(text))
    ensures ExtractAdfText(Paragraph(text)) == Ok(text)
    ensures WellFormedAdf(Document(text))
    ensures ExtractAdfText(Document(text)) == Ok(text)
  {
    var node := TextNode(text);
    assert ExtractAdfText(node) == Ok(text);
    assert [node][1..] == [];
    assert ExtractAll([node][1..]) == Ok([]);
    assert ExtractAll([node]).value == [text];
    assert NonEmpty([text]) == (if text == "" then [] else [text]) by {
      assert [text][1..] == [];
    }
    assert ExtractAdfText(Paragraph(text)) == Ok(text);
    var para := Paragraph(text);
    assert [para][1..] == [];
    assert ExtractAll([para][1..]) == Ok([]);
    assert ExtractAll([para]).value == [text];
    assert Document(text).fields["type"] != JStr("text");
  }

  /** The description an issue reports for an ADF description written by the builder. */
  lemma DescriptionRoundTrip(key: string, text: string, raw: map<string, Json>)
    requires "description" in raw && raw["description"] == TextToAdf(JStr(text)).value
    ensures Issue(key, raw).Description() == Ok(text)
  {
  }
}
