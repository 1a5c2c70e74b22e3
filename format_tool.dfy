/** The `format` prompt template. */
module FormatTool {
  import opened JsValues
  import opened Text

  const FormatGuides: map<string, string> := map[
    "markdown" := "Convert to well-structured markdown with headers, lists, and emphasis.",
    "html" := "Convert to clean semantic HTML with proper tags and structure.",
    "plain" := "Convert to plain text with clear paragraphs.",
    "outline" := "Convert to a hierarchical outline with main points and subpoints."
  ]

  const Intro: string := "\nPlease format the following text:\n\n## Formatting Instructions:\n"
  const FixedLines: string := "\n- Preserve content and meaning.\n- Improve readability and consistency.\n"
  const TextHeading: string := "\n## Text to Format:\n"
  const Trailer: string := "\n\n## Formatted Output:\n"

  /** The instruction prompt asking for `userText` reformatted. `formatType`
      defaults to "markdown", is shown verbatim in bold, and selects the Goal
      line from the table; an unknown type puts "undefined" into the Goal line. */
  function FormatPrompt(userText: string, formatType: Value := Undefined): (r: string)
    ensures StartsWith(r, Intro + "- Target format: **" + Render(Default(formatType, Str("markdown"))) + "**\n- Goal: "
                          + Render(Lookup(FormatGuides, Default(formatType, Str("markdown")))) + FixedLines)
    ensures EndsWith(r, TextHeading + userText + Trailer)
  {
    var formatType := Default(formatType, Str("markdown"));
    var head := Intro + "- Target format: **" + Render(formatType) + "**\n- Goal: "
                + Render(Lookup(FormatGuides, formatType)) + FixedLines;
    var section := TextHeading + userText + Trailer;
    StartsWithExtend(head, head, section);
    EndsWithConcat(head, section);
    head + section
  }

  /** Leaving `formatType` out is the same as asking for "markdown". */
  lemma FormatTypeDefault(userText: string)
    ensures FormatPrompt(userText) == FormatPrompt(userText, Str("markdown"))
  {
    assert Default(Undefined, Str("markdown")) == Default(Str("markdown"), Str("markdown"));
  }
}
