/** The `summarize` prompt template. */
module SummarizeTool {
  import opened JsValues
  import opened Text
  import opened ToolOptions

  const LengthGuides: map<string, string> := map[
    "short" := "2-3 sentences",
    "medium" := "4-6 sentences or 100-150 words",
    "long" := "2-3 paragraphs or 200-300 words"
  ]

  const StyleGuides: map<string, string> := map[
    "concise" := "Keep the summary concise and to-the-point, focusing only on essential information.",
    "detailed" := "Provide a comprehensive summary that captures nuances and important details.",
    "bullet-points" := "Format the summary as clear " + "bullet points" + ", each highlighting a key idea."
  ]

  // The fixed fragments of the template, in order.
  const Intro: string := "\nPlease summarize the following text:\n\n## Instructions:\n"
  const FixedLines: string :=
    "- Preserve the main ideas, key facts, and important conclusions\n"
    + "- Maintain factual accuracy without adding interpretations\n"
  const ClearLine: string := "\n- Use clear, accessible language\n"
  const TextHeading: string := "\n## Text to Summarize:\n"
  const Trailer: string := "\n\n## Summary:\n"

  /** The length and style lines, after the introduction. */
  function SummaryHead(length: Value, style: Value): string {
    Intro + "- Length: " + Render(Lookup(LengthGuides, length))
    + "\n- Style: " + Render(Lookup(StyleGuides, style)) + "\n"
  }

  /** The focus line: present only for a truthy focus. */
  function FocusLine(focus: Value): string {
    if Truthy(focus) then "- Focus specifically on: " + Render(focus) else ""
  }

  /** The instruction prompt asking for a summary of `userText`: the length and
      style guides, the fixed instructions, an optional focus line, then the
      text. `length` defaults to "medium", `style` to "concise" and `focus` to
      `null`; an unknown length or style puts "undefined" into its line. */
  function SummarizePrompt(userText: string, options: Options): (r: string)
    ensures StartsWith(r, Intro + "- Length: " + Render(Lookup(LengthGuides, Default(options.length, Str("medium"))))
                          + "\n- Style: " + Render(Lookup(StyleGuides, Default(options.style, Str("concise")))) + "\n")
    ensures Truthy(Default(options.focus, Null)) ==>
              Occurs(FixedLines + ("- Focus specifically on: " + Render(Default(options.focus, Null))) + ClearLine, r)
    ensures !Truthy(Default(options.focus, Null)) ==> Occurs(FixedLines + ClearLine, r)
    ensures EndsWith(r, TextHeading + userText + Trailer)
  {
    var head := SummaryHead(Default(options.length, Str("medium")), Default(options.style, Str("concise")));
    var middle := FixedLines + FocusLine(Default(options.focus, Null)) + ClearLine;
    assert FixedLines + "" == FixedLines;
    var section := TextHeading + userText + Trailer;
    OccursMid(head, middle, section);
    EndsWithConcat(head + middle, section);
    head + middle + section
  }
}

module SummarizeToolLemmas {
  import opened JsValues
  import opened Text
  import opened ToolOptions
  import opened SummarizeTool

  /** The prompt is the prompt for the empty text with `userText` inserted
      verbatim just before the trailer: nothing else depends on the text. */
  lemma SummarizeTextSlot(userText: string, options: Options)
    ensures var frame := SummarizePrompt("", options);
      |Trailer| <= |frame|
      && SummarizePrompt(userText, options) == frame[..|frame| - |Trailer|] + userText + Trailer
  {
    var head := SummaryHead(Default(options.length, Str("medium")), Default(options.style, Str("concise")));
    FillSlot(head + (FixedLines + FocusLine(Default(options.focus, Null)) + ClearLine), TextHeading, userText, Trailer);
  }

  /** The prompt split around the focus slot: the head and fixed lines, the
      focus line, and the rest. */
  lemma FocusSlot(userText: string, options: Options)
    ensures SummarizePrompt(userText, options)
         == (SummaryHead(Default(options.length, Str("medium")), Default(options.style, Str("concise"))) + FixedLines)
            + FocusLine(Default(options.focus, Null))
            + (ClearLine + (TextHeading + userText + Trailer))
  {
    var head := SummaryHead(Default(options.length, Str("medium")), Default(options.style, Str("concise")));
    AssocMiddle(head, FixedLines, FocusLine(Default(options.focus, Null)), ClearLine, TextHeading + userText + Trailer);
  }

  /** A truthy focus adds exactly its line, at the place the empty line takes
      otherwise. */
  lemma SummarizeFocusLine(userText: string, options: Options, focus: string)
    requires focus != ""
    ensures var on := SummarizePrompt(userText, options.(focus := Str(focus)));
      var off := SummarizePrompt(userText, options.(focus := Null));
      exists k :: 0 <= k <= |off| && on == off[..k] + "- Focus specifically on: " + focus + off[k..]
  {
    var a := SummaryHead(Default(options.length, Str("medium")), Default(options.style, Str("concise"))) + FixedLines;
    var b := ClearLine + (TextHeading + userText + Trailer);
    var line := "- Focus specifically on: " + focus;
    assert SummarizePrompt(userText, options.(focus := Str(focus))) == a + line + b by {
      FocusSlot(userText, options.(focus := Str(focus)));
      assert FocusLine(Str(focus)) == line;
    }
    assert SummarizePrompt(userText, options.(focus := Null)) == a + b by {
      FocusSlot(userText, options.(focus := Null));
      DropEmpty(a, FocusLine(Null), b);
    }
    var off := SummarizePrompt(userText, options.(focus := Null));
    assert off[..|a|] == a && off[|a|..] == b;
  }

  /** The "short" length and the "bullet-points" style put "2-3 sentences" and
      "bullet points" into the prompt, together with the text. */
  lemma SummarizeShortBullets(userText: string, options: Options)
    requires options.length == Str("short") && options.style == Str("bullet-points")
    ensures var r := SummarizePrompt(userText, options);
      Occurs("2-3 sentences", r) && Occurs("bullet points", r) && Occurs(userText, r)
  {
    var r := SummarizePrompt(userText, options);
    var lengthGuide := "2-3 sentences";
    var styleGuide := StyleGuides["bullet-points"];
    assert Render(Lookup(LengthGuides, Str("short"))) == lengthGuide;
    assert Render(Lookup(StyleGuides, Str("bullet-points"))) == styleGuide;
    var head := Intro + "- Length: " + lengthGuide + "\n- Style: " + styleGuide + "\n";
    StartsWithOccurs(r, head);
    OccursMid(Intro + "- Length: ", lengthGuide, "\n- Style: ");
    OccursExtend(lengthGuide, Intro + "- Length: " + lengthGuide + "\n- Style: ", styleGuide);
    OccursExtend(lengthGuide, Intro + "- Length: " + lengthGuide + "\n- Style: " + styleGuide, "\n");
    OccursTrans(lengthGuide, head, r);
    OccursMid("Format the summary as clear ", "bullet points", ", each highlighting a key idea.");
    OccursMid(Intro + "- Length: " + lengthGuide + "\n- Style: ", styleGuide, "\n");
    OccursTrans("bullet points", styleGuide, head);
    OccursTrans("bullet points", head, r);
    EndsWithOccurs(r, TextHeading + userText + Trailer);
    OccursMid(TextHeading, userText, Trailer);
    OccursTrans(userText, TextHeading + userText + Trailer, r);
  }
}
