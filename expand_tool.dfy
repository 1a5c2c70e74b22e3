/** The `expand` prompt template. */
module ExpandTool {
  import opened JsValues
  import opened Text
  import opened ToolOptions

  const Intro: string := "\nPlease expand and elaborate on the following text:\n\n## Expansion Guidelines:\n"
  const ExamplesLine: string := "- Add examples or illustrations."
  const BackgroundLine: string := "- Provide additional background or explanations."
  const FixedLines: string := "\n- Maintain tone and relevance.\n- Keep the structure cohesive.\n"
  const TextHeading: string := "\n## Original Text:\n"
  const Trailer: string := "\n\n## Expanded Version:\n"

  /** The instruction prompt asking for `userText` expanded. `targetLength`
      defaults to "double"; `addExamples` and `addContext` default to true and
      each controls one line, which is left empty when the flag is falsy. */
  function ExpandPrompt(userText: string, options: Options): (r: string)
    ensures StartsWith(r, Intro + "- Target length: " + Render(Default(options.targetLength, Str("double"))) + " the original\n"
                          + (if Truthy(Default(options.addExamples, Bool(true))) then ExamplesLine else "") + "\n"
                          + (if Truthy(Default(options.addContext, Bool(true))) then BackgroundLine else "") + FixedLines)
    ensures EndsWith(r, TextHeading + userText + Trailer)
  {
    var addExamples := Default(options.addExamples, Bool(true));
    var addContext := Default(options.addContext, Bool(true));
    var targetLength := Default(options.targetLength, Str("double"));
    var head := Intro + "- Target length: " + Render(targetLength) + " the original\n"
                + (if Truthy(addExamples) then ExamplesLine else "") + "\n"
                + (if Truthy(addContext) then BackgroundLine else "") + FixedLines;
    var section := TextHeading + userText + Trailer;
    StartsWithExtend(head, head, section);
    EndsWithConcat(head, section);
    head + section
  }
}
