/** The `simplify` prompt template. */
module SimplifyTool {
  import opened JsValues
  import opened Text

  const AudienceMap: map<string, string> := map[
    "general public" := "average adult reader (8th-10th grade level)",
    "children" := "children aged 8–12",
    "teenagers" := "teenagers aged 13–17",
    "beginners" := "beginners with no prior knowledge",
    "non-technical" := "non-technical readers"
  ]

  const Intro: string := "\nPlease simplify the following text:\n\n## Simplification Requirements:\n"
  const FixedLines: string :=
    "\n- Use simple, everyday language.\n"
    + "- Replace jargon with clear explanations.\n"
    + "- Short sentences, clear structure.\n"
    + "- Maintain factual accuracy.\n"
  const TextHeading: string := "\n## Original Text:\n"
  const Trailer: string := "\n\n## Simplified Version:\n"

  /** The audience phrase: the table's phrase for a known audience, otherwise
      the audience itself (`audienceMap[a] || a`). */
  function AudiencePhrase(targetAudience: Value): (p: string)
    ensures Render(targetAudience) in AudienceMap ==> p == AudienceMap[Render(targetAudience)]
    ensures Render(targetAudience) !in AudienceMap ==> p == Render(targetAudience)
  {
    LookupTruthy(AudienceMap, targetAudience);
    Render(Or(Lookup(AudienceMap, targetAudience), targetAudience))
  }

  /** The instruction prompt asking for `userText` simplified for an audience
      that defaults to "general public"; the four fixed guideline lines follow
      the audience line. */
  function SimplifyPrompt(userText: string, targetAudience: Value := Undefined): (r: string)
    ensures StartsWith(r, Intro + "- Target audience: " + AudiencePhrase(Default(targetAudience, Str("general public"))) + FixedLines)
    ensures EndsWith(r, TextHeading + userText + Trailer)
  {
    var targetAudience := Default(targetAudience, Str("general public"));
    var head := Intro + "- Target audience: " + AudiencePhrase(targetAudience) + FixedLines;
    var section := TextHeading + userText + Trailer;
    StartsWithExtend(head, head, section);
    EndsWithConcat(head, section);
    head + section
  }

  /** Leaving `targetAudience` out is the same as asking for "general public". */
  lemma TargetAudienceDefault(userText: string)
    ensures SimplifyPrompt(userText) == SimplifyPrompt(userText, Str("general public"))
  {
    assert Default(Undefined, Str("general public")) == Default(Str("general public"), Str("general public"));
  }
}
