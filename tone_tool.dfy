/** The `tone` prompt template. */
module ToneTool {
  import opened JsValues
  import opened Text
  import opened ToolOptions

  datatype ToneEntry = ToneEntry(description: string, examples: string)

  const ToneDescriptions: map<string, ToneEntry> := map[
    "friendly" := ToneEntry("warm, approachable, and personable", "use welcoming language and positive phrasing"),
    "professional" := ToneEntry("polished, formal, and business-appropriate", "avoid contractions, keep formal tone"),
    "casual" := ToneEntry("relaxed, conversational, and informal", "use everyday language and contractions"),
    "enthusiastic" := ToneEntry("energetic, motivating, and confident", "positive reinforcement and active verbs"),
    "empathetic" := ToneEntry("understanding and compassionate", "acknowledge feelings and show empathy"),
    "confident" := ToneEntry("assertive and decisive", "use strong declarative sentences"),
    "humorous" := ToneEntry("witty and light-hearted", "subtle humor and clever phrasing"),
    "persuasive" := ToneEntry("convincing and influential", "use logic, evidence, and strong calls to action"),
    "diplomatic" := ToneEntry("tactful and balanced", "acknowledge perspectives, stay neutral"),
    "concise" := ToneEntry("brief and efficient", "short sentences, focus on essentials")
  ]

  const AudienceGuides: map<string, string> := map[
    "general" := "suitable for a broad audience",
    "professional" := "appropriate for workplace or business contexts",
    "casual" := "suited for friends or informal settings",
    "technical" := "for specialists or subject-matter experts"
  ]

  const IntensityGuides: map<string, string> := map[
    "subtle" := "Make minimal changes, slight tone shift",
    "moderate" := "Apply a balanced tone adjustment",
    "strong" := "Transform the tone significantly"
  ]

  const Guidelines: string :=
    "\n\n## Guidelines:\n"
    + "- Preserve facts, names, and structure.\n"
    + "- Maintain clarity and flow.\n"
    + "- Avoid clichés or exaggeration.\n"
  const MessageHeading: string := "\n## Original Message:\n"

  /** The closing heading, which names the tone again. */
  function RewrittenHeading(tone: string): string {
    "\n\n## Rewritten Message (in " + tone + " tone):\n"
  }

  /** The table entry for a (lower-cased) tone, or, for a tone the table does not
      know, the tone itself as description and "match a <tone> tone" as examples. */
  function SelectTone(tone: string): ToneEntry {
    if tone in ToneDescriptions then ToneDescriptions[tone]
    else ToneEntry(tone, "match a " + tone + " tone")
  }

  /** The Description and Examples lines of the requirements block. */
  function EntryLines(e: ToneEntry): string {
    "- Description: " + e.description + "\n- Examples: " + e.examples
  }

  /** The tone after the parameter default ("friendly") and lower-casing. */
  function EffectiveTone(tone: Option<string>): string {
    Lower(tone.GetOr("friendly"))
  }

  /** The instruction prompt asking for `userText` rewritten in `tone`. The tone
      is lower-cased before every use; `preserveLength` defaults to true,
      `audience` to "general" and `intensity` to "moderate", and an unknown
      audience or intensity puts "undefined" into its line. */
  function TonePrompt(userText: string, tone: Option<string>, options: Options): (r: string)
    ensures StartsWith(r, "\nPlease rewrite the following message in a " + EffectiveTone(tone) + " tone:\n")
    ensures Occurs("\n## Tone Requirements:\n" + EntryLines(SelectTone(EffectiveTone(tone))) + "\n", r)
    ensures Truthy(Default(options.preserveLength, Bool(true))) ==>
              Occurs("- Intensity: " + Render(Lookup(IntensityGuides, Default(options.intensity, Str("moderate"))))
                     + "\n- Audience: " + Render(Lookup(AudienceGuides, Default(options.audience, Str("general"))))
                     + "\n- Keep similar length", r)
    ensures !Truthy(Default(options.preserveLength, Bool(true))) ==>
              Occurs("- Intensity: " + Render(Lookup(IntensityGuides, Default(options.intensity, Str("moderate"))))
                     + "\n- Audience: " + Render(Lookup(AudienceGuides, Default(options.audience, Str("general"))))
                     + "\n- Length may vary", r)
    ensures Occurs(Guidelines, r)
    ensures EndsWith(r, MessageHeading + userText + RewrittenHeading(EffectiveTone(tone)))
  {
    var tone := EffectiveTone(tone);
    var preserveLength := Default(options.preserveLength, Bool(true));
    var audience := Default(options.audience, Str("general"));
    var intensity := Default(options.intensity, Str("moderate"));
    var selected := SelectTone(tone);
    var top := "\nPlease rewrite the following message in a " + tone + " tone:\n";
    var requirements := "\n## Tone Requirements:\n" + EntryLines(selected) + "\n";
    var levels := "- Intensity: " + Render(Lookup(IntensityGuides, intensity))
                  + "\n- Audience: " + Render(Lookup(AudienceGuides, audience))
                  + (if Truthy(preserveLength) then "\n- Keep similar length" else "\n- Length may vary");
    var section := MessageHeading + userText + RewrittenHeading(tone);
    OccursEnd(top, requirements);
    OccursExtend(requirements, top + requirements, levels);
    OccursExtend(requirements, top + requirements + levels, Guidelines);
    OccursExtend(requirements, top + requirements + levels + Guidelines, section);
    OccursEnd(top + requirements, levels);
    OccursExtend(levels, top + requirements + levels, Guidelines);
    OccursExtend(levels, top + requirements + levels + Guidelines, section);
    OccursEnd(top + requirements + levels, Guidelines);
    OccursExtend(Guidelines, top + requirements + levels + Guidelines, section);
    StartsWithExtend(top + requirements, top, levels);
    StartsWithExtend(top + requirements + levels, top, Guidelines);
    StartsWithExtend(top + requirements + levels + Guidelines, top, section);
    EndsWithConcat(top + requirements + levels + Guidelines, section);
    top + requirements + levels + Guidelines + section
  }

  /** Tones that differ only in letter case give the same prompt. */
  lemma ToneIgnoresCase(userText: string, tone: string, options: Options)
    ensures TonePrompt(userText, Some(Lower(tone)), options) == TonePrompt(userText, Some(tone), options)
  {
    LowerIdempotent(tone);
    assert EffectiveTone(Some(Lower(tone))) == EffectiveTone(Some(tone));
  }

  /** A tone the table knows puts that entry's description and examples into the prompt. */
  lemma KnownToneEntry(userText: string, tone: Option<string>, options: Options)
    requires EffectiveTone(tone) in ToneDescriptions
    ensures var entry := ToneDescriptions[EffectiveTone(tone)];
      Occurs("- Description: " + entry.description + "\n- Examples: " + entry.examples, TonePrompt(userText, tone, options))
  {
    var lines := EntryLines(SelectTone(EffectiveTone(tone)));
    OccursMid("\n## Tone Requirements:\n", lines, "\n");
    OccursTrans(lines, "\n## Tone Requirements:\n" + lines + "\n", TonePrompt(userText, tone, options));
  }

  /** A tone the table does not know is not an error: the prompt uses the tone as
      its description and asks the model to "match a <tone> tone". */
  lemma UnknownToneFallback(userText: string, tone: Option<string>, options: Options)
    requires EffectiveTone(tone) !in ToneDescriptions
    ensures Occurs("- Description: " + EffectiveTone(tone), TonePrompt(userText, tone, options))
    ensures Occurs("match a " + EffectiveTone(tone) + " tone", TonePrompt(userText, tone, options))
  {
    var t := EffectiveTone(tone);
    var r := TonePrompt(userText, tone, options);
    var examples := "match a " + t + " tone";
    var lines := EntryLines(SelectTone(t));
    var block := "\n## Tone Requirements:\n" + lines + "\n";
    OccursMid("\n## Tone Requirements:\n", lines, "\n");
    OccursTrans(lines, block, r);
    OccursEnd("- Description: " + t + "\n- Examples: ", examples);
    OccursTrans(examples, lines, r);
    StartsWithExtend("- Description: " + t, "- Description: " + t, "\n- Examples: ");
    StartsWithExtend("- Description: " + t + "\n- Examples: ", "- Description: " + t, examples);
    StartsWithOccurs(lines, "- Description: " + t);
    OccursTrans("- Description: " + t, lines, r);
  }
}
