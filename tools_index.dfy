/** The tool dispatcher: an exact, case-sensitive match of the tool name against
    the six registered tools, each called with its own option defaults; any
    other name leaves the text unchanged. */
module Tools {
  import opened JsValues
  import opened Text
  import opened ToolOptions
  import ContextTool
  import SummarizeTool
  import ToneTool
  import FormatTool
  import ExpandTool
  import SimplifyTool

  datatype Tool = Context | Summarize | Tone | Format | Expand | Simplify

  function ToolName(t: Tool): string {
    match t
    case Context => "context"
    case Summarize => "summarize"
    case Tone => "tone"
    case Format => "format"
    case Expand => "expand"
    case Simplify => "simplify"
  }

  /** The registered tool whose name is exactly `name` (a strict-equality
      `switch`: only a string equal to a registered name matches). */
  function ParseTool(name: Value): (r: Option<Tool>)
    ensures r.Some? ==> name == Str(ToolName(r.value))
    ensures r.None? ==> forall t: Tool :: name != Str(ToolName(t))
  {
    if name == Str("context") then Some(Context)
    else if name == Str("summarize") then Some(Summarize)
    else if name == Str("tone") then Some(Tone)
    else if name == Str("format") then Some(Format)
    else if name == Str("expand") then Some(Expand)
    else if name == Str("simplify") then Some(Simplify)
    else None
  }

  /** Every registered tool is found under its own name, and only under it. */
  lemma ParseToolName(t: Tool, name: Value)
    ensures ParseTool(Str(ToolName(t))) == Some(t)
    ensures ParseTool(name) == Some(t) <==> name == Str(ToolName(t))
  {
  }

  /** `options.tone || "friendly"`. */
  function ToneOrFriendly(tone: Option<string>): (t: string)
    ensures t != ""
    ensures tone.Some? && tone.value != "" ==> t == tone.value
  {
    match tone
    case Some(s) => if s == "" then "friendly" else s
    case None => "friendly"
  }

  /** The prompt a tool makes of `userText`, or `userText` itself when the name is
      not a registered tool. Every registered tool returns a longer string
      containing `userText`. */
  function ApplyTool(persona: ContextTool.Persona, toolName: Value, userText: string, options: Options := NoOptions): (r: string)
    reads persona
    ensures r == userText <==> ParseTool(toolName).None?
    ensures ParseTool(toolName).Some? ==> |r| > |userText|
    ensures Occurs(userText, r)
  {
    match ParseTool(toolName)
    case None =>
      StartsWithOccurs(userText, userText);
      userText
    case Some(tool) =>
      var r := Dispatch(persona, tool, userText, options);
      DispatchContainsText(persona, tool, userText, options);
      r
  }

  /** The call the `switch` makes for a registered tool. */
  function Dispatch(persona: ContextTool.Persona, tool: Tool, userText: string, options: Options): string
    reads persona
  {
    match tool
    case Context => persona.InjectContext(userText)
    case Summarize => SummarizeTool.SummarizePrompt(userText, options)
    case Tone => ToneTool.TonePrompt(userText, Some(ToneOrFriendly(options.tone)), options)
    case Format => FormatTool.FormatPrompt(userText, Or(options.formatType, Str("markdown")))
    case Expand => ExpandTool.ExpandPrompt(userText, options)
    case Simplify => SimplifyTool.SimplifyPrompt(userText, Or(options.targetAudience, Str("general public")))
  }

  /** The text `userText` sits between a non-empty heading and a trailer. */
  lemma FramedText(r: string, heading: string, userText: string, trailer: string)
    requires heading != [] && EndsWith(r, heading + userText + trailer)
    ensures |r| > |userText| && Occurs(userText, r)
  {
    EndsWithOccurs(r, heading + userText + trailer);
    OccursMid(heading, userText, trailer);
    OccursTrans(userText, heading + userText + trailer, r);
  }

  lemma DispatchContainsText(persona: ContextTool.Persona, tool: Tool, userText: string, options: Options)
    ensures |Dispatch(persona, tool, userText, options)| > |userText|
    ensures Occurs(userText, Dispatch(persona, tool, userText, options))
  {
    match tool
    case Context => FramedText(persona.InjectContext(userText), ContextTool.QueryHeading, userText, ContextTool.Trailer);
    case Summarize => SummarizeContainsText(userText, options);
    case Tone => ToneContainsText(userText, options);
    case Format => FormatContainsText(userText, options);
    case Expand => ExpandContainsText(userText, options);
    case Simplify => SimplifyContainsText(userText, options);
  }

  lemma SummarizeContainsText(userText: string, options: Options)
    ensures var r := SummarizeTool.SummarizePrompt(userText, options); |r| > |userText| && Occurs(userText, r)
  {
    FramedText(SummarizeTool.SummarizePrompt(userText, options), SummarizeTool.TextHeading, userText, SummarizeTool.Trailer);
  }

  lemma ToneContainsText(userText: string, options: Options)
    ensures var r := ToneTool.TonePrompt(userText, Some(ToneOrFriendly(options.tone)), options); |r| > |userText| && Occurs(userText, r)
  {
    var t := ToneTool.EffectiveTone(Some(ToneOrFriendly(options.tone)));
    FramedText(ToneTool.TonePrompt(userText, Some(ToneOrFriendly(options.tone)), options), ToneTool.MessageHeading, userText,
               ToneTool.RewrittenHeading(t));
  }

  lemma FormatContainsText(userText: string, options: Options)
    ensures var r := FormatTool.FormatPrompt(userText, Or(options.formatType, Str("markdown"))); |r| > |userText| && Occurs(userText, r)
  {
    FramedText(FormatTool.FormatPrompt(userText, Or(options.formatType, Str("markdown"))), FormatTool.TextHeading, userText, FormatTool.Trailer);
  }

  lemma ExpandContainsText(userText: string, options: Options)
    ensures var r := ExpandTool.ExpandPrompt(userText, options); |r| > |userText| && Occurs(userText, r)
  {
    FramedText(ExpandTool.ExpandPrompt(userText, options), ExpandTool.TextHeading, userText, ExpandTool.Trailer);
  }

  lemma SimplifyContainsText(userText: string, options: Options)
    ensures var r := SimplifyTool.SimplifyPrompt(userText, Or(options.targetAudience, Str("general public"))); |r| > |userText| && Occurs(userText, r)
  {
    FramedText(SimplifyTool.SimplifyPrompt(userText, Or(options.targetAudience, Str("general public"))), SimplifyTool.TextHeading, userText, SimplifyTool.Trailer);
  }

  /** The `context` tool ignores the options bag. */
  lemma ContextIgnoresOptions(persona: ContextTool.Persona, userText: string, options: Options, other: Options)
    ensures ApplyTool(persona, Str("context"), userText, options) == persona.InjectContext(userText)
    ensures ApplyTool(persona, Str("context"), userText, options) == ApplyTool(persona, Str("context"), userText, other)
  {
  }

  /** A registered name runs that tool's call. */
  lemma DispatchByName(persona: ContextTool.Persona, tool: Tool, userText: string, options: Options)
    ensures ApplyTool(persona, Str(ToolName(tool)), userText, options) == Dispatch(persona, tool, userText, options)
  {
    ParseToolName(tool, Str(ToolName(tool)));
  }

  /** A falsy `tone` option selects "friendly"; a non-empty one is passed on
      unchanged, together with the whole options bag. */
  lemma ToneOptionDefault(persona: ContextTool.Persona, userText: string, options: Options)
    ensures (options.tone.None? || options.tone == Some("")) ==>
              ApplyTool(persona, Str("tone"), userText, options) == ToneTool.TonePrompt(userText, Some("friendly"), options)
    ensures options.tone.Some? && options.tone.value != "" ==>
              ApplyTool(persona, Str("tone"), userText, options) == ToneTool.TonePrompt(userText, options.tone, options)
  {
    DispatchByName(persona, Tone, userText, options);
  }

  /** A falsy `formatType` gives the same prompt as leaving it out ("markdown");
      a truthy one is passed on unchanged. */
  lemma FormatOptionDefault(persona: ContextTool.Persona, userText: string, options: Options)
    ensures !Truthy(options.formatType) ==>
              ApplyTool(persona, Str("format"), userText, options) == FormatTool.FormatPrompt(userText)
    ensures Truthy(options.formatType) ==>
              ApplyTool(persona, Str("format"), userText, options) == FormatTool.FormatPrompt(userText, options.formatType)
  {
    DispatchByName(persona, Format, userText, options);
    DefaultVersusOr(options.formatType, Str("markdown"));
    FormatTool.FormatTypeDefault(userText);
  }

  /** A falsy `targetAudience` gives the same prompt as leaving it out ("general
      public"); a truthy one is passed on unchanged. */
  lemma SimplifyOptionDefault(persona: ContextTool.Persona, userText: string, options: Options)
    ensures !Truthy(options.targetAudience) ==>
              ApplyTool(persona, Str("simplify"), userText, options) == SimplifyTool.SimplifyPrompt(userText)
    ensures Truthy(options.targetAudience) ==>
              ApplyTool(persona, Str("simplify"), userText, options) == SimplifyTool.SimplifyPrompt(userText, options.targetAudience)
  {
    DispatchByName(persona, Simplify, userText, options);
    DefaultVersusOr(options.targetAudience, Str("general public"));
    SimplifyTool.TargetAudienceDefault(userText);
  }

  /** `summarize` and `expand` receive the whole options bag. */
  lemma OptionsPassedWhole(persona: ContextTool.Persona, userText: string, options: Options)
    ensures ApplyTool(persona, Str("summarize"), userText, options) == SummarizeTool.SummarizePrompt(userText, options)
    ensures ApplyTool(persona, Str("expand"), userText, options) == ExpandTool.ExpandPrompt(userText, options)
  {
  }

  /** Dispatching a non-empty tone the table does not know (after lower-casing)
      asks the model to "match a <tone> tone". */
  lemma UnknownToneDispatch(persona: ContextTool.Persona, userText: string, options: Options, tone: string)
    requires options.tone == Some(tone) && tone != "" && Lower(tone) !in ToneTool.ToneDescriptions
    ensures Occurs("match a " + Lower(tone) + " tone", ApplyTool(persona, Str("tone"), userText, options))
  {
    ToneOptionDefault(persona, userText, options);
    ToneTool.UnknownToneFallback(userText, options.tone, options);
  }
}
