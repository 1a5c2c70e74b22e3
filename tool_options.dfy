/** The flat options bag a request carries into the tools: one field per option
    name any tool reads, `Undefined` when the key is absent. */
module ToolOptions {
  import opened JsValues

  datatype Options = Options(
    tool: Value,
    tone: Option<string>,
    preserveLength: Value,
    audience: Value,
    intensity: Value,
    length: Value,
    style: Value,
    focus: Value,
    formatType: Value,
    addExamples: Value,
    addContext: Value,
    targetLength: Value,
    targetAudience: Value)

  /** The empty object `{}`. */
  const NoOptions: Options :=
    Options(Undefined, None, Undefined, Undefined, Undefined, Undefined, Undefined,
            Undefined, Undefined, Undefined, Undefined, Undefined, Undefined)
}
