/** The `context` tool: a process-wide system persona that is put in front of
    the user's query, and the setter that replaces it. */
module ContextTool {
  import opened Text

  const DefaultSystemContext: string :=
    "\nYou are a highly knowledgeable and helpful AI assistant with expertise across multiple domains.\n"
    + "\n"
    + "Communication Style:\n"
    + "- Provide clear, accurate, and well-structured responses.\n"
    + "- Use natural, conversational language while maintaining professionalism.\n"
    + "- Break down complex topics into digestible explanations.\n"
    + "- Include relevant examples when helpful.\n"
    + "- Format responses with proper markdown for readability.\n"
    + "\n"
    + "Guidelines:\n"
    + "- Be direct and concise, but thorough when needed.\n"
    + "- Admit uncertainty when you don't know something.\n"
    + "- Ask clarifying questions if the query is ambiguous.\n"
    + "- Prioritize accuracy over speed.\n"
    + "- Use bullet points, numbered lists, or tables when appropriate.\n"

  const QueryHeading: string := "\n\n## User Query:\n"
  const Trailer: string := "\n\n## Your Response:"

  /** The module state holding the current system persona. */
  class Persona {
    var systemContext: string

    /** The state at module load: the built-in persona. */
    constructor()
      ensures systemContext == DefaultSystemContext
    {
      systemContext := DefaultSystemContext;
    }

    /** The prompt made of the current persona, the query heading, the user's
        text and the response heading. */
    function InjectContext(userText: string): (r: string)
      reads this
      ensures StartsWith(r, systemContext)
      ensures EndsWith(r, QueryHeading + userText + Trailer)
      ensures |r| == |systemContext| + |QueryHeading| + |userText| + |Trailer|
    {
      var section := QueryHeading + userText + Trailer;
      StartsWithExtend(systemContext, systemContext, section);
      EndsWithConcat(systemContext, section);
      systemContext + section
    }

    /** Replaces the persona wholesale. */
    method SetSystemContext(newContext: string)
      modifies this
      ensures systemContext == newContext
    {
      systemContext := newContext;
    }
  }
}
