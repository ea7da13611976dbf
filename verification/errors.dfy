/** The ways one call of the decision step can fail. In the program these are
    Python exceptions that propagate out of `decide`; here they are values. */
module Errors {

  datatype Error =
      /** The chat-completion call itself raised. */
    | CompletionFailed
      /** `json.loads` rejected a tool call's argument string. */
    | ArgumentsNotJson(arguments: string)
      /** The tool name is not a key of the registry (a `KeyError`). */
    | UnknownTool(name: string)
      /** `tool(**args)` raised a `TypeError`: the decoded arguments are not a
          mapping, or their keys are not exactly the call's keyword parameters. */
    | BadKeywordArguments(tool: string)
      /** The search client's enrichment request raised. */
    | SearchFailed(tool: string)
}
