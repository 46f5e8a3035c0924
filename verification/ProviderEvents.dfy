/** What a provider's stream hands to the engine. */
module ProviderEvents {
  import opened Prelude

  datatype StopReason = EndTurn | MaxTokens | ToolUse | StopError

  datatype ProviderEvent =
    | TextDelta(text: string)
    | ThinkingDelta(text: string)
    | ThinkingBlock(text: string, signature: string)
    | RedactedThinking(data: string)
    | ToolCallEvent(id: string, name: string, args: Json)
    | Done(stop: StopReason, inputTokens: Option<int>, outputTokens: Option<int>)

  /** JSON decoding of argument text; None when it does not decode. */
  type Decoder = string -> Option<Json>

  const EMPTY_OBJECT: Json := "{}"

  /** Empty and undecodable argument texts both give the empty object. */
  function ParsedArgs(raw: string, loads: Decoder): Json {
    if raw == "" then EMPTY_OBJECT
    else if loads(raw).Some? then loads(raw).value
    else EMPTY_OBJECT
  }

  predicate NoDone(events: seq<ProviderEvent>) {
    forall k :: 0 <= k < |events| ==> !events[k].Done?
  }
}
