/** The fragments of the Gemini SDK's wire types that the adapter reads and writes. Every field of the
    SDK's records is optional; an absent field is `None`. */
module GeminiTypes {
  import opened Wrappers
  import opened Json

  datatype Blob = Blob(mimeType: Option<string>, data: Option<string>)

  datatype FileData = FileData(mimeType: Option<string>, fileUri: Option<string>)

  datatype FunctionCall = FunctionCall(id: Option<string>, name: Option<string>, args: Option<Json>)

  datatype FunctionResponse = FunctionResponse(name: Option<string>, response: Json)

  /** A Gemini `Part`. Several fields may be present at once; readers test them in a fixed order.
      `thought` is the optional flag, `false` when absent. */
  datatype Part = Part(
    text: Option<string>,
    thought: bool,
    thoughtSignature: Option<string>,
    inlineData: Option<Blob>,
    fileData: Option<FileData>,
    functionCall: Option<FunctionCall>,
    functionResponse: Option<FunctionResponse>)

  /** A part with no field set. */
  const NoPart: Part := Part(None, false, None, None, None, None, None)

  datatype Content = Content(role: Option<string>, parts: Option<seq<Part>>)

  datatype Candidate = Candidate(content: Option<Content>, finishReason: Option<string>)

  datatype UsageMetadata = UsageMetadata(promptTokenCount: Option<int>, candidatesTokenCount: Option<int>,
                                         totalTokenCount: Option<int>)

  /** A `GenerateContentResponse`, one chunk of a stream or a whole reply. An absent `candidates`
      array is the empty one: only its first element is ever read. */
  datatype Response = Response(responseId: Option<string>, candidates: seq<Candidate>,
                               usageMetadata: Option<UsageMetadata>)

  /** `response.candidates?.[0]?.content?.parts || []` */
  function FirstCandidateParts(r: Response): (parts: seq<Part>)
    ensures r.candidates == [] ==> parts == []
    ensures r.candidates != [] && r.candidates[0].content.Some? && r.candidates[0].content.value.parts.Some? ==>
              parts == r.candidates[0].content.value.parts.value
    ensures r.candidates != [] && (r.candidates[0].content.None? || r.candidates[0].content.value.parts.None?) ==>
              parts == []
  {
    if r.candidates == [] then []
    else match r.candidates[0].content
      case None => []
      case Some(c) => c.parts.GetOr([])
  }

  /** `response.candidates?.[0]?.finishReason` */
  function FirstFinishReason(r: Response): Option<string> {
    if r.candidates == [] then None else r.candidates[0].finishReason
  }

  /** A Gemini `FunctionDeclaration`. */
  datatype FunctionDeclaration = FunctionDeclaration(name: string, description: string, parameters: Json)

  /** A Gemini `Tool` holding function declarations. */
  datatype Tool = Tool(functionDeclarations: seq<FunctionDeclaration>)
}
