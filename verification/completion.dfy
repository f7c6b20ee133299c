/**
 * `get_completion`: one chat-completion request and the shaping of its
 * outcome. The network call itself is not modelled; its outcome is a
 * parameter: either the client library returned a response, or it raised
 * an exception carrying a message.
 */
module Completion {
  import opened Wrappers
  import opened Presets
  import opened Messages

  /** The incremental part of one streamed chunk (`chunk.choices[0].delta`). */
  datatype Delta = Delta(content: Option<string>)

  /** One item of a stream; `None` is the error signal that ends consumption. */
  type Chunk = Option<Delta>

  /** What the client library returns: the first choice's message content
      when not streaming, the stream of chunks when streaming. */
  datatype Response = Message(content: string) | ChunkStream(chunks: seq<Chunk>)

  /** The outcome of the network call. */
  datatype CallOutcome = Returned(response: Response) | Raised(error: string)

  /** The arguments of one call. */
  datatype Request = Request(messages: seq<Turn>, model: string, sampling: Sampling, stream: bool)

  /** What `get_completion` hands back: a text, a stream, or nothing. */
  datatype Reply = TextReply(text: string) | StreamReply(chunks: seq<Chunk>) | NoReply

  const ErrorPrefix: string := "An error occurred: "

  /** The client library returns a stream exactly when one was asked for. */
  predicate Delivers(stream: bool, outcome: CallOutcome) {
    outcome.Returned? ==> (outcome.response.ChunkStream? <==> stream)
  }

  /** Shapes the call's outcome: success yields the content or the stream;
      a failure yields an error text when not streaming and nothing when
      streaming. */
  function GetCompletion(request: Request, outcome: CallOutcome): (r: Reply)
    requires Delivers(request.stream, outcome)
    ensures r.TextReply? <==> !request.stream
    ensures r.NoReply? <==> request.stream && outcome.Raised?
    ensures r.StreamReply? ==> outcome == Returned(ChunkStream(r.chunks))
    ensures r.TextReply? && outcome.Returned? ==> r.text == outcome.response.content
    ensures r.TextReply? && outcome.Raised? ==> r.text == ErrorPrefix + outcome.error
  {
    match outcome
    case Returned(response) =>
      if !request.stream then TextReply(response.content) else StreamReply(response.chunks)
    case Raised(error) =>
      if request.stream then NoReply else TextReply(ErrorPrefix + error)
  }

  /** Without streaming a failure cannot be told apart from a model answer
      that happens to read like the error text. */
  lemma FailureLooksLikeAnswer(request: Request, error: string)
    requires !request.stream
    ensures GetCompletion(request, Raised(error)) == GetCompletion(request, Returned(Message(ErrorPrefix + error)))
  {
  }

  /** In streaming mode the reply alone tells a failure from a success. */
  lemma StreamFailureIsSignalled(request: Request, o1: CallOutcome, o2: CallOutcome)
    requires request.stream && Delivers(true, o1) && Delivers(true, o2)
    requires GetCompletion(request, o1) == GetCompletion(request, o2)
    ensures o1.Raised? <==> o2.Raised?
  {
  }
}
