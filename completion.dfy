/** The reply of the completion endpoint and how the answer is read from it. */
module Completion {
  import opened Wrappers

  /** Answer recorded when the reply holds no content. */
  const NoAnswer: string := "No answer returned."

  /** `choices[0]["message"]`: an object whose `content` key may be absent. */
  datatype ChoiceMessage = ChoiceMessage(content: Option<string>)

  /** One element of `choices`: an object whose `message` key may be absent. */
  datatype Choice = Choice(message: Option<ChoiceMessage>)

  /** The decoded JSON body: an object whose `choices` key may be absent. */
  datatype Response = Response(choices: Option<seq<Choice>>)

  /**
   * What `requests.post` gives back: a transport failure (it raised), or
   * a status code with a body that did or did not decode as JSON.
   */
  datatype HttpReply =
    | TransportFailure(reason: string)
    | Received(status: int, body: Option<Response>)

  /** The exceptions a turn can raise after the request is built. */
  datatype Failure =
    | Transport(reason: string)   // requests.post raised
    | HttpStatus(status: int)     // raise_for_status raised
    | InvalidJson                 // res.json() raised
    | NoFirstChoice               // `choices` present but empty: [0] raised

  /** `raise_for_status` raises for client (4xx) and server (5xx) errors only. */
  predicate IsErrorStatus(status: int)
    ensures IsErrorStatus(status) <==> status / 100 == 4 || status / 100 == 5
  {
    400 <= status < 600
  }

  /**
   * `data.get("choices", [{}])[0].get("message", {}).get("content", "No answer returned.")`.
   * A missing key at any level gives the fallback answer; an empty
   * `choices` list is not defaulted and the indexing raises.
   */
  function ExtractAnswer(data: Response): (r: Result<string, Failure>)
    ensures r.Err? <==> data.choices == Some([])
    ensures r.Err? ==> r.error == NoFirstChoice
    ensures data.choices.None? ==> r == Ok(NoAnswer)
    ensures data.choices.Some? && data.choices.value != [] ==>
      var first := data.choices.value[0];
      && (first.message.None? ==> r == Ok(NoAnswer))
      && (first.message.Some? && first.message.value.content.None? ==> r == Ok(NoAnswer))
      && (first.message.Some? && first.message.value.content.Some? ==>
            r == Ok(first.message.value.content.value))
  {
    var choices := data.choices.GetOr([Choice(None)]);
    if |choices| == 0 then
      Err(NoFirstChoice)
    else
      Ok(choices[0].message.GetOr(ChoiceMessage(None)).content.GetOr(NoAnswer))
  }

  /** Only the first choice is read: the rest of the list never matters. */
  lemma ExtractAnswerReadsFirstChoice(first: Choice, rest1: seq<Choice>, rest2: seq<Choice>)
    ensures ExtractAnswer(Response(Some([first] + rest1))) == ExtractAnswer(Response(Some([first] + rest2)))
  {
  }

  /**
   * `requests.post`, `raise_for_status`, `res.json()` and the extraction,
   * in that order: the turn yields an answer exactly when the transport
   * succeeded, the status is not an error, the body is JSON and it has
   * a first choice (or no `choices` key at all).
   */
  function ReadReply(reply: HttpReply): (r: Result<string, Failure>)
    ensures r.Ok? <==>
      && reply.Received?
      && !IsErrorStatus(reply.status)
      && reply.body.Some?
      && reply.body.value.choices != Some([])
    ensures reply.Received? && !IsErrorStatus(reply.status) && reply.body.Some? ==>
      r == ExtractAnswer(reply.body.value)
    ensures reply.TransportFailure? ==> r == Err(Transport(reply.reason))
    ensures reply.Received? && IsErrorStatus(reply.status) ==> r == Err(HttpStatus(reply.status))
    ensures reply.Received? && !IsErrorStatus(reply.status) && reply.body.None? ==> r == Err(InvalidJson)
  {
    match reply
    case TransportFailure(reason) => Err(Transport(reason))
    case Received(status, body) =>
      if IsErrorStatus(status) then Err(HttpStatus(status))
      else if body.None? then Err(InvalidJson)
      else ExtractAnswer(body.value)
  }
}
