/** The session's conversation buffer and one turn of the chat loop. */
module Chat {
  import opened Wrappers
  import opened Messages
  import opened Endpoint
  import opened Completion
  import opened Transcripts

  /** What one submission did, with the request it sent when it sent one. */
  datatype TurnOutcome =
    | NoPrompt                                          // nothing typed: no turn
    | ConfigError                                       // base URL or access key unset
    | Failed(request: Request, failure: Failure)        // an exception was caught
    | Answered(request: Request, answer: string)        // an answer was recorded

  /**
   * Every record is a question or an answer, and every answer directly
   * follows a question.
   */
  predicate Turns(ms: seq<Message>) {
    forall i | 0 <= i < |ms| ::
      ms[i].role == UserRole || (ms[i].role == AssistantRole && 0 < i && ms[i - 1].role == UserRole)
  }

  /** The per-session state: the ordered list of message records. */
  class Session {
    var messages: seq<Message>

    /** A new session starts with an empty buffer. */
    constructor ()
      ensures messages == []
    {
      messages := [];
    }

    /** "Clear Chat": the buffer is empty, whatever it held. */
    method Clear()
      modifies this
      ensures messages == []
    {
      messages := [];
    }

    /** The buffer grows only at its end; earlier records stay as they were. */
    method Append(m: Message)
      modifies this
      ensures messages == old(messages) + [m]
    {
      messages := messages + [m];
    }

    /** The text export of the current buffer. */
    function TextExport(): (t: string)
      reads this
      ensures t == "" <==> messages == []
    {
      Transcript(messages)
    }

    /**
     * One turn. The question is recorded first; with the configuration
     * set, the whole history (the question included) is posted with
     * `post`, and the answer is recorded only when no step raised.
     */
    method Submit(prompt: string, askedAt: string,
                  baseUrl: Option<string>, accessKey: Option<string>,
                  post: Request -> HttpReply, answeredAt: string)
      returns (outcome: TurnOutcome)
      modifies this
      ensures var question := Message(UserRole, prompt, Some(askedAt));
        && (outcome.NoPrompt? <==> prompt == "")
        && (outcome.NoPrompt? ==> messages == old(messages))
        && (outcome.ConfigError? <==> prompt != "" && !(IsSet(baseUrl) && IsSet(accessKey)))
        && (outcome.ConfigError? ==> messages == old(messages) + [question])
        && (outcome.Failed? || outcome.Answered? ==>
              && IsSet(baseUrl) && IsSet(accessKey)
              && outcome.request == BuildRequest(baseUrl.value, accessKey.value, old(messages) + [question]))
        && (outcome.Failed? ==>
              && ReadReply(post(outcome.request)) == Err(outcome.failure)
              && messages == old(messages) + [question])
        && (outcome.Answered? ==>
              && ReadReply(post(outcome.request)) == Ok(outcome.answer)
              && messages == old(messages) + [question, Message(AssistantRole, outcome.answer, Some(answeredAt))])
      ensures Turns(old(messages)) ==> Turns(messages)
    {
      if prompt == "" {
        return NoPrompt;
      }
      var question := Message(UserRole, prompt, Some(askedAt));
      Append(question);
      if !IsSet(baseUrl) || !IsSet(accessKey) {
        return ConfigError;
      }
      var request := BuildRequest(baseUrl.value, accessKey.value, messages);
      var reply := ReadReply(post(request));
      match reply
      case Err(failure) =>
        outcome := Failed(request, failure);
      case Ok(answer) =>
        Append(Message(AssistantRole, answer, Some(answeredAt)));
        outcome := Answered(request, answer);
    }
  }

  /**
   * A whole session from an empty buffer: an answered question, a
   * question the endpoint fails on (HTTP 500) and one asked without a
   * base URL. The buffer keeps the three questions and the one answer,
   * in order.
   */
  method ExampleSession()
  {
    var s := new Session();
    var ok := (req: Request) =>
      Received(200, Some(Response(Some([Choice(Some(ChoiceMessage(Some("15 days."))))]))));
    var o1 := s.Submit("PTO?", "t1", Some("https://agent.example/"), Some("key"), ok, "t2");
    assert o1.Answered? && o1.answer == "15 days.";
    var q := Message(UserRole, "PTO?", Some("t1"));
    var a := Message(AssistantRole, "15 days.", Some("t2"));
    assert s.messages == [q, a];

    var down := (req: Request) => Received(500, None);
    var o2 := s.Submit("Sick?", "t3", Some("https://agent.example"), Some("key"), down, "t4");
    assert o2 == Failed(o2.request, HttpStatus(500));
    assert |s.messages| == 3 && s.messages[..2] == [q, a];

    var o3 := s.Submit("Hi", "t5", Some(""), Some("key"), ok, "t6");
    assert o3 == ConfigError;
    assert |s.messages| == 4;

    s.Clear();
    assert s.TextExport() == "";
  }
}
