/** The `POST` handler of app/api/brainstorm-local/route.ts: validate the
    message, then the API key, then build the mentor prompt (system
    header, history, the new message) and return the model's reply. The
    request body is already decoded (`Err` when `request.json()` throws);
    the environment's key and the model call are parameters. */
module BrainstormLocal {
  import opened Wrappers
  import opened Text
  import opened JsValues
  import opened Conversation
  import opened Gemini

  datatype Request = Request(ideaTitle: Option<string>, ideaDescription: Option<string>,
                             message: Option<string>, conversationHistory: Option<seq<Message>>)

  datatype Body = ErrorBody(error: string) | ReplyBody(response: string, success: bool)
  datatype Response = Response(status: nat, body: Body)

  const MessageRequired := "メッセージは必須です"
  const MissingApiKey := "Gemini APIキーが設定されていません"
  const GenericError := "エラーが発生しました"
  /** Closes the system header: a rule between blank lines. */
  const HeaderRule := "\n\n---\n\n"

  /** The system header, with the unvalidated title and description
      printed as template-literal values. */
  function Header(req: Request): string {
    SystemPrompt(Interpolate(req.ideaTitle), Interpolate(req.ideaDescription)) + HeaderRule
  }

  function History(req: Request): seq<Message> {
    req.conversationHistory.GetOr([])
  }

  /** The latest message as a student turn, then the mentor's cue. */
  function Turn(message: string): string {
    StudentLabel + ": " + message + "\n" + MentorLabel + ": "
  }

  lemma TurnIsStudentLine(message: string)
    ensures Turn(message) == (Line(Message("user", message)) + "\n") + (MentorLabel + ": ")
  {
  }

  /** The prompt sent to the model for a request whose message is set: the
      header ending in its rule, the history with the new message appended
      as a student turn, then the mentor's cue, which the prompt always
      ends with, right after the student's message. */
  function LocalPrompt(req: Request): (r: string)
    requires Truthy(req.message)
    ensures r == Header(req) + Transcript(History(req) + [Message("user", req.message.value)]) + (MentorLabel + ": ")
    ensures var turn := Turn(req.message.value); |turn| <= |r| && r[|r| - |turn|..] == turn
  {
    var head := Header(req) + Transcript(History(req));
    var turn := Turn(req.message.value);
    AppendTurn(Header(req), History(req), req.message.value);
    assert (head + turn)[|head|..] == turn;
    head + turn
  }

  /** The new message as a student turn appended to the history. */
  lemma AppendTurn(header: string, history: seq<Message>, message: string)
    ensures header + Transcript(history) + Turn(message)
         == header + Transcript(history + [Message("user", message)]) + (MentorLabel + ": ")
  {
    var m := Message("user", message);
    TranscriptAppend(history, [m]);
    TranscriptOne(m);
    TurnIsStudentLine(message);
    Regroup(header + Transcript(history), Line(m) + "\n", MentorLabel + ": ");
  }

  /** `POST`. The checks run in order: an unreadable body, a missing
      message (400), a missing key (500); only then is the model called,
      with the prompt above. The title and description are not checked. */
  method Post(body: Result<Request, string>, apiKey: Option<string>,
              generate: string -> Result<string, string>)
    returns (resp: Response)
    ensures body.Err? ==> resp == Response(500, ErrorBody(MessageOr(body.error, GenericError)))
    ensures body.Ok? && !Truthy(body.value.message) ==> resp == Response(400, ErrorBody(MessageRequired))
    ensures body.Ok? && Truthy(body.value.message) && !Truthy(apiKey) ==>
              resp == Response(500, ErrorBody(MissingApiKey))
    ensures body.Ok? && Truthy(body.value.message) && Truthy(apiKey) ==>
              var reply := generate(LocalPrompt(body.value));
              resp == if reply.Ok? then Response(200, ReplyBody(reply.value, true))
                      else Response(500, ErrorBody(MessageOr(reply.error, GenericError)))
    ensures resp.status == 400 <==> body.Ok? && !Truthy(body.value.message)
    ensures resp.status == 200 ==> resp.body.ReplyBody? && resp.body.success
    ensures resp.status == 200 || resp.status == 400 || resp.status == 500
  {
    if body.Err? {
      return Response(500, ErrorBody(MessageOr(body.error, GenericError)));
    }
    var req := body.value;
    if !Truthy(req.message) {
      return Response(400, ErrorBody(MessageRequired));
    }
    if !Truthy(apiKey) {
      return Response(500, ErrorBody(MissingApiKey));
    }
    var prompt := BuildPrompt(req);
    var reply := generate(prompt);
    if reply.Err? {
      return Response(500, ErrorBody(MessageOr(reply.error, GenericError)));
    }
    resp := Response(200, ReplyBody(reply.value, true));
  }

  /** `let prompt = ...`, grown by `+=` over the history when there is
      one, then by the new turn. */
  method BuildPrompt(req: Request) returns (prompt: string)
    requires Truthy(req.message)
    ensures prompt == LocalPrompt(req)
  {
    prompt := Header(req);
    if req.conversationHistory.Some? && |req.conversationHistory.value| > 0 {
      prompt := AppendTranscript(prompt, req.conversationHistory.value);
    }
    assert prompt == Header(req) + Transcript(History(req));
    prompt := prompt + Turn(req.message.value);
  }
}
