/** The `POST` handler of app/api/outline-local/route.ts: validate the
    idea, then the API key, summarise the conversation (or say there was
    none), ask the model for an outline and cut the JSON span out of the
    reply. The decoded body, the key, the model call and `JSON.parse` are
    parameters. */
module OutlineLocal {
  import opened Wrappers
  import opened JsValues
  import opened Conversation
  import opened Slides
  import opened Gemini

  datatype Request = Request(ideaTitle: Option<string>, ideaDescription: Option<string>,
                             conversationHistory: Option<seq<Message>>)

  datatype Body =
    | ErrorBody(error: string)
    | OutlineBody(outline: SlideOutline, success: bool, message: string)
  datatype Response = Response(status: nat, body: Body)

  const IdeaRequired := "アイデア情報は必須です"
  const MissingApiKey := "Gemini APIキーが設定されていません"
  const NoSession := "まだ壁打ちセッションが行われていません。"
  const Completed := "アウトライン生成が完了しました"
  const GenerationError := "アウトライン生成でエラーが発生しました"

  /** The joined summary of a non-empty history, or the fixed note that
      no session took place. */
  function ConversationSummary(history: Option<seq<Message>>): (r: string)
    ensures history.None? || history.value == [] ==> r == NoSession
    ensures history.Some? && history.value != [] ==> r == Summary(history.value)
  {
    if history.Some? && |history.value| > 0 then Summary(history.value) else NoSession
  }

  /** The note cannot be mistaken for a real summary: every summary opens
      with a speaker label. */
  lemma SummaryIsNotNoSession(history: seq<Message>)
    requires history != []
    ensures Summary(history) != NoSession
  {
    var s := Summary(history);
    var l := Line(history[0]);
    assert l <= s;
    assert s[0] == l[0];
    assert l[0] == '学' || l[0] == 'メ';
    assert NoSession[0] == 'ま';
  }

  /** The outline taken from a reply: the parsed JSON span, or an empty
      slide list when the reply has no span. */
  function OutlineFromReply(text: string, parse: string -> Result<SlideOutline, string>)
    : (r: Result<SlideOutline, string>)
    ensures JsonSpan(text).None? ==> r == Ok(SlideOutline([]))
    ensures JsonSpan(text).Some? ==> r == parse(JsonSpan(text).value)
  {
    match JsonSpan(text)
    case Some(span) => parse(span)
    case None => Ok(SlideOutline([]))
  }

  /** `POST`. A missing title or description answers 400 before the key is
      looked at; a missing key answers 500 before the model is called; any
      thrown error answers 500 with its message or the fixed text. */
  function Post(body: Result<Request, string>, apiKey: Option<string>,
                generate: string -> Result<string, string>,
                parse: string -> Result<SlideOutline, string>)
    : (resp: Response)
    ensures body.Err? ==> resp == Response(500, ErrorBody(MessageOr(body.error, GenerationError)))
    ensures resp.status == 400 <==>
              body.Ok? && (!Truthy(body.value.ideaTitle) || !Truthy(body.value.ideaDescription))
    ensures resp.status == 400 ==> resp.body == ErrorBody(IdeaRequired)
    ensures (body.Ok? && Truthy(body.value.ideaTitle) && Truthy(body.value.ideaDescription) && !Truthy(apiKey))
              ==> resp == Response(500, ErrorBody(MissingApiKey))
    ensures (body.Ok? && Truthy(body.value.ideaTitle) && Truthy(body.value.ideaDescription) && Truthy(apiKey))
              ==> var prompt := OutlinePrompt(body.value.ideaTitle.value, body.value.ideaDescription.value,
                                              ConversationSummary(body.value.conversationHistory));
                  var reply := generate(prompt);
                  resp == if reply.Err? then Response(500, ErrorBody(MessageOr(reply.error, GenerationError)))
                          else var outline := OutlineFromReply(reply.value, parse);
                               if outline.Err? then Response(500, ErrorBody(MessageOr(outline.error, GenerationError)))
                               else Response(200, OutlineBody(outline.value, true, Completed))
    ensures resp.status == 200 ==> resp.body.OutlineBody? && resp.body.success
  {
    match body
    case Err(e) => Response(500, ErrorBody(MessageOr(e, GenerationError)))
    case Ok(req) =>
      if !Truthy(req.ideaTitle) || !Truthy(req.ideaDescription) then
        Response(400, ErrorBody(IdeaRequired))
      else if !Truthy(apiKey) then
        Response(500, ErrorBody(MissingApiKey))
      else
        var conversationSummary := ConversationSummary(req.conversationHistory);
        var prompt := OutlinePrompt(req.ideaTitle.value, req.ideaDescription.value, conversationSummary);
        match generate(prompt)
        case Err(e) => Response(500, ErrorBody(MessageOr(e, GenerationError)))
        case Ok(text) =>
          match OutlineFromReply(text, parse)
          case Err(e) => Response(500, ErrorBody(MessageOr(e, GenerationError)))
          case Ok(outline) => Response(200, OutlineBody(outline, true, Completed))
  }
}
