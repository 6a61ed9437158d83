/** Prompt assembly and reply handling of lib/google/gemini.ts. The call
    to the generative model is the parameter `generate`: it maps a prompt
    to the reply text or to a failure. `JSON.parse` is the parameter
    `parse`. */
module Gemini {
  import opened Wrappers
  import opened Text
  import opened Conversation
  import opened Slides

  const TitleLabel := "アイデアタイトル: "
  const DescriptionLabel := "\nアイデア概要: "

  /** The two lines naming the idea, shared by every prompt. */
  function IdeaBlock(title: string, description: string): string {
    TitleLabel + title + DescriptionLabel + description
  }

  const MentorIntro := "あなたは学生のアイデアをブラッシュアップする優秀なメンターです。\n以下のアイデアについて、建設的なフィードバックと質問を提供してください。\n\n"
  const MentorGuidance := "\n\n以下の観点から支援してください：\n1. アイデアの独自性と市場価値\n2. 実現可能性と必要なリソース\n3. ターゲットユーザーとペインポイント\n4. ビジネスモデルと収益化\n5. 技術的な課題と解決策\n6. 次のステップとアクションプラン\n\n学生が自分で考えを深められるよう、質問を投げかけながら対話してください。"

  /** The mentor's system prompt with the idea's title and description,
      which can be read back from it verbatim (when the title has no line
      break). */
  function SystemPrompt(title: string, description: string): (r: string)
    ensures '\n' !in title ==> ReadIdea(r, MentorIntro, MentorGuidance) == Some((title, description))
  {
    ReadIdeaRoundTrip(MentorIntro, title, description, MentorGuidance);
    MentorIntro + IdeaBlock(title, description) + MentorGuidance
  }

  const OutlineIntro := "以下のアイデアと壁打ちセッションの内容から、プレゼンテーション用のアウトラインを生成してください。\n\n"
  const SessionHeading := "\n\n壁打ちセッション:\n"
  const OutlineInstructions := "\n\n以下の構成でアウトラインを作成してください：\n1. タイトルスライド\n2. 問題提起\n3. ソリューション\n4. 市場分析\n5. ビジネスモデル\n6. 実装計画\n7. まとめ・次のステップ\n\n各セクションには、キーポイント（3-5個）を含めてください。\nJSON形式で出力してください。\n\n出力形式例：\n{\n  \"slides\": [\n    {\n      \"title\": \"タイトル\",\n      \"points\": [\"ポイント1\", \"ポイント2\"]\n    }\n  ]\n}"

  /** What follows the idea in the outline request: the conversation
      summary under its heading, then the fixed instructions. */
  function SessionPart(summary: string): string {
    SessionHeading + summary + OutlineInstructions
  }

  /** The outline request: the idea, then the conversation summary, then
      the fixed instructions. The title (when it has no line break) and
      the description can be read back from it verbatim. */
  function OutlinePrompt(title: string, description: string, summary: string): (r: string)
    ensures '\n' !in title ==> ReadIdea(r, OutlineIntro, SessionPart(summary)) == Some((title, description))
  {
    ReadIdeaRoundTrip(OutlineIntro, title, description, SessionPart(summary));
    OutlineIntro + IdeaBlock(title, description) + SessionPart(summary)
  }

  /** Reads the idea back out of a prompt that starts with `head` and ends
      with `tail`: the title is the rest of the title line, the
      description is everything between the description label and `tail`. */
  function ReadIdea(prompt: string, head: string, tail: string): Option<(string, string)> {
    if |prompt| < |head| + |tail| || prompt[..|head|] != head || prompt[|prompt| - |tail|..] != tail
    then None
    else
      var middle := prompt[|head|..|prompt| - |tail|];
      if |middle| < |TitleLabel| || middle[..|TitleLabel|] != TitleLabel then None
      else
        var rest := middle[|TitleLabel|..];
        var i := IndexOfChar(rest, '\n');
        if i < 0 || |rest| - i < |DescriptionLabel| || rest[i..i + |DescriptionLabel|] != DescriptionLabel
        then None
        else Some((rest[..i], rest[i + |DescriptionLabel|..]))
  }

  lemma DescriptionLabelStartsWithNewline()
    ensures |DescriptionLabel| >= 1 && DescriptionLabel[0] == '\n'
  {
  }

  /** A title without a line break, and any description, can be read back
      verbatim from the prompt they were embedded in. */
  lemma ReadIdeaRoundTrip(head: string, title: string, description: string, tail: string)
    ensures '\n' !in title ==>
              ReadIdea(head + IdeaBlock(title, description) + tail, head, tail) == Some((title, description))
  {
    if '\n' in title {
      return;
    }
    var prompt := head + IdeaBlock(title, description) + tail;
    var block := IdeaBlock(title, description);
    assert prompt[..|head|] == head;
    assert prompt[|prompt| - |tail|..] == tail;
    var middle := prompt[|head|..|prompt| - |tail|];
    assert middle == block;
    assert middle[..|TitleLabel|] == TitleLabel;
    var rest := middle[|TitleLabel|..];
    assert rest == title + DescriptionLabel + description;
    DescriptionLabelStartsWithNewline();
    assert DescriptionLabel == ['\n'] + DescriptionLabel[1..];
    assert rest == title + ['\n'] + (DescriptionLabel[1..] + description);
    IndexOfCharAfter(title, '\n', DescriptionLabel[1..] + description);
    var i := IndexOfChar(rest, '\n');
    assert i == |title|;
    assert rest[i..i + |DescriptionLabel|] == DescriptionLabel;
    assert rest[..i] == title;
    assert rest[i + |DescriptionLabel|..] == description;
  }

  /** The prompt `brainstormWithGemini` sends: the system prompt, a blank
      line, then one line per message of the history. With a non-empty
      history that is the joined summary of the conversation and one
      newline; with none the prompt ends after the blank line. */
  function BrainstormPrompt(title: string, description: string, history: seq<Message>): (r: string)
    ensures r == SystemPrompt(title, description) + "\n\n" + (if history == [] then "" else Summary(history) + "\n")
  {
    TranscriptIsSummary(history);
    SystemPrompt(title, description) + "\n\n" + Transcript(history)
  }

  const BrainstormError := "AI壁打ちでエラーが発生しました"
  const OutlineError := "アウトライン生成でエラーが発生しました"

  /** `brainstormWithGemini`: builds the prompt with a loop over the
      history, sends it, and returns the reply; any failure becomes the
      fixed error message. */
  method BrainstormWithGemini(ideaTitle: string, ideaDescription: string, conversationHistory: seq<Message>,
                              generate: string -> Result<string, string>)
    returns (r: Result<string, string>)
    ensures var reply := generate(BrainstormPrompt(ideaTitle, ideaDescription, conversationHistory));
            r == if reply.Ok? then reply else Err(BrainstormError)
  {
    var systemPrompt := SystemPrompt(ideaTitle, ideaDescription);
    var prompt := AppendTranscript(systemPrompt + "\n\n", conversationHistory);
    var reply := generate(prompt);
    if reply.Err? {
      return Err(BrainstormError);
    }
    r := reply;
  }

  /** A match of `/\{[\s\S]*\}/` in `s`: the slice `s[a..b]` opens with a
      brace and closes with one. */
  ghost predicate IsBraceMatch(s: string, a: int, b: int) {
    0 <= a && a + 2 <= b <= |s| && s[a] == '{' && s[b - 1] == '}'
  }

  /** `text.match(/\{[\s\S]*\}/)`: the span from the first `{` to the last
      `}`. It exists exactly when some `{` precedes some `}`, and it
      contains every other match (leftmost start, greedy end). */
  function JsonSpan(text: string): (r: Option<string>)
    ensures r.None? <==> forall a, b :: !IsBraceMatch(text, a, b)
    ensures r.Some? ==> exists a, b :: IsBraceMatch(text, a, b) && r.value == text[a..b]
                          && forall a', b' :: IsBraceMatch(text, a', b') ==> a <= a' && b' <= b
  {
    var i := IndexOfChar(text, '{');
    var j := LastIndexOfChar(text, '}');
    if 0 <= i < j then
      assert IsBraceMatch(text, i, j + 1);
      assert forall a', b' :: IsBraceMatch(text, a', b') ==> i <= a' && b' <= j + 1 by {
        forall a', b' | IsBraceMatch(text, a', b') ensures i <= a' && b' <= j + 1 {
          MatchWithinSpan(text, a', b');
        }
      }
      Some(text[i..j + 1])
    else
      assert forall a, b :: !IsBraceMatch(text, a, b) by {
        forall a, b | IsBraceMatch(text, a, b) ensures false {
          MatchWithinSpan(text, a, b);
        }
      }
      None
  }

  /** Every match starts at or after the first `{` and ends at or before
      the last `}`. */
  lemma MatchWithinSpan(text: string, a: int, b: int)
    requires IsBraceMatch(text, a, b)
    ensures 0 <= IndexOfChar(text, '{') <= a
    ensures b - 1 <= LastIndexOfChar(text, '}')
  {
    var i := IndexOfChar(text, '{');
    var j := LastIndexOfChar(text, '}');
    assert text[a] in text;
    assert text[b - 1] in text;
  }

  /** `generateOutlineWithGemini`: summarises the history, sends the
      outline prompt, and cuts the JSON span out of the reply; without a
      span the outline is empty. A failing call or an unparsable span
      becomes the fixed error message. */
  function GenerateOutlineWithGemini(ideaTitle: string, ideaDescription: string,
                                     conversationHistory: seq<Message>,
                                     generate: string -> Result<string, string>,
                                     parse: string -> Result<SlideOutline, string>)
    : (r: Result<SlideOutline, string>)
    ensures r.Err? ==> r.error == OutlineError
    ensures var reply := generate(OutlinePrompt(ideaTitle, ideaDescription, Summary(conversationHistory)));
            && (reply.Err? ==> r.Err?)
            && (reply.Ok? && JsonSpan(reply.value).None? ==> r == Ok(SlideOutline([])))
            && (reply.Ok? && JsonSpan(reply.value).Some? ==>
                  r == if parse(JsonSpan(reply.value).value).Ok? then parse(JsonSpan(reply.value).value)
                       else Err(OutlineError))
  {
    var conversationSummary := Summary(conversationHistory);
    var prompt := OutlinePrompt(ideaTitle, ideaDescription, conversationSummary);
    match generate(prompt)
    case Err(_) => Err(OutlineError)
    case Ok(text) =>
      match JsonSpan(text)
      case None => Ok(SlideOutline([]))
      case Some(span) =>
        match parse(span)
        case Ok(outline) => Ok(outline)
        case Err(_) => Err(OutlineError)
  }
}
