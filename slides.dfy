/** Google Slides export (lib/google/slides.ts): an outline becomes an
    ordered batch of three requests per slide, built by index. The Slides
    and Drive API calls themselves are not modelled; their answers are
    parameters. */
module Slides {
  import opened Wrappers
  import opened Text

  datatype Slide = Slide(title: string, points: seq<string>)
  datatype SlideOutline = SlideOutline(slides: seq<Slide>)

  datatype Request =
    | CreateSlide(objectId: string, insertionIndex: nat, predefinedLayout: string)
    | InsertText(objectId: string, text: string)

  const Layout := "TITLE_AND_BODY"
  /** The marker in front of each point: U+2022 and a space. */
  const Marker := "\U{2022} "
  const SlidesError := "スライド生成でエラーが発生しました"
  const UrlPrefix := "https://docs.google.com/presentation/d/"
  const UrlSuffix := "/edit"

  function SlideId(index: nat): string {
    "slide_" + NatToString(index)
  }

  /** Slide ids are distinct because printed indices are. */
  lemma SlideIdsDistinct(i: nat, j: nat)
    requires i != j
    ensures SlideId(i) != SlideId(j)
  {
    if SlideId(i) == SlideId(j) {
      assert NatToString(i) == SlideId(i)[6..];
      NatToStringInjective(i, j);
    }
  }

  function BulletLines(points: seq<string>): (r: seq<string>)
    ensures |r| == |points| && forall i :: 0 <= i < |points| ==> r[i] == Marker + points[i]
  {
    if points == [] then [] else [Marker + points[0]] + BulletLines(points[1..])
  }

  /** `points.map(p => '• ' + p).join('\n')`. */
  function BodyText(points: seq<string>): (r: string)
    ensures points == [] ==> r == ""
    ensures |points| == 1 ==> r == Marker + points[0]
  {
    Join(BulletLines(points), "\n")
  }

  lemma MarkerLineHasNoNewline(point: string)
    requires '\n' !in point
    ensures '\n' !in Marker + point
  {
    assert Marker == ['\U{2022}', ' '];
  }

  /** The body keeps every point as its own line, in order, with no empty
      line after the last one, provided no point contains a newline. */
  lemma BodyTextLines(points: seq<string>)
    requires points != []
    requires forall i :: 0 <= i < |points| ==> '\n' !in points[i]
    ensures SplitOn(BodyText(points), '\n') == BulletLines(points)
  {
    var ls := BulletLines(points);
    forall k | 0 <= k < |ls| ensures '\n' !in ls[k] {
      MarkerLineHasNoNewline(points[k]);
    }
    SplitJoin(ls, '\n');
  }

  /** The three requests of slide `index`, in the order they are pushed. */
  ghost predicate RequestsOfSlide(requests: seq<Request>, index: nat, slide: Slide)
    requires 3 * index + 2 < |requests|
  {
    && requests[3 * index] == CreateSlide(SlideId(index), index, Layout)
    && requests[3 * index + 1] == InsertText(SlideId(index) + "_title", slide.title)
    && requests[3 * index + 2] == InsertText(SlideId(index) + "_body", BodyText(slide.points))
  }

  /** What the request list of an outline is: three requests per slide,
      slide by slide. */
  ghost predicate IsRequestList(outline: SlideOutline, requests: seq<Request>) {
    && |requests| == 3 * |outline.slides|
    && forall i :: 0 <= i < |outline.slides| ==> RequestsOfSlide(requests, i, outline.slides[i])
  }

  /** The description above fixes the list completely. */
  lemma RequestListUnique(outline: SlideOutline, a: seq<Request>, b: seq<Request>)
    requires IsRequestList(outline, a) && IsRequestList(outline, b)
    ensures a == b
  {
    forall k | 0 <= k < |a| ensures a[k] == b[k] {
      var i := k / 3;
      assert RequestsOfSlide(a, i, outline.slides[i]) && RequestsOfSlide(b, i, outline.slides[i]);
      assert k == 3 * i || k == 3 * i + 1 || k == 3 * i + 2;
    }
  }

  /** Every slide created by the batch gets its own object id. */
  lemma CreatedIdsDistinct(outline: SlideOutline, requests: seq<Request>, i: nat, j: nat)
    requires IsRequestList(outline, requests)
    requires i < j < |outline.slides|
    ensures requests[3 * i].objectId != requests[3 * j].objectId
  {
    assert RequestsOfSlide(requests, i, outline.slides[i]);
    assert RequestsOfSlide(requests, j, outline.slides[j]);
    SlideIdsDistinct(i, j);
  }

  /** The `forEach` over the slides that pushes their requests. */
  method BuildRequests(outline: SlideOutline) returns (requests: seq<Request>)
    ensures IsRequestList(outline, requests)
  {
    requests := [];
    var index := 0;
    while index < |outline.slides|
      invariant 0 <= index <= |outline.slides|
      invariant IsRequestList(SlideOutline(outline.slides[..index]), requests)
    {
      var slide := outline.slides[index];
      var slideId := SlideId(index);
      ghost var before := requests;
      requests := requests + [CreateSlide(slideId, index, Layout)];
      requests := requests + [InsertText(slideId + "_title", slide.title)];
      var bodyText := BodyText(slide.points);
      requests := requests + [InsertText(slideId + "_body", bodyText)];
      PushSlide(outline, index, before, requests);
      index := index + 1;
    }
    assert outline.slides[..index] == outline.slides;
  }

  lemma PushSlide(outline: SlideOutline, index: nat, before: seq<Request>, after: seq<Request>)
    requires index < |outline.slides|
    requires IsRequestList(SlideOutline(outline.slides[..index]), before)
    requires after == before + [CreateSlide(SlideId(index), index, Layout),
                                InsertText(SlideId(index) + "_title", outline.slides[index].title),
                                InsertText(SlideId(index) + "_body", BodyText(outline.slides[index].points))]
    ensures IsRequestList(SlideOutline(outline.slides[..index + 1]), after)
  {
    var pre := outline.slides[..index];
    var post := outline.slides[..index + 1];
    forall i | 0 <= i < |post| ensures RequestsOfSlide(after, i, post[i]) {
      if i < index {
        assert RequestsOfSlide(before, i, pre[i]);
        assert after[3 * i] == before[3 * i] && after[3 * i + 1] == before[3 * i + 1]
          && after[3 * i + 2] == before[3 * i + 2];
      }
    }
  }

  /** The edit URL of a presentation; the id can be read back from it. */
  function PresentationUrl(presentationId: string): (url: string)
    ensures PresentationIdOf(url) == Some(presentationId)
  {
    var url := UrlPrefix + presentationId + UrlSuffix;
    assert url[..|UrlPrefix|] == UrlPrefix;
    assert url[|url| - |UrlSuffix|..] == UrlSuffix;
    assert url[|UrlPrefix|..|url| - |UrlSuffix|] == presentationId;
    url
  }

  /** Reads the presentation id back out of an edit URL. */
  function PresentationIdOf(url: string): Option<string> {
    if |url| >= |UrlPrefix| + |UrlSuffix| && url[..|UrlPrefix|] == UrlPrefix
       && url[|url| - |UrlSuffix|..] == UrlSuffix
    then Some(url[|UrlPrefix|..|url| - |UrlSuffix|])
    else None
  }

  datatype ApiCall =
    | CreatePresentation(title: string)
    | BatchUpdate(presentationId: string, requests: seq<Request>)

  datatype Presentation = Presentation(presentationId: string, presentationUrl: string)

  /** `createGoogleSlidesPresentation`. `created` is what
      `presentations.create` answers (an id, or a failure) and `batchOk`
      whether `batchUpdate` succeeds; `calls` lists the API calls made, in
      order. Any failure is reported as one fixed message. */
  method CreateGoogleSlidesPresentation(title: string, outline: SlideOutline,
                                        created: Option<string>, batchOk: bool)
    returns (calls: seq<ApiCall>, result: Result<Presentation, string>)
    ensures |calls| >= 1 && calls[0] == CreatePresentation(title)
    ensures created.None? ==> calls == [CreatePresentation(title)] && result == Err(SlidesError)
    ensures created.Some? ==>
              (|calls| == 2 <==> |outline.slides| > 0) && |calls| <= 2
              && (|calls| == 2 ==> calls[1].BatchUpdate? && calls[1].presentationId == created.value
                                   && IsRequestList(outline, calls[1].requests))
    ensures result.Err? ==> result.error == SlidesError
    ensures result.Ok? <==> created.Some? && (|outline.slides| == 0 || batchOk)
    ensures result.Ok? ==> result.value == Presentation(created.value, PresentationUrl(created.value))
  {
    calls := [CreatePresentation(title)];
    if created.None? {
      return calls, Err(SlidesError);
    }
    var presentationId := created.value;
    var requests := BuildRequests(outline);
    if |requests| > 0 {
      calls := calls + [BatchUpdate(presentationId, requests)];
      if !batchOk {
        return calls, Err(SlidesError);
      }
    }
    var presentationUrl := PresentationUrl(presentationId);
    result := Ok(Presentation(presentationId, presentationUrl));
  }

  datatype MockPresentation = MockPresentation(presentationId: string, presentationUrl: string,
                                               slides: seq<Slide>, note: string)

  const MockNote := "MVP版: 実際のGoogle Slidesとの連携は認証設定後に有効化されます"

  /** `createSlidesFromOutline`: a mock id from the clock reading `now`
      (`Date.now()`), its edit URL, and the outline's slides as given. */
  function CreateSlidesFromOutline(title: string, outline: SlideOutline, now: nat): (r: MockPresentation)
    ensures r.slides == outline.slides
    ensures PresentationIdOf(r.presentationUrl) == Some(r.presentationId)
    ensures r.presentationId == "mock_" + NatToString(now)
  {
    var mockPresentationId := "mock_" + NatToString(now);
    MockPresentation(mockPresentationId, PresentationUrl(mockPresentationId), outline.slides, MockNote)
  }
}
