/** Layout and pagination of the idea certificate (`generateIdeaPDF` in
    lib/utils/pdf.ts), and the outcome of hashing it (`calculateSHA256`).
    The jsPDF document is modelled as a value: the record of its text
    calls, each tagged with the page it was drawn on, the page count and
    the current page; the items of one page are read off that record. Drawing attributes (fonts, sizes,
    alignment, the separator rule) are not modelled; text wrapping is the
    parameter `split`, which gives the number of lines a text wraps to. */
module PdfLayout {
  import opened Wrappers
  import opened Text
  import opened Slides

  /** The fixed captions of the document. */
  datatype Caption = AppName | DocumentName | TitleCaption | AuthorCaption | CreatedCaption
                   | DescriptionCaption | SummaryCaption | OutlineCaption

  function CaptionText(c: Caption): string {
    match c
    case AppName => "Student Idea Launcher"
    case DocumentName => "Idea Documentation"
    case TitleCaption => "Title:"
    case AuthorCaption => "Author:"
    case CreatedCaption => "Created:"
    case DescriptionCaption => "Description:"
    case SummaryCaption => "Brainstorm Summary:"
    case OutlineCaption => "Presentation Outline:"
  }

  /** What is drawn, whatever its vertical position. A wrapped value or
      bullet records the number of lines it wraps to. */
  datatype Block =
    | Banner(caption: Caption)
    | Label(caption: Caption)
    | Value(text: string, lines: nat)
    | Heading(number: nat, title: string)
    | Bullet(point: string, lines: nat)
    | Footer(page: nat, count: nat, timestamp: string)

  /** The bullet prefix exactly as the source file spells it: the UTF-8
      bytes of U+2022 read as Windows-1252 text, then a space. */
  const PointMarker := "\U{E2}\U{20AC}\U{A2} "

  /** The text the block draws. */
  function BlockText(b: Block): string {
    match b
    case Banner(c) => CaptionText(c)
    case Label(c) => CaptionText(c)
    case Value(text, _) => text
    case Heading(number, title) => NatToString(number) + ". " + title
    case Bullet(point, _) => PointMarker + point
    case Footer(page, count, timestamp) =>
      "Page " + NatToString(page) + " of " + NatToString(count) + " | Generated: " + timestamp
  }

  /** A block placed at the vertical position `y` of its page. */
  datatype Item = Item(block: Block, y: int)

  type LineCount = n: nat | 1 <= n witness 1

  /** `doc.splitTextToSize(text, width).length`: at least one line. */
  type LineSplitter = (string, nat) -> LineCount

  /** One `doc.text(...)` call as the document records it: the page that
      was current and the placed block. */
  datatype Entry = Entry(page: nat, item: Item)

  /** The jsPDF document: every text call so far, in drawing order, each
      tagged with its page; the number of pages; and the 1-based current
      page. The items of page `p` are the entries tagged `p`. */
  datatype Doc = Doc(entries: seq<Entry>, pageCount: nat, current: nat)

  /** `new jsPDF()`: one empty page, which is current. */
  function NewDoc(): Doc {
    Doc([], 1, 1)
  }

  /** `doc.addPage()`: a new empty page at the end becomes current. */
  function AddPage(doc: Doc): Doc {
    Doc(doc.entries, doc.pageCount + 1, doc.pageCount + 1)
  }

  /** `doc.setPage(i)`. */
  function SetPage(doc: Doc, i: nat): Doc
    requires 1 <= i <= doc.pageCount
  {
    Doc(doc.entries, doc.pageCount, i)
  }

  /** `doc.text(...)`: the item is drawn on the current page. */
  function DrawText(doc: Doc, it: Item): Doc {
    Doc(doc.entries + [Entry(doc.current, it)], doc.pageCount, doc.current)
  }

  /** The items on page `p`, in drawing order. */
  function PageItems(entries: seq<Entry>, p: nat): seq<Item>
    decreases |entries|
  {
    if entries == [] then []
    else
      var n := |entries| - 1;
      PageItems(entries[..n], p) + (if entries[n].page == p then [entries[n].item] else [])
  }

  datatype OutlineField = NoOutline | OutlineWithoutSlides | OutlineSlides(slides: seq<Slide>)

  datatype IdeaDocument = IdeaDocument(title: string, description: string, author: string,
                                       timestamp: string, brainstormSummary: Option<string>,
                                       outline: OutlineField)

  // ---------------------------------------------------------------------
  // What the document contains, in reading order, independent of paging.

  /** The banner and the four labelled fields, which draw the title, the
      author, the timestamp and the description verbatim. */
  function HeaderBlocks(d: IdeaDocument, split: LineSplitter): (r: seq<Block>)
    ensures |r| == 10
    ensures BlockText(r[3]) == d.title && BlockText(r[5]) == d.author
    ensures BlockText(r[7]) == d.timestamp && BlockText(r[9]) == d.description
    ensures forall i :: 0 <= i < |r| ==> !r[i].Heading? && !r[i].Bullet?
  {
    [ Banner(AppName), Banner(DocumentName),
      Label(TitleCaption), Value(d.title, split(d.title, 170)),
      Label(AuthorCaption), Value(d.author, 1),
      Label(CreatedCaption), Value(d.timestamp, 1),
      Label(DescriptionCaption), Value(d.description, split(d.description, 170)) ]
  }

  /** `if (data.brainstormSummary)`: present and not empty. */
  predicate HasSummary(d: IdeaDocument) {
    d.brainstormSummary.Some? && d.brainstormSummary.value != ""
  }

  function SummaryBlocks(d: IdeaDocument, split: LineSplitter): seq<Block> {
    if HasSummary(d) then
      [Label(SummaryCaption), Value(d.brainstormSummary.value, split(d.brainstormSummary.value, 170))]
    else []
  }

  function BulletBlock(point: string, split: LineSplitter): Block {
    Bullet(point, split(PointMarker + point, 160))
  }

  function BulletBlocks(points: seq<string>, split: LineSplitter): seq<Block> {
    if points == [] then []
    else BulletBlocks(points[..|points| - 1], split) + [BulletBlock(points[|points| - 1], split)]
  }

  /** Slide `index` (0-based) is headed `index + 1`. */
  function SlideBlocks(index: nat, slide: Slide, split: LineSplitter): seq<Block> {
    [Heading(index + 1, slide.title)] + BulletBlocks(slide.points, split)
  }

  function SlidesBlocks(slides: seq<Slide>, split: LineSplitter): seq<Block> {
    if slides == [] then []
    else SlidesBlocks(slides[..|slides| - 1], split) + SlideBlocks(|slides| - 1, slides[|slides| - 1], split)
  }

  /** `if (data.outline && data.outline.slides)`: any slide list, even an
      empty one, is truthy. */
  function OutlineBlocks(d: IdeaDocument, split: LineSplitter): seq<Block> {
    match d.outline
    case OutlineSlides(slides) => [Label(OutlineCaption)] + SlidesBlocks(slides, split)
    case _ => []
  }

  /** Everything the first pass draws, in reading order. Its headings are
      exactly the outline's, in order; there are none without a slide
      list. */
  function Contents(d: IdeaDocument, split: LineSplitter): (r: seq<Block>)
    ensures Headings(r)
         == match d.outline
            case OutlineSlides(slides) => SlideHeadings(slides)
            case _ => []
  {
    HeadingsAppend(HeaderBlocks(d, split) + SummaryBlocks(d, split), OutlineBlocks(d, split));
    HeaderHasNoHeadings(d, split);
    OutlineHeadings(d, split);
    HeaderBlocks(d, split) + SummaryBlocks(d, split) + OutlineBlocks(d, split)
  }

  /** The outline headings among `blocks`, in order. */
  function Headings(blocks: seq<Block>): seq<Block>
    decreases |blocks|
  {
    if blocks == [] then []
    else Headings(blocks[..|blocks| - 1])
         + (if blocks[|blocks| - 1].Heading? then [blocks[|blocks| - 1]] else [])
  }

  lemma {:induction false} HeadingsAppend(a: seq<Block>, b: seq<Block>)
    ensures Headings(a + b) == Headings(a) + Headings(b)
    decreases |b|
  {
    if b == [] {
      assert a + b == a;
    } else {
      assert (a + b)[..|a + b| - 1] == a + b[..|b| - 1];
      HeadingsAppend(a, b[..|b| - 1]);
    }
  }

  lemma {:induction false} NoHeadings(blocks: seq<Block>)
    requires forall i :: 0 <= i < |blocks| ==> !blocks[i].Heading?
    ensures Headings(blocks) == []
    decreases |blocks|
  {
    if blocks != [] {
      NoHeadings(blocks[..|blocks| - 1]);
    }
  }

  lemma {:induction false} NoHeadingsInBullets(points: seq<string>, split: LineSplitter)
    ensures Headings(BulletBlocks(points, split)) == []
    decreases |points|
  {
    if points != [] {
      var init := BulletBlocks(points[..|points| - 1], split);
      NoHeadingsInBullets(points[..|points| - 1], split);
      HeadingsAppend(init, [BulletBlock(points[|points| - 1], split)]);
    }
  }

  /** The headings of the slides in order: slide `i` (0-based) is headed
      `i + 1` with its own title, and each slide has exactly one. */
  function SlideHeadings(slides: seq<Slide>): (r: seq<Block>)
    ensures |r| == |slides|
    ensures forall i :: 0 <= i < |slides| ==> r[i] == Heading(i + 1, slides[i].title)
  {
    seq(|slides|, i requires 0 <= i < |slides| => Heading(i + 1, slides[i].title))
  }

  /** Heading `i` reads `<i + 1>. <title>`. */
  lemma SlideHeadingsRead(slides: seq<Slide>)
    ensures forall i :: 0 <= i < |slides| ==>
              BlockText(SlideHeadings(slides)[i]) == NatToString(i + 1) + ". " + slides[i].title
  {
  }

  /** Each slide contributes its heading and nothing else. */
  lemma OneHeadingPerSlide(index: nat, slide: Slide, split: LineSplitter)
    ensures Headings(SlideBlocks(index, slide, split)) == [Heading(index + 1, slide.title)]
  {
    HeadingsAppend([Heading(index + 1, slide.title)], BulletBlocks(slide.points, split));
    NoHeadingsInBullets(slide.points, split);
    assert Headings([Heading(index + 1, slide.title)]) == [Heading(index + 1, slide.title)];
  }

  lemma {:induction false} SlideHeadingsInOrder(slides: seq<Slide>, split: LineSplitter)
    ensures Headings(SlidesBlocks(slides, split)) == SlideHeadings(slides)
    decreases |slides|
  {
    if slides != [] {
      var n := |slides| - 1;
      var init := slides[..n];
      SlideHeadingsInOrder(init, split);
      HeadingsAppend(SlidesBlocks(init, split), SlideBlocks(n, slides[n], split));
      OneHeadingPerSlide(n, slides[n], split);
      SlideHeadingsPush(slides);
    }
  }

  lemma SlideHeadingsPush(slides: seq<Slide>)
    requires slides != []
    ensures SlideHeadings(slides)
         == SlideHeadings(slides[..|slides| - 1]) + [Heading(|slides|, slides[|slides| - 1].title)]
  {
    var n := |slides| - 1;
    var a := SlideHeadings(slides);
    var b := SlideHeadings(slides[..n]) + [Heading(n + 1, slides[n].title)];
    assert forall i :: 0 <= i < n ==> slides[..n][i] == slides[i];
    assert |a| == |b|;
    assert forall i :: 0 <= i < |a| ==> a[i] == b[i];
  }

  lemma HeaderHasNoHeadings(d: IdeaDocument, split: LineSplitter)
    ensures Headings(HeaderBlocks(d, split) + SummaryBlocks(d, split)) == []
  {
    var h := HeaderBlocks(d, split);
    var s := SummaryBlocks(d, split);
    NoHeadings(h + s);
  }

  lemma OutlineHeadings(d: IdeaDocument, split: LineSplitter)
    ensures Headings(OutlineBlocks(d, split))
         == match d.outline
            case OutlineSlides(slides) => SlideHeadings(slides)
            case _ => []
  {
    if d.outline.OutlineSlides? {
      HeadingsAppend([Label(OutlineCaption)], SlidesBlocks(d.outline.slides, split));
      SlideHeadingsInOrder(d.outline.slides, split);
      NoHeadings([Label(OutlineCaption)]);
    }
  }

  /** Every bullet draws the marker followed by its point. */
  lemma BulletsAreMarked(points: seq<string>, split: LineSplitter)
    ensures |BulletBlocks(points, split)| == |points|
    ensures forall j :: 0 <= j < |points| ==>
              BulletBlocks(points, split)[j].Bullet? && BlockText(BulletBlocks(points, split)[j]) == PointMarker + points[j]
    decreases |points|
  {
    if points != [] {
      BulletsAreMarked(points[..|points| - 1], split);
    }
  }

  // ---------------------------------------------------------------------
  // Where things are placed.

  /** The blocks of `entries`, in drawing order. */
  function Blocks(entries: seq<Entry>): (r: seq<Block>)
    ensures |r| == |entries|
    decreases |entries|
  {
    if entries == [] then [] else Blocks(entries[..|entries| - 1]) + [entries[|entries| - 1].item.block]
  }

  lemma BlocksPush(entries: seq<Entry>, e: Entry)
    ensures Blocks(entries + [e]) == Blocks(entries) + [e.item.block]
  {
    assert (entries + [e])[..|entries|] == entries;
  }

  function FooterItem(i: nat, count: nat, timestamp: string): Item {
    Item(Footer(i, count, timestamp), 285)
  }

  /** What the second pass draws: the footer of page `i` on page `i`, for
      each of the `count` pages in turn. */
  function Footers(count: nat, timestamp: string): (r: seq<Entry>)
    ensures |r| == count
    ensures forall i :: 0 <= i < count ==> r[i] == Entry(i + 1, FooterItem(i + 1, count, timestamp))
  {
    seq(count, i requires 0 <= i < count => Entry(i + 1, FooterItem(i + 1, count, timestamp)))
  }

  /** Nothing is drawn above the top margin, and each block that is guarded
      by a page-break check starts no lower than its threshold. */
  predicate WellPlaced(it: Item) {
    20 <= it.y &&
    match it.block
    case Label(SummaryCaption) => it.y <= 250
    case Label(OutlineCaption) => it.y <= 200
    case Heading(_, _) => it.y <= 260
    case Bullet(_, _) => it.y <= 270
    case _ => true
  }

  /** `b` is drawn after `a` either lower on the same page or at the top
      margin of the next page. */
  predicate Follows(a: Entry, b: Entry) {
    (b.page == a.page && a.item.y <= b.item.y) || (b.page == a.page + 1 && b.item.y == 20)
  }

  /** A well-placed drawing order that starts on page 1 and moves down the
      pages, stated entry by entry from the end, as the document is
      built. */
  predicate Flowing(entries: seq<Entry>)
    decreases |entries|
  {
    entries == []
    || (var n := |entries| - 1;
        && Flowing(entries[..n])
        && WellPlaced(entries[n].item)
        && (if n == 0 then entries[n].page == 1 else Follows(entries[n - 1], entries[n])))
  }

  /** The same, stated for every entry and every consecutive pair. */
  predicate Paginated(entries: seq<Entry>) {
    && (entries != [] ==> entries[0].page == 1)
    && (forall i :: 0 < i < |entries| ==> Follows(entries[i - 1], entries[i]))
    && (forall i :: 0 <= i < |entries| ==> WellPlaced(entries[i].item))
  }

  lemma {:induction false} FlowingIsPaginated(entries: seq<Entry>)
    requires Flowing(entries)
    ensures Paginated(entries)
    ensures forall i :: 0 <= i < |entries| ==> 1 <= entries[i].page <= entries[|entries| - 1].page
    decreases |entries|
  {
    if entries != [] {
      var n := |entries| - 1;
      var init := entries[..n];
      FlowingIsPaginated(init);
      assert forall i :: 0 <= i < n ==> init[i] == entries[i];
    }
  }

  /** Where the cursor stands relative to the last thing drawn: on its
      page and not above it, or at the top margin of a fresh page after
      it. */
  predicate Resumes(last: Entry, pageCount: nat, y: int) {
    (last.page == pageCount && last.item.y <= y) || (last.page + 1 == pageCount && y == 20)
  }

  /** What the first pass keeps true of the document and the cursor `y`:
      the current page is the last one, `header` was drawn first, the
      drawing order so far flows down the pages, and the cursor resumes
      from the last thing drawn (from the top of page 1 before anything
      is drawn). */
  predicate Laid(doc: Doc, y: int, header: seq<Entry>) {
    && 1 <= doc.pageCount && doc.current == doc.pageCount
    && header <= doc.entries
    && Flowing(doc.entries)
    && 20 <= y
    && (doc.entries == [] ==> doc.pageCount == 1 && y == 20)
    && (doc.entries != [] ==> Resumes(doc.entries[|doc.entries| - 1], doc.pageCount, y))
  }

  /** The current page is not empty. */
  predicate Filled(doc: Doc) {
    doc.entries != [] && doc.entries[|doc.entries| - 1].page == doc.pageCount
  }

  /** Drawing at the cursor keeps the first-pass facts and adds the block
      to the drawing order. */
  lemma PlaceKeeps(doc: Doc, y: int, header: seq<Entry>, b: Block, y': int)
    requires Laid(doc, y, header) && WellPlaced(Item(b, y)) && y <= y'
    ensures Laid(DrawText(doc, Item(b, y)), y', header) && Filled(DrawText(doc, Item(b, y)))
    ensures Blocks(DrawText(doc, Item(b, y)).entries) == Blocks(doc.entries) + [b]
  {
    var e := Entry(doc.current, Item(b, y));
    var entries := doc.entries + [e];
    assert entries[..|doc.entries|] == doc.entries;
    if doc.entries != [] {
      assert entries[|doc.entries| - 1] == doc.entries[|doc.entries| - 1];
    }
    BlocksPush(doc.entries, e);
  }

  /** Moving the cursor down keeps the first-pass facts. */
  lemma AdvanceKeeps(doc: Doc, y: int, header: seq<Entry>, y': int)
    requires Laid(doc, y, header) && Filled(doc) && y <= y'
    ensures Laid(doc, y', header)
  {
  }

  /** `doc.addPage(); y = 20` from below the top margin keeps the
      first-pass facts. */
  lemma BreakKeeps(doc: Doc, y: int, header: seq<Entry>)
    requires Laid(doc, y, header) && 20 < y
    ensures Laid(AddPage(doc), 20, header)
  {
  }

  // ---------------------------------------------------------------------
  // The first pass as a reference: where the cursor stands and on which
  // page, step by step, independent of the jsPDF document.

  /** The cursor: the vertical position `y` on the page `page`, which is
      the current and last one during the first pass. */
  datatype Cursor = Cursor(y: int, page: nat)

  /** A stretch of the first pass: the entries drawn so far and the
      cursor. */
  datatype Pass = Pass(drawn: seq<Entry>, at: Cursor)

  /** The first-pass state of a document and its cursor. */
  function At(doc: Doc, y: int): Pass {
    Pass(doc.entries, Cursor(y, doc.pageCount))
  }

  /** `if (y > limit) { doc.addPage(); y = 20 }` */
  function Guard(p: Pass, limit: int): Pass {
    if p.at.y > limit then Pass(p.drawn, Cursor(20, p.at.page + 1)) else p
  }

  /** `doc.text(...)` at the cursor, then `y += advance`. */
  function Draw(p: Pass, b: Block, advance: nat): Pass {
    Pass(p.drawn + [Entry(p.at.page, Item(b, p.at.y))], Cursor(p.at.y + advance, p.at.page))
  }

  /** A header field: the label, 7 lower the value, then `7 * lines + gap` lower. */
  function FieldPass(p: Pass, caption: Caption, value: string, lines: nat, gap: nat): Pass {
    Draw(Draw(p, Label(caption), 7), Value(value, lines), lines * 7 + gap)
  }

  /** The banner at 20 and 30, then the four fields from 45. */
  function HeaderPass(d: IdeaDocument, split: LineSplitter): Pass {
    var banner := Draw(Draw(Pass([], Cursor(20, 1)), Banner(AppName), 10), Banner(DocumentName), 15);
    var title := FieldPass(banner, TitleCaption, d.title, split(d.title, 170), 5);
    var author := FieldPass(title, AuthorCaption, d.author, 1, 3);
    var created := FieldPass(author, CreatedCaption, d.timestamp, 1, 3);
    FieldPass(created, DescriptionCaption, d.description, split(d.description, 170), 10)
  }

  /** The summary section: the 250 check, the label, 7 lower the summary,
      then `7 * lines + 10` lower. */
  function SummaryPass(p: Pass, d: IdeaDocument, split: LineSplitter): Pass {
    if HasSummary(d) then
      var summary := d.brainstormSummary.value;
      var lines := split(summary, 170);
      Draw(Draw(Guard(p, 250), Label(SummaryCaption), 7), Value(summary, lines), lines * 7 + 10)
    else p
  }

  /** One bullet: the 270 check, then the bullet and 6 lower per line. */
  function PointPass(p: Pass, point: string, split: LineSplitter): Pass {
    var lines := split(PointMarker + point, 160);
    Draw(Guard(p, 270), Bullet(point, lines), lines * 6)
  }

  function PointsPass(p: Pass, points: seq<string>, split: LineSplitter): Pass
    decreases |points|
  {
    if points == [] then p
    else PointPass(PointsPass(p, points[..|points| - 1], split), points[|points| - 1], split)
  }

  /** One slide: the 260 check, the heading and 7 lower, the bullets, then
      5 lower. */
  function SlidePass(p: Pass, index: nat, slide: Slide, split: LineSplitter): Pass {
    var headed := Draw(Guard(p, 260), Heading(index + 1, slide.title), 7);
    var q := PointsPass(headed, slide.points, split);
    Pass(q.drawn, Cursor(q.at.y + 5, q.at.page))
  }

  lemma PointsPassStep(p: Pass, points: seq<string>, j: nat, split: LineSplitter)
    requires j < |points|
    ensures PointsPass(p, points[..j + 1], split) == PointPass(PointsPass(p, points[..j], split), points[j], split)
  {
    assert points[..j + 1][..j] == points[..j];
  }

  function SlidesPass(p: Pass, slides: seq<Slide>, split: LineSplitter): Pass
    decreases |slides|
  {
    if slides == [] then p
    else SlidePass(SlidesPass(p, slides[..|slides| - 1], split), |slides| - 1, slides[|slides| - 1], split)
  }

  /** The outline section: the 200 check, the label and 10 lower, then the
      slides. */
  function OutlinePass(p: Pass, d: IdeaDocument, split: LineSplitter): Pass {
    match d.outline
    case OutlineSlides(slides) => SlidesPass(Draw(Guard(p, 200), Label(OutlineCaption), 10), slides, split)
    case _ => p
  }

  /** The whole first pass; its page is the document's page count. */
  function FirstPass(d: IdeaDocument, split: LineSplitter): Pass {
    OutlinePass(SummaryPass(HeaderPass(d, split), d, split), d, split)
  }

  // ---------------------------------------------------------------------
  // What the reference says about page breaks.

  /** The bullets never go back a page, and on the page they start on they
      only move the cursor down. */
  lemma {:induction false} PointsMoveOn(p: Pass, points: seq<string>, split: LineSplitter)
    ensures PointsPass(p, points, split).at.page >= p.at.page
    ensures PointsPass(p, points, split).at.page == p.at.page ==> PointsPass(p, points, split).at.y >= p.at.y
    decreases |points|
  {
    if points != [] {
      PointsMoveOn(p, points[..|points| - 1], split);
    }
  }

  /** A slide that stays on the page it starts on starts no lower than 260
      and moves the cursor down at least 12 (the heading's 7 and the
      closing 5). */
  lemma SlideMoveOn(p: Pass, index: nat, slide: Slide, split: LineSplitter)
    ensures SlidePass(p, index, slide, split).at.page >= p.at.page
    ensures SlidePass(p, index, slide, split).at.page == p.at.page ==>
              p.at.y <= 260 && SlidePass(p, index, slide, split).at.y >= p.at.y + 12
  {
    var headed := Draw(Guard(p, 260), Heading(index + 1, slide.title), 7);
    PointsMoveOn(headed, slide.points, split);
  }

  /** Slides that all stay on the page they start on: each of them started
      no lower than 260, 12 apart at least. */
  lemma {:induction false} SlidesMoveOn(p: Pass, slides: seq<Slide>, split: LineSplitter)
    ensures SlidesPass(p, slides, split).at.page >= p.at.page
    ensures SlidesPass(p, slides, split).at.page == p.at.page && slides != [] ==>
              p.at.y + 12 * (|slides| - 1) <= 260 && SlidesPass(p, slides, split).at.y >= p.at.y + 12 * |slides|
    decreases |slides|
  {
    if slides != [] {
      var n := |slides| - 1;
      var q := SlidesPass(p, slides[..n], split);
      SlidesMoveOn(p, slides[..n], split);
      SlideMoveOn(q, n, slides[n], split);
    }
  }

  /** The cursor never rises above the top margin. */
  lemma SummaryBelowMargin(p: Pass, d: IdeaDocument, split: LineSplitter)
    requires p.at.y >= 20 && p.at.page >= 1
    ensures SummaryPass(p, d, split).at.y >= 20 && SummaryPass(p, d, split).at.page >= 1
  {
  }

  /** An outline of more than 20 slides cannot fit below the outline
      label on one page: the document has at least two pages. */
  lemma ManySlidesBreak(d: IdeaDocument, split: LineSplitter)
    requires d.outline.OutlineSlides? && |d.outline.slides| > 20
    ensures FirstPass(d, split).at.page >= 2
  {
    var before := SummaryPass(HeaderPass(d, split), d, split);
    SummaryBelowMargin(HeaderPass(d, split), d, split);
    var labelled := Draw(Guard(before, 200), Label(OutlineCaption), 10);
    assert labelled.at.y >= 30;
    SlidesMoveOn(labelled, d.outline.slides, split);
  }

  /** `doc.text(...)` at the cursor, then `y += advance`. */
  method Put(doc0: Doc, y0: int, b: Block, advance: nat, ghost header: seq<Entry>) returns (doc: Doc, y: int)
    requires Laid(doc0, y0, header) && WellPlaced(Item(b, y0))
    ensures At(doc, y) == Draw(At(doc0, y0), b, advance)
    ensures Laid(doc, y, header) && Filled(doc)
    ensures Blocks(doc.entries) == Blocks(doc0.entries) + [b]
  {
    PlaceKeeps(doc0, y0, header, b, y0 + advance);
    doc := DrawText(doc0, Item(b, y0));
    y := y0 + advance;
  }

  /** `if (y > limit) { doc.addPage(); y = 20 }` */
  method BreakBelow(doc0: Doc, y0: int, limit: int, ghost header: seq<Entry>) returns (doc: Doc, y: int)
    requires Laid(doc0, y0, header) && 20 <= limit
    ensures At(doc, y) == Guard(At(doc0, y0), limit)
    ensures Laid(doc, y, header)
  {
    doc, y := doc0, y0;
    if y > limit {
      BreakKeeps(doc, y, header);
      doc := AddPage(doc);
      y := 20;
    }
  }

  /** The title block and the four fields, which always fit on the first
      page: ten entries, all on page 1, and with them the first-pass
      facts. */
  method LayoutHeader(data: IdeaDocument, split: LineSplitter) returns (doc: Doc, y: int)
    ensures At(doc, y) == HeaderPass(data, split)
    ensures doc.pageCount == 1 && |doc.entries| == 10
    ensures forall i :: 0 <= i < |doc.entries| ==> doc.entries[i].page == 1
    ensures Laid(doc, y, doc.entries) && Filled(doc)
    ensures Blocks(doc.entries) == HeaderBlocks(data, split)
    ensures y == 108 + 7 * (split(data.title, 170) + split(data.description, 170))
  {
    doc := NewDoc();
    doc, y := Put(doc, 20, Banner(AppName), 10, []);
    doc, y := Put(doc, 30, Banner(DocumentName), 15, []);
    var titleLines := split(data.title, 170);
    var descLines := split(data.description, 170);
    doc, y := Field(doc, y, TitleCaption, data.title, titleLines, 5);
    doc, y := Field(doc, y, AuthorCaption, data.author, 1, 3);
    doc, y := Field(doc, y, CreatedCaption, data.timestamp, 1, 3);
    doc, y := Field(doc, y, DescriptionCaption, data.description, descLines, 10);
    HeaderInFields(data, split);
    OnOnePage(doc.entries);
  }

  lemma OnOnePage(entries: seq<Entry>)
    requires Flowing(entries) && entries != [] && entries[|entries| - 1].page == 1
    ensures forall i :: 0 <= i < |entries| ==> entries[i].page == 1
  {
    FlowingIsPaginated(entries);
  }

  /** The header as the six texts drawn one after another. */
  lemma HeaderInFields(d: IdeaDocument, split: LineSplitter)
    ensures HeaderBlocks(d, split)
         == [] + [Banner(AppName)] + [Banner(DocumentName)]
            + [Label(TitleCaption), Value(d.title, split(d.title, 170))]
            + [Label(AuthorCaption), Value(d.author, 1)]
            + [Label(CreatedCaption), Value(d.timestamp, 1)]
            + [Label(DescriptionCaption), Value(d.description, split(d.description, 170))]
  {
  }

  /** One labelled field of the header: the label, then 7 lower the value
      over `lines` lines of 7, then `gap` more. */
  method Field(doc0: Doc, y0: int, caption: Caption, value: string, lines: LineCount, gap: nat)
    returns (doc: Doc, y: int)
    requires caption in {TitleCaption, AuthorCaption, CreatedCaption, DescriptionCaption}
    requires Laid(doc0, y0, [])
    ensures At(doc, y) == FieldPass(At(doc0, y0), caption, value, lines, gap)
    ensures Laid(doc, y, []) && Filled(doc)
    ensures Blocks(doc.entries) == Blocks(doc0.entries) + [Label(caption), Value(value, lines)]
  {
    doc, y := Put(doc0, y0, Label(caption), 7, []);
    doc, y := Put(doc, y, Value(value, lines), lines * 7 + gap, []);
    Regroup(Blocks(doc0.entries), [Label(caption)], [Value(value, lines)]);
    assert [Label(caption)] + [Value(value, lines)] == [Label(caption), Value(value, lines)];
  }

  /** The summary section, when there is a summary: a break when the cursor
      is below 250, the label, then the wrapped summary. */
  method LayoutSummary(doc0: Doc, y0: int, data: IdeaDocument, split: LineSplitter, ghost header: seq<Entry>)
    returns (doc: Doc, y: int)
    requires Laid(doc0, y0, header) && Filled(doc0)
    ensures At(doc, y) == SummaryPass(At(doc0, y0), data, split)
    ensures Laid(doc, y, header) && Filled(doc)
    ensures Blocks(doc.entries) == Blocks(doc0.entries) + SummaryBlocks(data, split)
  {
    doc, y := doc0, y0;
    if HasSummary(data) {
      var summary := data.brainstormSummary.value;
      doc, y := BreakBelow(doc, y, 250, header);
      doc, y := Put(doc, y, Label(SummaryCaption), 7, header);
      var summaryLines := split(summary, 170);
      doc, y := Put(doc, y, Value(summary, summaryLines), summaryLines * 7 + 10, header);
    }
  }

  /** The outline section, when the outline has a slide list: a break when
      the cursor is below 200, the label, then the slides. */
  method LayoutOutline(doc0: Doc, y0: int, data: IdeaDocument, split: LineSplitter, ghost header: seq<Entry>)
    returns (doc: Doc, y: int)
    requires Laid(doc0, y0, header) && Filled(doc0)
    ensures At(doc, y) == OutlinePass(At(doc0, y0), data, split)
    ensures Laid(doc, y, header) && Filled(doc)
    ensures Blocks(doc.entries) == Blocks(doc0.entries) + OutlineBlocks(data, split)
  {
    doc, y := doc0, y0;
    if data.outline.OutlineSlides? {
      doc, y := BreakBelow(doc, y, 200, header);
      doc, y := Put(doc, y, Label(OutlineCaption), 10, header);
      doc, y := LayoutSlides(doc, y, data.outline.slides, split, header);
      Regroup(Blocks(doc0.entries), [Label(OutlineCaption)], SlidesBlocks(data.outline.slides, split));
    }
  }

  /** `data.outline.slides.forEach(...)`. */
  method LayoutSlides(doc0: Doc, y0: int, slides: seq<Slide>, split: LineSplitter, ghost header: seq<Entry>)
    returns (doc: Doc, y: int)
    requires Laid(doc0, y0, header) && Filled(doc0)
    ensures At(doc, y) == SlidesPass(At(doc0, y0), slides, split)
    ensures Laid(doc, y, header) && Filled(doc)
    ensures Blocks(doc.entries) == Blocks(doc0.entries) + SlidesBlocks(slides, split)
  {
    doc, y := doc0, y0;
    var index := 0;
    while index < |slides|
      invariant 0 <= index <= |slides|
      invariant At(doc, y) == SlidesPass(At(doc0, y0), slides[..index], split)
      invariant Laid(doc, y, header) && Filled(doc)
      invariant Blocks(doc.entries) == Blocks(doc0.entries) + SlidesBlocks(slides[..index], split)
    {
      doc, y := LayoutSlide(doc, y, index, slides[index], split, header);
      assert slides[..index + 1][..index] == slides[..index];
      Regroup(Blocks(doc0.entries), SlidesBlocks(slides[..index], split), SlideBlocks(index, slides[index], split));
      index := index + 1;
    }
    assert slides[..index] == slides;
  }

  /** One slide: a break when the cursor is below 260, the numbered
      title, the bullets, then 5 more. */
  method LayoutSlide(doc0: Doc, y0: int, index: nat, slide: Slide, split: LineSplitter, ghost header: seq<Entry>)
    returns (doc: Doc, y: int)
    requires Laid(doc0, y0, header) && Filled(doc0)
    ensures At(doc, y) == SlidePass(At(doc0, y0), index, slide, split)
    ensures Laid(doc, y, header) && Filled(doc)
    ensures Blocks(doc.entries) == Blocks(doc0.entries) + SlideBlocks(index, slide, split)
  {
    doc, y := BreakBelow(doc0, y0, 260, header);
    doc, y := Put(doc, y, Heading(index + 1, slide.title), 7, header);
    doc, y := LayoutPoints(doc, y, slide.points, split, header);
    AdvanceKeeps(doc, y, header, y + 5);
    y := y + 5;
    Regroup(Blocks(doc0.entries), [Heading(index + 1, slide.title)], BulletBlocks(slide.points, split));
  }

  /** `slide.points.forEach(...)`: each bullet guarded by the 270
      threshold, advancing the cursor 6 per wrapped line. */
  method LayoutPoints(doc0: Doc, y0: int, points: seq<string>, split: LineSplitter, ghost header: seq<Entry>)
    returns (doc: Doc, y: int)
    requires Laid(doc0, y0, header) && Filled(doc0)
    ensures At(doc, y) == PointsPass(At(doc0, y0), points, split)
    ensures Laid(doc, y, header) && Filled(doc)
    ensures Blocks(doc.entries) == Blocks(doc0.entries) + BulletBlocks(points, split)
  {
    doc, y := doc0, y0;
    var j := 0;
    while j < |points|
      invariant 0 <= j <= |points|
      invariant At(doc, y) == PointsPass(At(doc0, y0), points[..j], split)
      invariant Laid(doc, y, header) && Filled(doc)
      invariant Blocks(doc.entries) == Blocks(doc0.entries) + BulletBlocks(points[..j], split)
    {
      doc, y := LayoutPoint(doc, y, points[j], split, header);
      PointsPassStep(At(doc0, y0), points, j, split);
      assert points[..j + 1][..j] == points[..j];
      Regroup(Blocks(doc0.entries), BulletBlocks(points[..j], split), [BulletBlock(points[j], split)]);
      j := j + 1;
    }
    assert points[..j] == points;
  }

  /** One bullet: a break when the cursor is below 270, then the marked
      point over its wrapped lines. */
  method LayoutPoint(doc0: Doc, y0: int, point: string, split: LineSplitter, ghost header: seq<Entry>)
    returns (doc: Doc, y: int)
    requires Laid(doc0, y0, header) && Filled(doc0)
    ensures At(doc, y) == PointPass(At(doc0, y0), point, split)
    ensures Laid(doc, y, header) && Filled(doc)
    ensures Blocks(doc.entries) == Blocks(doc0.entries) + [BulletBlock(point, split)]
  {
    doc, y := BreakBelow(doc0, y0, 270, header);
    var pointLines := split(PointMarker + point, 160);
    doc, y := Put(doc, y, Bullet(point, pointLines), pointLines * 6, header);
  }

  /** The second pass: `for (let i = 1; i <= pageCount; i++)` sets page
      `i` and draws its footer. */
  method StampFooters(doc0: Doc, timestamp: string) returns (doc: Doc)
    ensures doc.pageCount == doc0.pageCount
    ensures doc.entries == doc0.entries + Footers(doc0.pageCount, timestamp)
  {
    doc := doc0;
    var pageCount := doc.pageCount;
    var i := 1;
    while i <= pageCount
      invariant 1 <= i <= pageCount + 1
      invariant doc.pageCount == pageCount
      invariant doc.entries == doc0.entries + Footers(pageCount, timestamp)[..i - 1]
    {
      doc := SetPage(doc, i);
      doc := DrawText(doc, FooterItem(i, pageCount, timestamp));
      assert Footers(pageCount, timestamp)[..i] == Footers(pageCount, timestamp)[..i - 1] + [Entry(i, FooterItem(i, pageCount, timestamp))];
      i := i + 1;
    }
    assert Footers(pageCount, timestamp)[..pageCount] == Footers(pageCount, timestamp);
  }

  /** `generateIdeaPDF`. The first pass draws exactly `FirstPass`: the
      document's contents in reading order, each at the cursor and on the
      page the reference gives, and its last page is the page count `n`.
      The banner and the four fields come first, all on page 1; the
      drawing order starts on page 1, ends on page `n` and moves down the
      pages, every later page starting at the top margin and every guarded
      block starting no lower than its threshold. The second pass then
      gives page `i` of `n` its footer `Page i of n | Generated:
      <timestamp>`, which ends that page's items. */
  method GenerateIdeaPdf(data: IdeaDocument, split: LineSplitter) returns (doc: Doc)
    ensures var first := FirstPass(data, split);
            && doc.pageCount == first.at.page
            && doc.entries == first.drawn + Footers(doc.pageCount, data.timestamp)
            && Blocks(first.drawn) == Contents(data, split)
            && |first.drawn| >= 10 && (forall i :: 0 <= i < 10 ==> first.drawn[i].page == 1)
            && Paginated(first.drawn)
            && first.drawn[|first.drawn| - 1].page == doc.pageCount
    ensures doc.pageCount >= 1
    ensures forall p :: 1 <= p <= doc.pageCount ==>
              ClosedByFooter(PageItems(doc.entries, p), FooterItem(p, doc.pageCount, data.timestamp))
  {
    var y;
    doc, y := LayoutHeader(data, split);
    ghost var header := doc.entries;
    doc, y := LayoutSummary(doc, y, data, split, header);
    doc, y := LayoutOutline(doc, y, data, split, header);
    ghost var laid := doc;
    doc := StampFooters(doc, data.timestamp);
    FinishLayout(laid, y, header, doc, data.timestamp);
  }

  /** A page's items end with its footer, after at least one other item. */
  predicate ClosedByFooter(items: seq<Item>, footer: Item) {
    |items| >= 2 && items[|items| - 1] == footer
  }

  /** The first pass's facts, read off the finished document. */
  lemma FinishLayout(laid: Doc, y: int, header: seq<Entry>, doc: Doc, timestamp: string)
    requires Laid(laid, y, header) && Filled(laid)
    requires |header| == 10 && forall i :: 0 <= i < |header| ==> header[i].page == 1
    requires doc.pageCount == laid.pageCount
    requires doc.entries == laid.entries + Footers(laid.pageCount, timestamp)
    ensures doc.pageCount >= 1 && |laid.entries| >= 10
    ensures forall i :: 0 <= i < 10 ==> laid.entries[i].page == 1
    ensures Paginated(laid.entries)
    ensures laid.entries[|laid.entries| - 1].page == doc.pageCount
    ensures forall p :: 1 <= p <= doc.pageCount ==>
              ClosedByFooter(PageItems(doc.entries, p), FooterItem(p, doc.pageCount, timestamp))
  {
    assert forall i :: 0 <= i < 10 ==> laid.entries[i] == header[i];
    FlowingIsPaginated(laid.entries);
    FinishPages(laid, doc, timestamp);
  }

  lemma {:induction false} PageItemsAppend(a: seq<Entry>, b: seq<Entry>, p: nat)
    ensures PageItems(a + b, p) == PageItems(a, p) + PageItems(b, p)
    decreases |b|
  {
    if b == [] {
      assert a + b == a;
    } else {
      assert (a + b)[..|a + b| - 1] == a + b[..|b| - 1];
      PageItemsAppend(a, b[..|b| - 1], p);
    }
  }

  /** The first `k` footers put one item on each of pages 1 to `k`. */
  lemma {:induction false} FootersOnPages(count: nat, timestamp: string, k: nat, p: nat)
    requires k <= count
    ensures PageItems(Footers(count, timestamp)[..k], p)
         == if 1 <= p <= k then [FooterItem(p, count, timestamp)] else []
    decreases k
  {
    if k > 0 {
      var f := Footers(count, timestamp);
      assert f[..k][..k - 1] == f[..k - 1];
      FootersOnPages(count, timestamp, k - 1, p);
    }
  }

  /** A flowing drawing order leaves no page up to its last one empty. */
  lemma {:induction false} FlowingCovers(entries: seq<Entry>, p: nat)
    requires Flowing(entries) && entries != []
    requires 1 <= p <= entries[|entries| - 1].page
    ensures PageItems(entries, p) != []
    decreases |entries|
  {
    var n := |entries| - 1;
    if p != entries[n].page {
      assert n > 0 && Follows(entries[n - 1], entries[n]);
      assert entries[..n][n - 1] == entries[n - 1];
      FlowingCovers(entries[..n], p);
    }
  }

  /** Each page ends with its own footer, after at least one other item. */
  lemma FinishPages(laid: Doc, doc: Doc, timestamp: string)
    requires Flowing(laid.entries) && Filled(laid)
    requires doc.pageCount == laid.pageCount
    requires doc.entries == laid.entries + Footers(laid.pageCount, timestamp)
    ensures forall p :: 1 <= p <= doc.pageCount ==>
              ClosedByFooter(PageItems(doc.entries, p), FooterItem(p, doc.pageCount, timestamp))
  {
    forall p | 1 <= p <= doc.pageCount
      ensures ClosedByFooter(PageItems(doc.entries, p), FooterItem(p, doc.pageCount, timestamp))
    {
      FinishPage(laid.entries, laid.pageCount, timestamp, p);
    }
  }

  /** Page `p` of the finished document: its first-pass items, then its
      footer. */
  lemma FinishPage(entries: seq<Entry>, count: nat, timestamp: string, p: nat)
    requires Flowing(entries) && entries != [] && entries[|entries| - 1].page == count
    requires 1 <= p <= count
    ensures ClosedByFooter(PageItems(entries + Footers(count, timestamp), p), FooterItem(p, count, timestamp))
  {
    var footers := Footers(count, timestamp);
    PageItemsAppend(entries, footers, p);
    FootersOnPages(count, timestamp, count, p);
    assert footers[..count] == footers;
    FlowingCovers(entries, p);
  }

  // ---------------------------------------------------------------------
  // `calculateSHA256`: only whether the promise resolves, and with what.

  /** How the `FileReader` finishes: `onload` with its result (null when
      nothing was read), or `onerror`. */
  datatype ReadEvent = Loaded(result: Option<seq<bv8>>) | ReadFailed

  datatype Settled = Resolved(hash: string) | Rejected(message: string)

  const ReadError := "Failed to read blob"

  /** The promise resolves with the digest of the bytes read, and only
      when the read produced a result; otherwise it rejects with the fixed
      message. The digest itself is the parameter `sha256`. */
  function CalculateSha256(event: ReadEvent, sha256: seq<bv8> -> string): (r: Settled)
    ensures r.Resolved? <==> event.Loaded? && event.result.Some?
    ensures r.Resolved? ==> r.hash == sha256(event.result.value)
    ensures r.Rejected? ==> r.message == ReadError
  {
    match event
    case Loaded(Some(bytes)) => Resolved(sha256(bytes))
    case Loaded(None) => Rejected(ReadError)
    case ReadFailed => Rejected(ReadError)
  }
}
