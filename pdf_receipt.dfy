/** The page layout of the printable receipt, `generatePDF` in
    src/helpers/index.js. The document is modelled by the drawing calls made
    on it, in order; fonts, colours, glyph widths and the rendering itself
    belong to the PDF library and are not modelled. Line wrapping
    (`splitTextToSize`) is a parameter. */
module PdfReceipt {
  import opened JsValues
  import opened Helpers

  /** The drawing calls whose coordinates matter. */
  datatype DocOp =
    | NewPage
    | Text(text: string, x: int, y: int)
    | Line(x1: int, y1: int, x2: int, y2: int)

  /** Height of the library's default page (A4 portrait, in mm). The exact
      height is 297.00008; every y used here is an integer, so comparing
      with 297 decides every test the same way. */
  const A4_HEIGHT := 297
  /** Margin kept free at the bottom of each page by the page-break test. */
  const BOTTOM_MARGIN := 20
  /** Where writing resumes on a new page. */
  const TOP := 30

  /** A document under construction: the calls made on it so far. */
  class PdfDoc {
    var ops: seq<DocOp>
    const pageHeight: int

    constructor (pageHeight: int)
      ensures this.pageHeight == pageHeight && ops == []
    {
      this.pageHeight := pageHeight;
      ops := [];
    }

    method AddPage()
      modifies this
      ensures ops == old(ops) + [NewPage]
    {
      ops := ops + [NewPage];
    }

    method DrawText(text: string, x: int, y: int)
      modifies this
      ensures ops == old(ops) + [Text(text, x, y)]
    {
      ops := ops + [Text(text, x, y)];
    }

    method DrawLine(x1: int, y1: int, x2: int, y2: int)
      modifies this
      ensures ops == old(ops) + [Line(x1, y1, x2, y2)]
    {
      ops := ops + [Line(x1, y1, x2, y2)];
    }
  }

  /** What drawing some lines did: the calls made and the y after them. */
  datatype Flow = Flow(ops: seq<DocOp>, y: int)

  /** One line of `addWrappedText`: a new page (and y back to the top) when
      the line would end below the bottom margin, then the line at y; y
      advances one line height. */
  function Step(line: string, x: int, y: int, lineHeight: int, pageHeight: int): Flow
  {
    if y + lineHeight > pageHeight - BOTTOM_MARGIN then Flow([NewPage, Text(line, x, TOP)], TOP + lineHeight)
    else Flow([Text(line, x, y)], y + lineHeight)
  }

  /** The calls `addWrappedText` makes for `lines` starting at `y`: one step
      per line, each starting where the previous one left y. */
  function Wrapped(lines: seq<string>, x: int, y: int, lineHeight: int, pageHeight: int): (r: Flow)
    ensures lines == [] ==> r == Flow([], y)
    ensures lines != [] ==> |r.ops| >= 1 && r.ops[|r.ops| - 1] == Text(lines[|lines| - 1], x, r.y - lineHeight)
    decreases |lines|
  {
    if lines == [] then Flow([], y)
    else
      var prev := Wrapped(lines[..|lines| - 1], x, y, lineHeight, pageHeight);
      var step := Step(lines[|lines| - 1], x, prev.y, lineHeight, pageHeight);
      Flow(prev.ops + step.ops, step.y)
  }

  /** The texts drawn by a run of calls, in order. */
  function Texts(ops: seq<DocOp>): seq<string>
  {
    if ops == [] then []
    else Texts(ops[..|ops| - 1]) + (if ops[|ops| - 1].Text? then [ops[|ops| - 1].text] else [])
  }

  lemma {:induction false} TextsAppend(a: seq<DocOp>, b: seq<DocOp>)
    ensures Texts(a + b) == Texts(a) + Texts(b)
    decreases |b|
  {
    if b == [] {
      assert a + b == a;
    } else {
      var b' := b[..|b| - 1];
      assert (a + b)[..|a + b| - 1] == a + b';
      TextsAppend(a, b');
    }
  }

  /** Every line is drawn once, in order, and nothing else is written. */
  lemma {:induction false} WrappedDrawsEachLine(lines: seq<string>, x: int, y: int, lineHeight: int, pageHeight: int)
    ensures Texts(Wrapped(lines, x, y, lineHeight, pageHeight).ops) == lines
    decreases |lines|
  {
    if lines != [] {
      var init := lines[..|lines| - 1];
      var last := lines[|lines| - 1];
      var prev := Wrapped(init, x, y, lineHeight, pageHeight);
      var extra := WrappedStep(lines, x, y, lineHeight, pageHeight);
      WrappedDrawsEachLine(init, x, y, lineHeight, pageHeight);
      TextsAppend(prev.ops, extra);
    }
  }

  /** The calls for all lines are those for all but the last, then the
      last step's calls, which draw the last line and nothing else. */
  lemma WrappedStep(lines: seq<string>, x: int, y: int, lineHeight: int, pageHeight: int) returns (extra: seq<DocOp>)
    requires lines != []
    ensures Wrapped(lines, x, y, lineHeight, pageHeight).ops
         == Wrapped(lines[..|lines| - 1], x, y, lineHeight, pageHeight).ops + extra
    ensures Texts(extra) == [lines[|lines| - 1]]
    ensures lines[..|lines| - 1] + [lines[|lines| - 1]] == lines
  {
    var prev := Wrapped(lines[..|lines| - 1], x, y, lineHeight, pageHeight);
    extra := Step(lines[|lines| - 1], x, prev.y, lineHeight, pageHeight).ops;
    StepTexts(lines[|lines| - 1], x, prev.y, lineHeight, pageHeight);
  }

  /** A step draws its line and nothing else. */
  lemma StepTexts(line: string, x: int, y: int, lineHeight: int, pageHeight: int)
    ensures Texts(Step(line, x, y, lineHeight, pageHeight).ops) == [line]
  {
    if y + lineHeight > pageHeight - BOTTOM_MARGIN {
      var ops := [NewPage, Text(line, x, TOP)];
      assert ops[..1] == [NewPage] && [NewPage][..0] == [];
      assert Texts([NewPage]) == [];
    } else {
      assert [Text(line, x, y)][..0] == [];
    }
  }

  /** The page-break rule, line by line: the calls for the first i + 1 lines
      are those for the first i, then a new page exactly when line i would
      end below the bottom margin, then line i, drawn at the top of the new
      page or else where the previous line left y. */
  lemma WrappedFollowsRule(lines: seq<string>, x: int, y: int, lineHeight: int, pageHeight: int)
    ensures Wrapped(lines[..0], x, y, lineHeight, pageHeight) == Flow([], y)
    ensures Wrapped(lines[..|lines|], x, y, lineHeight, pageHeight) == Wrapped(lines, x, y, lineHeight, pageHeight)
    ensures forall i :: 0 <= i < |lines| ==>
      var prev := Wrapped(lines[..i], x, y, lineHeight, pageHeight);
      var next := Wrapped(lines[..i + 1], x, y, lineHeight, pageHeight);
      && (prev.y + lineHeight > pageHeight - BOTTOM_MARGIN ==>
            next == Flow(prev.ops + [NewPage, Text(lines[i], x, TOP)], TOP + lineHeight))
      && (prev.y + lineHeight <= pageHeight - BOTTOM_MARGIN ==>
            next == Flow(prev.ops + [Text(lines[i], x, prev.y)], prev.y + lineHeight))
  {
    assert lines[..|lines|] == lines;
    forall i | 0 <= i < |lines|
      ensures var prev := Wrapped(lines[..i], x, y, lineHeight, pageHeight);
        Wrapped(lines[..i + 1], x, y, lineHeight, pageHeight)
          == Flow(prev.ops + Step(lines[i], x, prev.y, lineHeight, pageHeight).ops,
                  Step(lines[i], x, prev.y, lineHeight, pageHeight).y)
    {
      WrappedNext(lines, i, x, y, lineHeight, pageHeight);
    }
  }

  /** When one line fits between the top and the bottom margin, every line
      fits: drawn at or below `min(y, TOP)` and ending above the margin; and
      the returned y is just below the last line, above the margin too. */
  lemma {:induction false} WrappedStaysOnPage(lines: seq<string>, x: int, y: int, lineHeight: int, pageHeight: int)
    requires 0 <= lineHeight && TOP + lineHeight <= pageHeight - BOTTOM_MARGIN
    requires TOP <= y
    ensures var r := Wrapped(lines, x, y, lineHeight, pageHeight);
      && (forall i :: 0 <= i < |r.ops| && r.ops[i].Text? ==>
            TOP <= r.ops[i].y && r.ops[i].y + lineHeight <= pageHeight - BOTTOM_MARGIN)
      && (lines != [] ==> TOP + lineHeight <= r.y <= pageHeight - BOTTOM_MARGIN)
    decreases |lines|
  {
    if lines != [] {
      var init := lines[..|lines| - 1];
      var prev := Wrapped(init, x, y, lineHeight, pageHeight);
      WrappedStaysOnPage(init, x, y, lineHeight, pageHeight);
      var r := Wrapped(lines, x, y, lineHeight, pageHeight);
      forall i | 0 <= i < |r.ops| && r.ops[i].Text?
        ensures TOP <= r.ops[i].y && r.ops[i].y + lineHeight <= pageHeight - BOTTOM_MARGIN
      {
        if i < |prev.ops| {
          assert r.ops[i] == prev.ops[i];
        }
      }
    }
  }

  /** The flow of one more line extends the flow so far by one step. */
  lemma WrappedNext(lines: seq<string>, i: nat, x: int, y: int, lineHeight: int, pageHeight: int)
    requires i < |lines|
    ensures var prev := Wrapped(lines[..i], x, y, lineHeight, pageHeight);
      var step := Step(lines[i], x, prev.y, lineHeight, pageHeight);
      Wrapped(lines[..i + 1], x, y, lineHeight, pageHeight) == Flow(prev.ops + step.ops, step.y)
  {
    assert lines[..i + 1][..i] == lines[..i];
  }

  lemma AppendAssoc(a: seq<DocOp>, b: seq<DocOp>, c: seq<DocOp>)
    ensures a + (b + c) == (a + b) + c
  {
  }

  /** The body of the loop over the lines: one step, drawn. */
  method DrawStep(doc: PdfDoc, line: string, x: int, y: int, lineHeight: int) returns (yEnd: int)
    modifies doc
    ensures doc.ops == old(doc.ops) + Step(line, x, y, lineHeight, doc.pageHeight).ops
    ensures yEnd == Step(line, x, y, lineHeight, doc.pageHeight).y
  {
    yEnd := y;
    if yEnd + lineHeight > doc.pageHeight - BOTTOM_MARGIN {
      doc.AddPage();
      yEnd := TOP;
    }
    doc.DrawText(line, x, yEnd);
    yEnd := yEnd + lineHeight;
  }

  /** `addWrappedText`: wraps `text` and draws its lines from `y` down,
      adding pages as the rule demands; returns the y after the last line. */
  method AddWrappedText(doc: PdfDoc, text: string, x: int, y: int, maxWidth: int, lineHeight: int,
                        wrap: (string, int) -> seq<string>)
    returns (yEnd: int)
    modifies doc
    ensures var flow := Wrapped(wrap(text, maxWidth), x, y, lineHeight, doc.pageHeight);
      doc.ops == old(doc.ops) + flow.ops && yEnd == flow.y
  {
    var lines := wrap(text, maxWidth);
    yEnd := y;
    var i := 0;
    while i < |lines|
      invariant 0 <= i <= |lines|
      invariant doc.ops == old(doc.ops) + Wrapped(lines[..i], x, y, lineHeight, doc.pageHeight).ops
      invariant yEnd == Wrapped(lines[..i], x, y, lineHeight, doc.pageHeight).y
    {
      WrappedNext(lines, i, x, y, lineHeight, doc.pageHeight);
      ghost var prev := Wrapped(lines[..i], x, y, lineHeight, doc.pageHeight);
      ghost var step := Step(lines[i], x, yEnd, lineHeight, doc.pageHeight);
      yEnd := DrawStep(doc, lines[i], x, yEnd, lineHeight);
      AppendAssoc(old(doc.ops), prev.ops, step.ops);
      i := i + 1;
    }
    assert lines[..i] == lines;
  }

  /** Every text of the document lies between the top position and `bottom`. */
  predicate TextsWithin(ops: seq<DocOp>, bottom: int)
  {
    forall i :: 0 <= i < |ops| && ops[i].Text? ==> TOP <= ops[i].y <= bottom
  }

  /** What `splitTextToSize` promises: every text wraps to at least one line. */
  ghost predicate WrapsToLines(wrap: (string, int) -> seq<string>)
  {
    forall text, width :: |wrap(text, width)| >= 1
  }

  /** A wrapped text drawn on an A4 page keeps the texts within the page and
      leaves y above the bottom margin. */
  lemma WrappedOnA4(before: seq<DocOp>, lines: seq<string>, x: int, y: int)
    requires TextsWithin(before, A4_HEIGHT - 5) && TOP <= y && lines != []
    ensures var r := Wrapped(lines, x, y, 7, A4_HEIGHT);
      && TextsWithin(before + r.ops, A4_HEIGHT - 5)
      && TOP <= r.y <= A4_HEIGHT - BOTTOM_MARGIN
  {
    var r := Wrapped(lines, x, y, 7, A4_HEIGHT);
    WrappedStaysOnPage(lines, x, y, 7, A4_HEIGHT);
    var all := before + r.ops;
    forall i | 0 <= i < |all| && all[i].Text? ensures TOP <= all[i].y <= A4_HEIGHT - 5 {
      if i >= |before| {
        assert all[i] == r.ops[i - |before|];
      }
    }
  }

  /** Drawing `text` at y keeps the document within `bottom` when y is. */
  lemma DrawWithin(before: seq<DocOp>, op: DocOp, bottom: int)
    requires TextsWithin(before, bottom)
    requires op.Text? ==> TOP <= op.y <= bottom
    ensures TextsWithin(before + [op], bottom)
  {
    var all := before + [op];
    forall i | 0 <= i < |all| && all[i].Text? ensures TOP <= all[i].y <= bottom {
      if i == |before| {
        assert all[i] == op;
      } else {
        assert all[i] == before[i];
      }
    }
  }

  const TITLE := "Comprovante de Solicitação"
  const LINK := "Link para consulta: https://gradff-ufrj.web.app/"
  const NO_IRREGULARITY := "Nenhuma irregularidade registrada."
  const IRREGULARITIES_HEADING := "Irregularidades:"
  const OBSERVATIONS_HEADING := "Observações:"
  const MARGIN_LEFT := 20
  const WRAP_WIDTH := 170
  const LINE_HEIGHT := 7

  // ------------------------------------------------------------ the layout

  /** `addWrappedText(text, marginLeft, y, 170, 7)` on the receipt's page. */
  function WrappedA4(text: string, y: int, wrap: (string, int) -> seq<string>): Flow
  {
    Wrapped(wrap(text, WRAP_WIDTH), MARGIN_LEFT, y, LINE_HEIGHT, A4_HEIGHT)
  }

  /** The calls of `f`, then `text` wrapped from where `f` left y. */
  function Then(f: Flow, text: string, wrap: (string, int) -> seq<string>): Flow
  {
    var w := WrappedA4(text, f.y, wrap);
    Flow(f.ops + w.ops, w.y)
  }

  /** Appending a wrapped text after calls that followed `before` is
      appending `Then` after `before`. */
  lemma ThenAppend(before: seq<DocOp>, f: Flow, text: string, wrap: (string, int) -> seq<string>)
    ensures (before + f.ops) + WrappedA4(text, f.y, wrap).ops == before + Then(f, text, wrap).ops
  {
    AppendAssoc(before, f.ops, WrappedA4(text, f.y, wrap).ops);
  }

  /** The calls up to the date line: title, rule, access code and link. */
  function Banner(request: Entries): seq<DocOp>
  {
    [ Text(TITLE, MARGIN_LEFT, 30),
      Line(MARGIN_LEFT, 40, 190, 40),
      Text("Código de Acesso: " + Display(Get(request, "access_code")), MARGIN_LEFT, 50),
      Text(LINK, MARGIN_LEFT, 58) ]
  }

  /** The first calls of every receipt that gets past its date: the banner,
      the date and the requester heading, at fixed positions. */
  function Header(request: Entries, dateText: string): seq<DocOp>
  {
    Banner(request) + [Text("Data: " + dateText, MARGIN_LEFT, 66), Text("Dados do Solicitante:", MARGIN_LEFT, 81)]
  }

  /** `formatTimestamp(request.created_at ?? new Date())`: a missing creation
      time becomes a `Date`, which has no `toDate`, so only a stored
      timestamp gives a date text; every other value throws (`None`). */
  function ReceiptDate(createdAt: Value, localeDate: (int, int) -> string): (r: Option<string>)
    ensures r.Some? <==> createdAt.Timestamp?
    ensures r.Some? ==> r == FormatTimestamp(createdAt, localeDate)
  {
    if Nullish(createdAt) then None else FormatTimestamp(createdAt, localeDate)
  }

  /** `Nome: ${request.name}` and the four other requester lines, in order. */
  function RequesterFields(request: Entries): (r: seq<string>)
    ensures |r| == 5
  {
    [ "Nome: " + Display(Get(request, "name")),
      "Matrícula: " + Display(Get(request, "register")),
      "Email: " + Display(Get(request, "email")),
      "Curso: " + Display(Get(request, "course")),
      "Semestre: " + Display(Get(request, "semester")) ]
  }

  /** The five requester lines, each wrapped from where the previous one ended. */
  function RequesterFlow(request: Entries, y: int, wrap: (string, int) -> seq<string>): Flow
  {
    var t := RequesterFields(request);
    Then(Then(Then(Then(Then(Flow([], y), t[0], wrap), t[1], wrap), t[2], wrap), t[3], wrap), t[4], wrap)
  }

  /** `${index + 1}. ${item.name}`. */
  function ItemTitle(item: Value, index: nat): string
  {
    IntToString(index + 1) + ". " + Display(Prop(item, "name"))
  }

  /** `* ${item.description}`. */
  function ItemDescription(item: Value): string
  {
    "* " + Display(Prop(item, "description"))
  }

  /** One numbered irregularity at y: its title, then its description wrapped
      from one line below. */
  function ItemFlow(item: Value, index: nat, y: int, wrap: (string, int) -> seq<string>): Flow
  {
    Then(Flow([Text(ItemTitle(item, index), MARGIN_LEFT, y)], y + LINE_HEIGHT), ItemDescription(item), wrap)
  }

  /** The check before each item: a new page, and y back to the top, when
      the title line would end below the bottom margin. */
  function PageCheck(y: int): Flow
  {
    if y + LINE_HEIGHT > A4_HEIGHT - BOTTOM_MARGIN then Flow([NewPage], TOP) else Flow([], y)
  }

  /** One pass of the item loop: the page check, then the item. */
  function ItemStep(item: Value, index: nat, y: int, wrap: (string, int) -> seq<string>): Flow
  {
    var check := PageCheck(y);
    var drawn := ItemFlow(item, index, check.y, wrap);
    Flow(check.ops + drawn.ops, drawn.y)
  }

  /** The calls for `items`, numbered from 1, one loop pass each. */
  function ItemsFlow(items: seq<Value>, y: int, wrap: (string, int) -> seq<string>): Flow
    decreases |items|
  {
    if items == [] then Flow([], y)
    else
      var prev := ItemsFlow(items[..|items| - 1], y, wrap);
      var step := ItemStep(items[|items| - 1], |items| - 1, prev.y, wrap);
      Flow(prev.ops + step.ops, step.y)
  }

  /** The index of the first null or undefined item, or the number of items. */
  function FirstNullish(items: seq<Value>): (k: nat)
    ensures k <= |items|
    ensures forall j :: 0 <= j < k ==> !Nullish(items[j])
    ensures k < |items| ==> Nullish(items[k])
  {
    if items == [] || Nullish(items[0]) then 0
    else
      assert forall j :: 1 <= j < |items| ==> items[j] == items[1..][j - 1];
      1 + FirstNullish(items[1..])
  }

  /** The calls the item loop makes: every item when none is null or
      undefined; otherwise the items before the first such one and the page
      check before it, since reading its name then throws. */
  function ItemsRun(items: seq<Value>, y: int, wrap: (string, int) -> seq<string>): Flow
  {
    var k := FirstNullish(items);
    var done := ItemsFlow(items[..k], y, wrap);
    if k == |items| then done
    else
      var check := PageCheck(done.y);
      Flow(done.ops + check.ops, check.y)
  }

  /** The irregularity section from y: its heading 15 below, then the items
      from 25 below, or a line saying there are none when
      `irregularities?.length` is falsy. When the value has a truthy
      `length` but no `forEach`, the heading is all that is drawn. */
  function IrregularitySection(irregularities: Value, y: int, wrap: (string, int) -> seq<string>): Flow
  {
    var heading := Flow([Text(IRREGULARITIES_HEADING, MARGIN_LEFT, y + 15)], y + 25);
    if LengthWithoutForEach(irregularities) then heading
    else if irregularities.Array? && |irregularities.items| > 0 then
      var run := ItemsRun(irregularities.items, heading.y, wrap);
      Flow(heading.ops + run.ops, run.y)
    else Then(heading, NO_IRREGULARITY, wrap)
  }

  /** `obs || '—'` as drawn. */
  function ObservationText(obs: Value): string
  {
    if Truthy(obs) then Display(obs) else "—"
  }

  /** The observations section from y: its heading 15 below, then the text
      wrapped from 23 below. */
  function ObservationsFlow(obs: Value, y: int, wrap: (string, int) -> seq<string>): Flow
  {
    Then(Flow([Text(OBSERVATIONS_HEADING, MARGIN_LEFT, y + 15)], y + 23), ObservationText(obs), wrap)
  }

  /** Whether `request.irregularities?.length` is truthy for a value that has
      no `forEach`, so that the loop over it throws a TypeError. */
  predicate LengthWithoutForEach(irregularities: Value)
  {
    match irregularities
    case Str(s) => s != ""
    case Object(entries) => Truthy(Get(entries, "length"))
    case _ => false
  }

  /** Whether the irregularity section throws a TypeError, so that the
      receipt is never saved: the loop runs over a value without `forEach`,
      or reaches an item that is null or undefined. */
  predicate IrregularitiesThrow(irregularities: Value)
  {
    || LengthWithoutForEach(irregularities)
    || (irregularities.Array? && exists i :: 0 <= i < |irregularities.items| && Nullish(irregularities.items[i]))
  }

  /** Every call `generatePDF` makes on the document, in order, up to the
      save or to the statement that throws. */
  function ReceiptOps(request: Entries, localeDate: (int, int) -> string, wrap: (string, int) -> seq<string>): seq<DocOp>
  {
    match ReceiptDate(Get(request, "created_at"), localeDate)
    case None => Banner(request)
    case Some(date) =>
      var fields := RequesterFlow(request, 91, wrap);
      var section := IrregularitySection(Get(request, "irregularities"), fields.y, wrap);
      Header(request, date) + fields.ops + section.ops
        + if IrregularitiesThrow(Get(request, "irregularities")) then []
          else ObservationsFlow(Get(request, "obs"), section.y, wrap).ops
  }

  // ------------------------------------------------ what the receipt says

  /** The titles and wrapped descriptions of `items`, numbered from 1. */
  function ItemsTexts(items: seq<Value>, wrap: (string, int) -> seq<string>): seq<string>
    decreases |items|
  {
    if items == [] then []
    else
      var n := |items| - 1;
      ItemsTexts(items[..n], wrap) + ([ItemTitle(items[n], n)] + wrap(ItemDescription(items[n]), WRAP_WIDTH))
  }

  /** The banner's texts: title, access code and link. */
  function BannerTexts(request: Entries): seq<string>
  {
    [TITLE, "Código de Acesso: " + Display(Get(request, "access_code")), LINK]
  }

  /** The header's texts: the banner's, the date and the requester heading. */
  function HeaderTexts(request: Entries, date: string): seq<string>
  {
    BannerTexts(request) + ["Data: " + date, "Dados do Solicitante:"]
  }

  /** The lines of the five requester fields, in order. */
  function RequesterTexts(request: Entries, wrap: (string, int) -> seq<string>): seq<string>
  {
    var f := RequesterFields(request);
    wrap(f[0], WRAP_WIDTH) + wrap(f[1], WRAP_WIDTH) + wrap(f[2], WRAP_WIDTH)
      + wrap(f[3], WRAP_WIDTH) + wrap(f[4], WRAP_WIDTH)
  }

  /** The irregularity section's texts: the heading, then the items up to any
      that throws, or the line saying there are none. */
  function SectionTexts(irregularities: Value, wrap: (string, int) -> seq<string>): seq<string>
  {
    [IRREGULARITIES_HEADING]
      + if LengthWithoutForEach(irregularities) then []
        else if irregularities.Array? && |irregularities.items| > 0 then
          ItemsTexts(irregularities.items[..FirstNullish(irregularities.items)], wrap)
        else wrap(NO_IRREGULARITY, WRAP_WIDTH)
  }

  /** The observation section's texts: the heading, then `obs || '—'`. */
  function ObservationTexts(obs: Value, wrap: (string, int) -> seq<string>): seq<string>
  {
    [OBSERVATIONS_HEADING] + wrap(ObservationText(obs), WRAP_WIDTH)
  }

  /** The texts of the receipt in reading order, without their positions:
      the banner; then, past the date, the requester's lines, the
      irregularities up to any that throws, and the observations unless the
      irregularity section threw. */
  function ReceiptTexts(request: Entries, localeDate: (int, int) -> string, wrap: (string, int) -> seq<string>): seq<string>
  {
    match ReceiptDate(Get(request, "created_at"), localeDate)
    case None => BannerTexts(request)
    case Some(date) =>
      HeaderTexts(request, date) + RequesterTexts(request, wrap) + SectionTexts(Get(request, "irregularities"), wrap)
        + if IrregularitiesThrow(Get(request, "irregularities")) then [] else ObservationTexts(Get(request, "obs"), wrap)
  }

  lemma TextsOne(op: DocOp)
    ensures Texts([op]) == if op.Text? then [op.text] else []
  {
    assert [op][..0] == [];
  }

  lemma ThenTexts(f: Flow, text: string, wrap: (string, int) -> seq<string>)
    ensures Texts(Then(f, text, wrap).ops) == Texts(f.ops) + wrap(text, WRAP_WIDTH)
  {
    var w := WrappedA4(text, f.y, wrap);
    TextsAppend(f.ops, w.ops);
    WrappedDrawsEachLine(wrap(text, WRAP_WIDTH), MARGIN_LEFT, f.y, LINE_HEIGHT, A4_HEIGHT);
  }

  /** A flow that starts with one text reads as that text, then the rest. */
  lemma HeadedTexts(op: DocOp, f: Flow, text: string, wrap: (string, int) -> seq<string>)
    requires op.Text? && f.ops == [op]
    ensures Texts(Then(f, text, wrap).ops) == [op.text] + wrap(text, WRAP_WIDTH)
  {
    ThenTexts(f, text, wrap);
    TextsOne(op);
  }

  lemma BannerDrawsTexts(request: Entries)
    ensures Texts(Banner(request)) == BannerTexts(request)
  {
    var b := Banner(request);
    assert Texts(b[..1]) == [TITLE] by {
      assert b[..1] == [b[0]];
      TextsOne(b[0]);
    }
    assert Texts(b[..2]) == [TITLE] by {
      assert b[..2][..1] == b[..1];
    }
    assert Texts(b[..3]) == [TITLE, b[2].text] by {
      assert b[..3][..2] == b[..2];
    }
    assert b[..3] == b[..|b| - 1];
  }

  lemma HeaderDrawsTexts(request: Entries, date: string)
    ensures Texts(Header(request, date)) == HeaderTexts(request, date)
  {
    var tail := [Text("Data: " + date, MARGIN_LEFT, 66), Text("Dados do Solicitante:", MARGIN_LEFT, 81)];
    BannerDrawsTexts(request);
    TextsAppend(Banner(request), tail);
    assert Texts(tail[..1]) == ["Data: " + date] by {
      assert tail[..1] == [tail[0]];
      TextsOne(tail[0]);
    }
  }

  lemma RequesterDrawsTexts(request: Entries, y: int, wrap: (string, int) -> seq<string>)
    ensures Texts(RequesterFlow(request, y, wrap).ops) == RequesterTexts(request, wrap)
  {
    var t := RequesterFields(request);
    var w := seq(5, i requires 0 <= i < 5 => wrap(t[i], WRAP_WIDTH));
    var f0 := Flow([], y);
    var f1 := Then(f0, t[0], wrap);
    var f2 := Then(f1, t[1], wrap);
    var f3 := Then(f2, t[2], wrap);
    var f4 := Then(f3, t[3], wrap);
    assert Texts(f1.ops) == w[0] by {
      ThenTexts(f0, t[0], wrap);
    }
    assert Texts(f2.ops) == w[0] + w[1] by {
      ThenTexts(f1, t[1], wrap);
    }
    assert Texts(f3.ops) == w[0] + w[1] + w[2] by {
      ThenTexts(f2, t[2], wrap);
    }
    assert Texts(f4.ops) == w[0] + w[1] + w[2] + w[3] by {
      ThenTexts(f3, t[3], wrap);
    }
    ThenTexts(f4, t[4], wrap);
  }

  /** A page check draws no text. */
  lemma PageCheckTexts(y: int)
    ensures Texts(PageCheck(y).ops) == []
  {
    TextsOne(NewPage);
  }

  /** One loop pass draws the item's title, then its description's lines. */
  lemma ItemStepTexts(item: Value, index: nat, y: int, wrap: (string, int) -> seq<string>)
    ensures Texts(ItemStep(item, index, y, wrap).ops) == [ItemTitle(item, index)] + wrap(ItemDescription(item), WRAP_WIDTH)
  {
    var check := PageCheck(y);
    var title := Text(ItemTitle(item, index), MARGIN_LEFT, check.y);
    TextsAppend(check.ops, ItemFlow(item, index, check.y, wrap).ops);
    PageCheckTexts(y);
    HeadedTexts(title, Flow([title], check.y + LINE_HEIGHT), ItemDescription(item), wrap);
  }

  /** The item calls draw each title, then its description's lines, in order. */
  lemma {:induction false} ItemsFlowTexts(items: seq<Value>, y: int, wrap: (string, int) -> seq<string>)
    ensures Texts(ItemsFlow(items, y, wrap).ops) == ItemsTexts(items, wrap)
    decreases |items|
  {
    if items != [] {
      var n := |items| - 1;
      var prev := ItemsFlow(items[..n], y, wrap);
      var step := ItemStep(items[n], n, prev.y, wrap);
      assert ItemsFlow(items, y, wrap).ops == prev.ops + step.ops;
      ItemsFlowTexts(items[..n], y, wrap);
      TextsAppend(prev.ops, step.ops);
      ItemStepTexts(items[n], n, prev.y, wrap);
    }
  }

  /** The item loop draws the items before the first that throws. */
  lemma ItemsRunTexts(items: seq<Value>, y: int, wrap: (string, int) -> seq<string>)
    ensures Texts(ItemsRun(items, y, wrap).ops) == ItemsTexts(items[..FirstNullish(items)], wrap)
  {
    var k := FirstNullish(items);
    var done := ItemsFlow(items[..k], y, wrap);
    ItemsFlowTexts(items[..k], y, wrap);
    if k < |items| {
      TextsAppend(done.ops, PageCheck(done.y).ops);
      PageCheckTexts(done.y);
    } else {
      assert items[..k] == items;
    }
  }

  /** The irregularity section draws its heading, then its items or the line saying there are none. */
  lemma SectionDrawsTexts(irregularities: Value, y: int, wrap: (string, int) -> seq<string>)
    ensures Texts(IrregularitySection(irregularities, y, wrap).ops) == SectionTexts(irregularities, wrap)
  {
    var headingOp := Text(IRREGULARITIES_HEADING, MARGIN_LEFT, y + 15);
    var heading := Flow([headingOp], y + 25);
    TextsOne(headingOp);
    if LengthWithoutForEach(irregularities) {
      assert [IRREGULARITIES_HEADING] + [] == [IRREGULARITIES_HEADING];
    } else if irregularities.Array? && |irregularities.items| > 0 {
      var run := ItemsRun(irregularities.items, heading.y, wrap);
      TextsAppend(heading.ops, run.ops);
      ItemsRunTexts(irregularities.items, heading.y, wrap);
    } else {
      HeadedTexts(headingOp, heading, NO_IRREGULARITY, wrap);
    }
  }

  /** The observations section draws its heading, then `obs || '—'` wrapped. */
  lemma ObservationsDrawTexts(obs: Value, y: int, wrap: (string, int) -> seq<string>)
    ensures Texts(ObservationsFlow(obs, y, wrap).ops) == ObservationTexts(obs, wrap)
  {
    var headingOp := Text(OBSERVATIONS_HEADING, MARGIN_LEFT, y + 15);
    HeadedTexts(headingOp, Flow([headingOp], y + 23), ObservationText(obs), wrap);
  }

  /** The receipt draws exactly the texts it should, in reading order: the
      layout loses, repeats or reorders no text. */
  lemma ReceiptTextsInOrder(request: Entries, localeDate: (int, int) -> string, wrap: (string, int) -> seq<string>)
    ensures Texts(ReceiptOps(request, localeDate, wrap)) == ReceiptTexts(request, localeDate, wrap)
  {
    match ReceiptDate(Get(request, "created_at"), localeDate)
    case None =>
      BannerDrawsTexts(request);
    case Some(date) =>
      var irregularities := Get(request, "irregularities");
      var header := Header(request, date);
      var fields := RequesterFlow(request, 91, wrap);
      var section := IrregularitySection(irregularities, fields.y, wrap);
      var rest := if IrregularitiesThrow(irregularities) then [] else ObservationsFlow(Get(request, "obs"), section.y, wrap).ops;
      var restTexts := if IrregularitiesThrow(irregularities) then [] else ObservationTexts(Get(request, "obs"), wrap);
      assert ReceiptOps(request, localeDate, wrap) == header + fields.ops + section.ops + rest;
      assert ReceiptTexts(request, localeDate, wrap)
          == HeaderTexts(request, date) + RequesterTexts(request, wrap) + SectionTexts(irregularities, wrap) + restTexts;
      HeaderDrawsTexts(request, date);
      RequesterDrawsTexts(request, 91, wrap);
      SectionDrawsTexts(irregularities, fields.y, wrap);
      if !IrregularitiesThrow(irregularities) {
        ObservationsDrawTexts(Get(request, "obs"), section.y, wrap);
      }
      TextsAppend(header, fields.ops);
      TextsAppend(header + fields.ops, section.ops);
      TextsAppend(header + fields.ops + section.ops, rest);
  }

  // ------------------------------------------------------ drawing the receipt

  /** `addWrappedText(text, marginLeft, y, 170, 7)` on the receipt: appends
      the wrapped flow; the texts stay within the page and y ends above the
      bottom margin. */
  method DrawWrapped(doc: PdfDoc, text: string, y: int, wrap: (string, int) -> seq<string>) returns (yEnd: int)
    requires WrapsToLines(wrap) && doc.pageHeight == A4_HEIGHT
    requires TOP <= y && TextsWithin(doc.ops, A4_HEIGHT - 5)
    modifies doc
    ensures doc.ops == old(doc.ops) + WrappedA4(text, y, wrap).ops && yEnd == WrappedA4(text, y, wrap).y
    ensures TextsWithin(doc.ops, A4_HEIGHT - 5)
    ensures TOP <= yEnd <= A4_HEIGHT - BOTTOM_MARGIN
  {
    var lines := wrap(text, WRAP_WIDTH);
    assert |lines| >= 1;
    WrappedOnA4(doc.ops, lines, MARGIN_LEFT, y);
    yEnd := AddWrappedText(doc, text, MARGIN_LEFT, y, WRAP_WIDTH, LINE_HEIGHT, wrap);
  }

  /** The header block, drawn from y = 30 down: title, rule, access code and
      link; then, when the date text can be built, the date and the
      requester heading, returning where the fields start. */
  method DrawHeader(doc: PdfDoc, request: Entries, date: Option<string>) returns (yEnd: int)
    modifies doc
    ensures date.None? ==> doc.ops == old(doc.ops) + Banner(request)
    ensures date.Some? ==> doc.ops == old(doc.ops) + Header(request, date.value) && yEnd == 91
  {
    var currentY := 30;
    doc.DrawText(TITLE, MARGIN_LEFT, currentY);
    currentY := currentY + 10;
    doc.DrawLine(MARGIN_LEFT, currentY, 190, currentY);
    currentY := currentY + 10;
    doc.DrawText("Código de Acesso: " + Display(Get(request, "access_code")), MARGIN_LEFT, currentY);
    currentY := currentY + 8;
    doc.DrawText(LINK, MARGIN_LEFT, currentY);
    currentY := currentY + 8;
    if date.None? {
      return currentY;
    }
    doc.DrawText("Data: " + date.value, MARGIN_LEFT, currentY);
    currentY := currentY + 15;
    doc.DrawText("Dados do Solicitante:", MARGIN_LEFT, currentY);
    yEnd := currentY + 10;
  }

  /** The header lies within the page. */
  lemma HeaderWithin(request: Entries, dateText: string)
    ensures TextsWithin(Banner(request), A4_HEIGHT - 5)
    ensures TextsWithin(Header(request, dateText), A4_HEIGHT - 5)
  {
  }

  /** The requester's five fields, each wrapped from where the previous one ended. */
  method DrawRequester(doc: PdfDoc, request: Entries, y: int, wrap: (string, int) -> seq<string>)
    returns (yEnd: int)
    requires WrapsToLines(wrap) && doc.pageHeight == A4_HEIGHT
    requires TOP <= y && TextsWithin(doc.ops, A4_HEIGHT - 5)
    modifies doc
    ensures doc.ops == old(doc.ops) + RequesterFlow(request, y, wrap).ops && yEnd == RequesterFlow(request, y, wrap).y
    ensures TextsWithin(doc.ops, A4_HEIGHT - 5)
    ensures TOP <= yEnd <= A4_HEIGHT - BOTTOM_MARGIN
  {
    var t := RequesterFields(request);
    ghost var f0 := Flow([], y);
    assert old(doc.ops) + f0.ops == doc.ops;
    yEnd := DrawWrapped(doc, t[0], y, wrap);
    ThenAppend(old(doc.ops), f0, t[0], wrap);
    ghost var f1 := Then(f0, t[0], wrap);
    yEnd := DrawWrapped(doc, t[1], yEnd, wrap);
    ThenAppend(old(doc.ops), f1, t[1], wrap);
    ghost var f2 := Then(f1, t[1], wrap);
    yEnd := DrawWrapped(doc, t[2], yEnd, wrap);
    ThenAppend(old(doc.ops), f2, t[2], wrap);
    ghost var f3 := Then(f2, t[2], wrap);
    yEnd := DrawWrapped(doc, t[3], yEnd, wrap);
    ThenAppend(old(doc.ops), f3, t[3], wrap);
    ghost var f4 := Then(f3, t[3], wrap);
    yEnd := DrawWrapped(doc, t[4], yEnd, wrap);
    ThenAppend(old(doc.ops), f4, t[4], wrap);
  }

  /** One numbered irregularity: its title line, then its wrapped description. */
  method DrawItem(doc: PdfDoc, item: Value, index: nat, y: int, wrap: (string, int) -> seq<string>)
    returns (yEnd: int)
    requires WrapsToLines(wrap) && doc.pageHeight == A4_HEIGHT
    requires TOP <= y && y + 7 <= A4_HEIGHT - BOTTOM_MARGIN && TextsWithin(doc.ops, A4_HEIGHT - 5)
    modifies doc
    ensures doc.ops == old(doc.ops) + ItemFlow(item, index, y, wrap).ops && yEnd == ItemFlow(item, index, y, wrap).y
    ensures TextsWithin(doc.ops, A4_HEIGHT - 5)
    ensures TOP <= yEnd <= A4_HEIGHT - BOTTOM_MARGIN
  {
    var title := ItemTitle(item, index);
    DrawWithin(doc.ops, Text(title, MARGIN_LEFT, y), A4_HEIGHT - 5);
    doc.DrawText(title, MARGIN_LEFT, y);
    var text := ItemDescription(item);
    yEnd := DrawWrapped(doc, text, y + 7, wrap);
    ThenAppend(old(doc.ops), Flow([Text(title, MARGIN_LEFT, y)], y + LINE_HEIGHT), text, wrap);
  }

  /** The page check before an item. */
  method DrawPageCheck(doc: PdfDoc, y: int) returns (yEnd: int)
    requires doc.pageHeight == A4_HEIGHT && TextsWithin(doc.ops, A4_HEIGHT - 5)
    modifies doc
    ensures doc.ops == old(doc.ops) + PageCheck(y).ops && yEnd == PageCheck(y).y
    ensures TextsWithin(doc.ops, A4_HEIGHT - 5)
  {
    yEnd := y;
    if yEnd + 7 > doc.pageHeight - BOTTOM_MARGIN {
      DrawWithin(doc.ops, NewPage, A4_HEIGHT - 5);
      doc.AddPage();
      yEnd := TOP;
    } else {
      assert old(doc.ops) + [] == doc.ops;
    }
  }

  /** The calls for the first i + 1 items extend those for the first i by
      one loop pass. */
  lemma ItemsNext(items: seq<Value>, i: nat, y: int, wrap: (string, int) -> seq<string>)
    requires i < |items|
    ensures var prev := ItemsFlow(items[..i], y, wrap);
      var step := ItemStep(items[i], i, prev.y, wrap);
      ItemsFlow(items[..i + 1], y, wrap) == Flow(prev.ops + step.ops, step.y)
  {
    assert items[..i + 1][..i] == items[..i];
  }

  /** The loop stops at the first null or undefined item, after its page check. */
  lemma RunStopsAt(items: seq<Value>, k: nat, y: int, wrap: (string, int) -> seq<string>)
    requires k < |items| && Nullish(items[k]) && forall j :: 0 <= j < k ==> !Nullish(items[j])
    ensures var done := ItemsFlow(items[..k], y, wrap);
      ItemsRun(items, y, wrap).ops == done.ops + PageCheck(done.y).ops
  {
    assert FirstNullish(items) == k;
  }

  lemma NoneNullishNext(items: seq<Value>, index: nat)
    requires index < |items| && !Nullish(items[index])
    requires forall j :: 0 <= j < index ==> !Nullish(items[j])
    ensures forall j :: 0 <= j < index + 1 ==> !Nullish(items[j])
  {
  }

  /** With no null or undefined item the loop draws every item. */
  lemma RunDrawsAll(items: seq<Value>, y: int, wrap: (string, int) -> seq<string>)
    requires forall j :: 0 <= j < |items| ==> !Nullish(items[j])
    ensures ItemsRun(items, y, wrap) == ItemsFlow(items[..|items|], y, wrap)
  {
    assert FirstNullish(items) == |items|;
  }

  /** One pass of the item loop: the page check, then the item, unless the
      item is null or undefined, where reading its name throws. */
  method DrawItemStep(doc: PdfDoc, item: Value, index: nat, y: int, wrap: (string, int) -> seq<string>)
    returns (yEnd: int, thrown: bool)
    requires WrapsToLines(wrap) && doc.pageHeight == A4_HEIGHT
    requires TOP <= y && TextsWithin(doc.ops, A4_HEIGHT - 5)
    modifies doc
    ensures thrown <==> Nullish(item)
    ensures thrown ==> doc.ops == old(doc.ops) + PageCheck(y).ops
    ensures !thrown ==> doc.ops == old(doc.ops) + ItemStep(item, index, y, wrap).ops && yEnd == ItemStep(item, index, y, wrap).y
    ensures TextsWithin(doc.ops, A4_HEIGHT - 5)
    ensures !thrown ==> TOP <= yEnd <= A4_HEIGHT - BOTTOM_MARGIN
  {
    yEnd := DrawPageCheck(doc, y);
    if Nullish(item) {
      return yEnd, true;
    }
    ghost var check := PageCheck(y);
    ghost var drawn := ItemFlow(item, index, yEnd, wrap);
    yEnd := DrawItem(doc, item, index, yEnd, wrap);
    AppendAssoc(old(doc.ops), check.ops, drawn.ops);
    thrown := false;
  }

  /** Pass `index` of the item loop, after the calls for the items before it:
      it either throws, leaving the calls of the whole loop, or extends the
      calls by one item. */
  method DrawNextItem(doc: PdfDoc, ghost before: seq<DocOp>, items: seq<Value>, index: nat, y: int, yIn: int,
                      wrap: (string, int) -> seq<string>)
    returns (yEnd: int, thrown: bool)
    requires WrapsToLines(wrap) && doc.pageHeight == A4_HEIGHT
    requires index < |items| && forall j :: 0 <= j < index ==> !Nullish(items[j])
    requires doc.ops == before + ItemsFlow(items[..index], y, wrap).ops && yIn == ItemsFlow(items[..index], y, wrap).y
    requires TOP <= yIn && TextsWithin(doc.ops, A4_HEIGHT - 5)
    modifies doc
    ensures thrown <==> Nullish(items[index])
    ensures thrown ==> doc.ops == before + ItemsRun(items, y, wrap).ops
    ensures !thrown ==>
      doc.ops == before + ItemsFlow(items[..index + 1], y, wrap).ops && yEnd == ItemsFlow(items[..index + 1], y, wrap).y
    ensures TextsWithin(doc.ops, A4_HEIGHT - 5)
    ensures !thrown ==> TOP <= yEnd <= A4_HEIGHT - BOTTOM_MARGIN
  {
    ghost var prev := ItemsFlow(items[..index], y, wrap);
    ghost var step := ItemStep(items[index], index, yIn, wrap);
    yEnd, thrown := DrawItemStep(doc, items[index], index, yIn, wrap);
    if thrown {
      AppendAssoc(before, prev.ops, PageCheck(yIn).ops);
      RunStopsAt(items, index, y, wrap);
    } else {
      AppendAssoc(before, prev.ops, step.ops);
      ItemsNext(items, index, y, wrap);
    }
  }

  /** The numbered irregularities: a page check, the title line and the
      wrapped description of each. Reading the name of a null or undefined
      item throws, ending the loop there. */
  method DrawIrregularities(doc: PdfDoc, items: seq<Value>, y: int, wrap: (string, int) -> seq<string>)
    returns (yEnd: int, thrown: bool)
    requires WrapsToLines(wrap) && doc.pageHeight == A4_HEIGHT && items != []
    requires TOP <= y && TextsWithin(doc.ops, A4_HEIGHT - 5)
    modifies doc
    ensures doc.ops == old(doc.ops) + ItemsRun(items, y, wrap).ops
    ensures TextsWithin(doc.ops, A4_HEIGHT - 5)
    ensures thrown <==> exists i :: 0 <= i < |items| && Nullish(items[i])
    ensures !thrown ==> yEnd == ItemsRun(items, y, wrap).y && TOP <= yEnd <= A4_HEIGHT - BOTTOM_MARGIN
  {
    yEnd := y;
    thrown := false;
    var index := 0;
    ghost var done := Flow([], y);
    assert items[..0] == [];
    assert doc.ops == old(doc.ops) + done.ops;
    while index < |items|
      invariant 0 <= index <= |items| && !thrown
      invariant TOP <= yEnd && (index > 0 ==> yEnd <= A4_HEIGHT - BOTTOM_MARGIN)
      invariant TextsWithin(doc.ops, A4_HEIGHT - 5)
      invariant forall j :: 0 <= j < index ==> !Nullish(items[j])
      invariant done == ItemsFlow(items[..index], y, wrap)
      invariant doc.ops == old(doc.ops) + done.ops && yEnd == done.y
    {
      yEnd, thrown := DrawNextItem(doc, old(doc.ops), items, index, y, yEnd, wrap);
      if thrown {
        assert Nullish(items[index]);
        return;
      }
      NoneNullishNext(items, index);
      done := ItemsFlow(items[..index + 1], y, wrap);
      index := index + 1;
    }
    RunDrawsAll(items, y, wrap);
  }

  /** A section heading, drawn at y without a page check. */
  method DrawHeading(doc: PdfDoc, heading: string, y: int)
    requires TOP <= y <= A4_HEIGHT - 5 && TextsWithin(doc.ops, A4_HEIGHT - 5)
    modifies doc
    ensures doc.ops == old(doc.ops) + [Text(heading, MARGIN_LEFT, y)]
    ensures TextsWithin(doc.ops, A4_HEIGHT - 5)
  {
    DrawWithin(doc.ops, Text(heading, MARGIN_LEFT, y), A4_HEIGHT - 5);
    doc.DrawText(heading, MARGIN_LEFT, y);
  }

  /** The irregularity section: its heading, then the numbered items, or a
      line saying there are none when `irregularities?.length` is falsy.
      Throws when the items cannot be walked. */
  method DrawIrregularitySection(doc: PdfDoc, irregularities: Value, y: int, wrap: (string, int) -> seq<string>)
    returns (yEnd: int, thrown: bool)
    requires WrapsToLines(wrap) && doc.pageHeight == A4_HEIGHT
    requires TOP <= y <= A4_HEIGHT - BOTTOM_MARGIN && TextsWithin(doc.ops, A4_HEIGHT - 5)
    modifies doc
    ensures doc.ops == old(doc.ops) + IrregularitySection(irregularities, y, wrap).ops
    ensures TextsWithin(doc.ops, A4_HEIGHT - 5)
    ensures thrown <==> IrregularitiesThrow(irregularities)
    ensures !thrown ==> yEnd == IrregularitySection(irregularities, y, wrap).y && TOP <= yEnd <= A4_HEIGHT - BOTTOM_MARGIN
  {
    ghost var heading := Flow([Text(IRREGULARITIES_HEADING, MARGIN_LEFT, y + 15)], y + 25);
    DrawHeading(doc, IRREGULARITIES_HEADING, y + 15);
    yEnd := y + 25;
    if LengthWithoutForEach(irregularities) {
      return yEnd, true;
    }
    if irregularities.Array? && |irregularities.items| > 0 {
      ghost var run := ItemsRun(irregularities.items, yEnd, wrap);
      yEnd, thrown := DrawIrregularities(doc, irregularities.items, yEnd, wrap);
      AppendAssoc(old(doc.ops), heading.ops, run.ops);
    } else {
      yEnd := DrawWrapped(doc, NO_IRREGULARITY, yEnd, wrap);
      ThenAppend(old(doc.ops), heading, NO_IRREGULARITY, wrap);
      thrown := false;
    }
  }

  /** The observations section: its heading, then `obs || '—'` wrapped. */
  method DrawObservations(doc: PdfDoc, obs: Value, y: int, wrap: (string, int) -> seq<string>)
    returns (yEnd: int)
    requires WrapsToLines(wrap) && doc.pageHeight == A4_HEIGHT
    requires TOP <= y <= A4_HEIGHT - BOTTOM_MARGIN && TextsWithin(doc.ops, A4_HEIGHT - 5)
    modifies doc
    ensures doc.ops == old(doc.ops) + ObservationsFlow(obs, y, wrap).ops && yEnd == ObservationsFlow(obs, y, wrap).y
    ensures TextsWithin(doc.ops, A4_HEIGHT - 5)
    ensures TOP <= yEnd <= A4_HEIGHT - BOTTOM_MARGIN
  {
    DrawHeading(doc, OBSERVATIONS_HEADING, y + 15);
    var text := ObservationText(obs);
    yEnd := DrawWrapped(doc, text, y + 23, wrap);
    ThenAppend(old(doc.ops), Flow([Text(OBSERVATIONS_HEADING, MARGIN_LEFT, y + 15)], y + 23), text, wrap);
  }

  /** `generatePDF`: lays out the receipt for `request`; `localeDate` is how
      the browser writes a stored timestamp as a date. Returns the document
      and, unless building the date or walking the irregularities threw, the
      name it is saved under. The document holds exactly the calls of
      `ReceiptOps`, and whatever the request holds, every text is drawn
      between the top position and 5 units above the bottom edge of the
      page. */
  method GenerateReceipt(request: Entries, localeDate: (int, int) -> string, wrap: (string, int) -> seq<string>)
    returns (doc: PdfDoc, saved: Option<string>)
    requires WrapsToLines(wrap)
    ensures fresh(doc) && doc.pageHeight == A4_HEIGHT
    ensures doc.ops == ReceiptOps(request, localeDate, wrap)
    ensures TextsWithin(doc.ops, A4_HEIGHT - 5)
    ensures saved.None? <==>
      !Get(request, "created_at").Timestamp? || IrregularitiesThrow(Get(request, "irregularities"))
    ensures saved.Some? ==> saved.value == "comprovante-" + Display(Get(request, "access_code")) + ".pdf"
  {
    doc := new PdfDoc(A4_HEIGHT);
    var date := ReceiptDate(Get(request, "created_at"), localeDate);
    var currentY := DrawHeader(doc, request, date);
    HeaderWithin(request, if date.Some? then date.value else "");
    assert [] + Banner(request) == Banner(request);
    if date.None? {
      return doc, None;
    }
    assert [] + Header(request, date.value) == Header(request, date.value);
    currentY := DrawRequester(doc, request, currentY, wrap);
    var thrown;
    currentY, thrown := DrawIrregularitySection(doc, Get(request, "irregularities"), currentY, wrap);
    if thrown {
      assert doc.ops + [] == doc.ops;
      return doc, None;
    }
    currentY := DrawObservations(doc, Get(request, "obs"), currentY, wrap);
    saved := Some("comprovante-" + Display(Get(request, "access_code")) + ".pdf");
  }
}
