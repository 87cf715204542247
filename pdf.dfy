/**
 * The letter's PDF generator (src/utils/pdfGenerator.js). The jsPDF
 * document is modelled as its page count and the log of the operations the
 * generator issues on it; jsPDF's `splitTextToSize` is the uninterpreted
 * function `wrap` (one per font size). Layout uses the generator's integer constants (A4 in mm).
 */
module Pdf {
  import opened Common

  const PageWidth := 210
  const PageHeight := 297
  const Margin := 20
  const LineHeight := 8
  /** Where the body text starts on every letter page: `margin + 10`. */
  const TopY := Margin + 10
  /** A line is drawn on a new page when the pen is below this: `pageHeight - margin - 20`. */
  const BreakY := PageHeight - Margin - 20
  const FooterY := PageHeight - 10

  const DefaultTitle := "亲笔信"
  const DefaultSubtitle := "来自心底的话语"
  const DefaultFilename := "love-letter.pdf"
  const SaveDefaultFilename := "letter.pdf"
  const FooterNote := "\U{2764}\U{FE0F} 用心制作 \U{2764}\U{FE0F}"
  const NoDocumentError := "PDF文档未创建"
  /** The decorative heart drawn on the cover. */
  const Heart := "\U{2665}"

  /** The document operations the model keeps (colours, fonts and rectangles are left out). */
  datatype Op =
    | AddPage
    | CoverText(s: string)
    | Text(s: string, x: int, y: int)
    | CenteredText(s: string, y: int)
    | SetPage(page: nat)
    | Saved(filename: string)

  /** A jsPDF document: its number of pages and what was issued on it. */
  datatype Doc = Doc(pages: nat, ops: seq<Op>)

  /** What a function call or method returns, or the exception it throws. */
  datatype Completion<T> = Normal(value: T) | Thrown(message: string)

  /** `new jsPDF(...)`: one empty page. */
  const NewDocument := Doc(1, [])

  function Append(d: Doc, op: Op): Doc {
    Doc(d.pages, d.ops + [op])
  }

  function PageBreak(d: Doc): (r: Doc)
    ensures r.pages == d.pages + 1 && r.ops == d.ops + [AddPage]
  {
    Doc(d.pages + 1, d.ops + [AddPage])
  }

  // ---------------------------------------------------------------------
  // content.split('\n') and line.trim() === ''

  /** `s.split('\n')`: always at least one piece, none containing a newline. */
  function SplitLines(s: string): (r: seq<string>)
    ensures |r| >= 1
    ensures forall i :: 0 <= i < |r| ==> '\n' !in r[i]
    decreases |s|
  {
    if s == [] then [""]
    else
      var rest := SplitLines(s[1..]);
      if s[0] == '\n' then [""] + rest else [[s[0]] + rest[0]] + rest[1..]
  }

  /** Joins pieces with '\n' between them. */
  function JoinLines(parts: seq<string>): string
    requires |parts| >= 1
    decreases |parts|
  {
    if |parts| == 1 then parts[0] else parts[0] + "\n" + JoinLines(parts[1..])
  }

  /** Splitting on newlines loses nothing: joining the pieces gives the content back. */
  lemma {:induction false} JoinSplitLines(s: string)
    ensures JoinLines(SplitLines(s)) == s
    decreases |s|
  {
    if s != [] {
      var rest := SplitLines(s[1..]);
      JoinSplitLines(s[1..]);
      if s[0] == '\n' {
        assert SplitLines(s)[1..] == rest;
        assert s == [s[0]] + s[1..];
      } else {
        var r := SplitLines(s);
        if |rest| == 1 {
          assert r == [[s[0]] + rest[0]];
        } else {
          assert r[1..] == rest[1..];
          assert JoinLines(rest) == rest[0] + "\n" + JoinLines(rest[1..]);
        }
        assert s == [s[0]] + s[1..];
      }
    }
  }

  /** The characters `String.prototype.trim` removes: white space and line terminators. */
  predicate IsJsWhitespace(c: char) {
    || c == ' ' || c == '\t' || c == '\n' || c == '\r' || c == '\U{000B}' || c == '\U{000C}'
    || c == '\U{00A0}' || c == '\U{1680}' || ('\U{2000}' <= c <= '\U{200A}')
    || c == '\U{2028}' || c == '\U{2029}' || c == '\U{202F}' || c == '\U{205F}'
    || c == '\U{3000}' || c == '\U{FEFF}'
  }

  /** `line.trim() === ''` */
  predicate IsBlank(line: string) {
    forall i :: 0 <= i < |line| ==> IsJsWhitespace(line[i])
  }

  // ---------------------------------------------------------------------
  // The body layout of addLetterPage

  /** The document being written and the pen's vertical position `currentY`. */
  datatype Pen = Pen(doc: Doc, y: int)

  /** One wrapped line: a new page first if the pen is past `BreakY`, then the text at the margin. */
  function PlaceWrapped(p: Pen, w: string): Pen {
    var q := if p.y > BreakY then Pen(PageBreak(p.doc), TopY) else p;
    Pen(Append(q.doc, Text(w, Margin, q.y)), q.y + LineHeight)
  }

  function PlaceAllWrapped(p: Pen, ws: seq<string>): Pen
    decreases |ws|
  {
    if ws == [] then p else PlaceWrapped(PlaceAllWrapped(p, ws[..|ws| - 1]), ws[|ws| - 1])
  }

  /** One source line: a blank one only moves the pen down; any other is wrapped and drawn. */
  function PlaceLine(p: Pen, line: string, wrap: string -> seq<string>): Pen {
    if IsBlank(line) then p.(y := p.y + LineHeight) else PlaceAllWrapped(p, wrap(line))
  }

  function PlaceLines(p: Pen, lines: seq<string>, wrap: string -> seq<string>): Pen
    decreases |lines|
  {
    if lines == [] then p else PlaceLine(PlaceLines(p, lines[..|lines| - 1], wrap), lines[|lines| - 1], wrap)
  }

  /** `addLetterPage` on an existing document: a new page, then the body from `TopY`. */
  function LetterPage(d: Doc, content: string, wrap: string -> seq<string>): Doc {
    PlaceLines(Pen(PageBreak(d), TopY), SplitLines(content), wrap).doc
  }

  /** The strings of the `Text` operations, in order. */
  function TextsOf(ops: seq<Op>): seq<string>
    decreases |ops|
  {
    if ops == [] then []
    else TextsOf(ops[..|ops| - 1]) + (if ops[|ops| - 1].Text? then [ops[|ops| - 1].s] else [])
  }

  lemma {:induction false} TextsOfAppend(a: seq<Op>, b: seq<Op>)
    ensures TextsOf(a + b) == TextsOf(a) + TextsOf(b)
    decreases |b|
  {
    if b == [] {
      assert a + b == a;
    } else {
      assert (a + b)[..|a + b| - 1] == a + b[..|b| - 1];
      TextsOfAppend(a, b[..|b| - 1]);
    }
  }

  /** The wrapped pieces of the non-blank lines, in source order: what the body should show. */
  function Drawn(lines: seq<string>, wrap: string -> seq<string>): seq<string>
    decreases |lines|
  {
    if lines == [] then []
    else Drawn(lines[..|lines| - 1], wrap) + (if IsBlank(lines[|lines| - 1]) then [] else wrap(lines[|lines| - 1]))
  }

  /** Every `Text` from position `from` on is at the margin and inside the band [TopY, BreakY]. */
  ghost predicate InBand(ops: seq<Op>, from: nat) {
    forall k :: from <= k < |ops| && ops[k].Text? ==> ops[k].x == Margin && TopY <= ops[k].y <= BreakY
  }

  /** `b` extends `a`, and whatever it adds is drawn inside the band. */
  ghost predicate GrowsInBand(a: seq<Op>, b: seq<Op>) {
    IsPrefix(a, b) && InBand(b, |a|)
  }

  lemma GrowsInBandTrans(a: seq<Op>, b: seq<Op>, c: seq<Op>)
    requires GrowsInBand(a, b) && GrowsInBand(b, c)
    ensures GrowsInBand(a, c)
  {
    assert c[..|a|] == c[..|b|][..|a|];
    forall k | |a| <= k < |c| && c[k].Text?
      ensures c[k].x == Margin && TopY <= c[k].y <= BreakY
    {
      if k < |b| {
        assert c[k] == b[k];
      }
    }
  }

  /** One wrapped line: the pen stays below `TopY` and the text lands in the band. */
  lemma PlaceWrappedStep(p: Pen, w: string)
    requires p.y >= TopY
    ensures var r := PlaceWrapped(p, w);
      r.y >= TopY && GrowsInBand(p.doc.ops, r.doc.ops)
      && TextsOf(r.doc.ops) == TextsOf(p.doc.ops) + [w]
  {
    var q := if p.y > BreakY then Pen(PageBreak(p.doc), TopY) else p;
    var op := Text(w, Margin, q.y);
    var r := PlaceWrapped(p, w);
    assert r.doc.ops == q.doc.ops + [op];
    if p.y > BreakY {
      TextsOfAppend(p.doc.ops, [AddPage]);
      assert q.doc.ops == p.doc.ops + [AddPage];
    }
    TextsOfAppend(q.doc.ops, [op]);
    assert r.doc.ops[..|p.doc.ops|] == p.doc.ops;
  }

  /**
   * How one step moves the pen: a blank source line only moves it down by
   * `LineHeight`, on the same document; a wrapped line breaks the page
   * exactly when the pen is past `BreakY`, is drawn at the margin on the
   * resulting line, and moves the pen one line further.
   */
  lemma PlaceLineStep(p: Pen, line: string, w: string, wrap: string -> seq<string>)
    ensures IsBlank(line) ==> PlaceLine(p, line, wrap) == Pen(p.doc, p.y + LineHeight)
    ensures var r := PlaceWrapped(p, w); var y := if p.y > BreakY then TopY else p.y;
      && r.y == y + LineHeight
      && r.doc.pages == p.doc.pages + (if p.y > BreakY then 1 else 0)
      && r.doc.ops == p.doc.ops + (if p.y > BreakY then [AddPage] else []) + [Text(w, Margin, y)]
  {
  }

  /** Placing wrapped lines keeps the pen below `TopY`. */
  lemma {:induction false} PlaceAllWrappedBelowTop(p: Pen, ws: seq<string>)
    requires p.y >= TopY
    ensures PlaceAllWrapped(p, ws).y >= TopY
    decreases |ws|
  {
    if ws != [] {
      PlaceAllWrappedBelowTop(p, ws[..|ws| - 1]);
    }
  }

  /** Placing wrapped lines only appends, and draws inside the band. */
  lemma {:induction false} PlaceAllWrappedInBand(p: Pen, ws: seq<string>)
    requires p.y >= TopY
    ensures GrowsInBand(p.doc.ops, PlaceAllWrapped(p, ws).doc.ops)
    decreases |ws|
  {
    if ws == [] {
      assert p.doc.ops[..|p.doc.ops|] == p.doc.ops;
    } else {
      var ws' := ws[..|ws| - 1];
      PlaceAllWrappedInBand(p, ws');
      PlaceAllWrappedBelowTop(p, ws');
      var m := PlaceAllWrapped(p, ws');
      PlaceWrappedStep(m, ws[|ws| - 1]);
      GrowsInBandTrans(p.doc.ops, m.doc.ops, PlaceAllWrapped(p, ws).doc.ops);
    }
  }

  /** Placing wrapped lines draws exactly `ws`, in order. */
  lemma {:induction false} PlaceAllWrappedTexts(p: Pen, ws: seq<string>)
    requires p.y >= TopY
    ensures TextsOf(PlaceAllWrapped(p, ws).doc.ops) == TextsOf(p.doc.ops) + ws
    decreases |ws|
  {
    if ws != [] {
      var ws' := ws[..|ws| - 1];
      PlaceAllWrappedTexts(p, ws');
      PlaceAllWrappedBelowTop(p, ws');
      PlaceWrappedStep(PlaceAllWrapped(p, ws'), ws[|ws| - 1]);
      assert ws' + [ws[|ws| - 1]] == ws;
    }
  }

  /** The body layout keeps the pen below `TopY`. */
  lemma {:induction false} PlaceLinesBelowTop(p: Pen, lines: seq<string>, wrap: string -> seq<string>)
    requires p.y >= TopY
    ensures PlaceLines(p, lines, wrap).y >= TopY
    decreases |lines|
  {
    if lines != [] {
      PlaceLinesBelowTop(p, lines[..|lines| - 1], wrap);
      PlaceAllWrappedBelowTop(PlaceLines(p, lines[..|lines| - 1], wrap), wrap(lines[|lines| - 1]));
    }
  }

  /** The body layout only appends, and draws inside the band. */
  lemma {:induction false} PlaceLinesInBand(p: Pen, lines: seq<string>, wrap: string -> seq<string>)
    requires p.y >= TopY
    ensures GrowsInBand(p.doc.ops, PlaceLines(p, lines, wrap).doc.ops)
    decreases |lines|
  {
    if lines == [] {
      assert p.doc.ops[..|p.doc.ops|] == p.doc.ops;
    } else {
      var init := lines[..|lines| - 1];
      var line := lines[|lines| - 1];
      PlaceLinesInBand(p, init, wrap);
      PlaceLinesBelowTop(p, init, wrap);
      var m := PlaceLines(p, init, wrap);
      if !IsBlank(line) {
        PlaceAllWrappedInBand(m, wrap(line));
        GrowsInBandTrans(p.doc.ops, m.doc.ops, PlaceLines(p, lines, wrap).doc.ops);
      }
    }
  }

  /** What the body layout draws is exactly `Drawn`: the wrapped non-blank lines in source order. */
  lemma {:induction false} PlaceLinesTexts(p: Pen, lines: seq<string>, wrap: string -> seq<string>)
    requires p.y >= TopY
    ensures TextsOf(PlaceLines(p, lines, wrap).doc.ops) == TextsOf(p.doc.ops) + Drawn(lines, wrap)
    decreases |lines|
  {
    if lines != [] {
      var init := lines[..|lines| - 1];
      var line := lines[|lines| - 1];
      PlaceLinesTexts(p, init, wrap);
      PlaceLinesBelowTop(p, init, wrap);
      if !IsBlank(line) {
        PlaceAllWrappedTexts(PlaceLines(p, init, wrap), wrap(line));
      }
    }
  }

  /**
   * The letter page starts with a new page: what was issued before is kept
   * and the next operation is `AddPage`.
   */
  lemma LetterPageStartsPage(d: Doc, content: string, wrap: string -> seq<string>)
    ensures var r := LetterPage(d, content, wrap);
      |r.ops| > |d.ops| && r.ops[..|d.ops|] == d.ops && r.ops[|d.ops|] == AddPage
      && r.pages >= d.pages + 1
  {
    var lines := SplitLines(content);
    var p := Pen(PageBreak(d), TopY);
    var r := PlaceLines(p, lines, wrap).doc;
    PlaceLinesInBand(p, lines, wrap);
    PlaceLinesPages(p, lines, wrap);
    assert r.ops[..|p.doc.ops|] == p.doc.ops;
    assert p.doc.ops[|d.ops|] == AddPage;
    assert r.ops[|d.ops|] == r.ops[..|p.doc.ops|][|d.ops|];
    assert r.ops[..|d.ops|] == r.ops[..|p.doc.ops|][..|d.ops|];
  }

  /** Everything the letter page draws is at the margin, with TopY <= y <= BreakY. */
  lemma LetterPageInBand(d: Doc, content: string, wrap: string -> seq<string>)
    ensures InBand(LetterPage(d, content, wrap).ops, |d.ops|)
  {
    var p := Pen(PageBreak(d), TopY);
    PlaceLinesInBand(p, SplitLines(content), wrap);
    PageBreakInBand(d.ops);
    GrowsInBandTrans(d.ops, p.doc.ops, LetterPage(d, content, wrap).ops);
  }

  /** The letter page draws every wrapped piece of every non-blank line, in source order. */
  lemma LetterPageTexts(d: Doc, content: string, wrap: string -> seq<string>)
    ensures TextsOf(LetterPage(d, content, wrap).ops) == TextsOf(d.ops) + Drawn(SplitLines(content), wrap)
  {
    var p := Pen(PageBreak(d), TopY);
    PlaceLinesTexts(p, SplitLines(content), wrap);
    TextsOfAppend(d.ops, [AddPage]);
  }

  /** A page break adds no text. */
  lemma PageBreakInBand(ops: seq<Op>)
    ensures GrowsInBand(ops, ops + [AddPage])
  {
    assert (ops + [AddPage])[..|ops|] == ops;
  }

  lemma {:induction false} PlaceLinesPages(p: Pen, lines: seq<string>, wrap: string -> seq<string>)
    ensures PlaceLines(p, lines, wrap).doc.pages >= p.doc.pages
    decreases |lines|
  {
    if lines != [] {
      PlaceLinesPages(p, lines[..|lines| - 1], wrap);
      var m := PlaceLines(p, lines[..|lines| - 1], wrap);
      if !IsBlank(lines[|lines| - 1]) {
        PlaceAllWrappedPages(m, wrap(lines[|lines| - 1]));
      }
    }
  }

  lemma {:induction false} PlaceAllWrappedPages(p: Pen, ws: seq<string>)
    ensures PlaceAllWrapped(p, ws).doc.pages >= p.doc.pages
    decreases |ws|
  {
    if ws != [] {
      PlaceAllWrappedPages(p, ws[..|ws| - 1]);
    }
  }

  // ---------------------------------------------------------------------
  // addFooter

  /** The page label "i / N". */
  function PageLabel(i: nat, n: nat): string {
    NatToString(i) + " / " + NatToString(n)
  }

  /** What `addFooter` issues for page i of n. */
  function PageFooter(i: nat, n: nat, note: string): seq<Op> {
    [SetPage(i)] + (if note != "" then [CenteredText(note, FooterY)] else [])
    + [Text(PageLabel(i, n), PageWidth - Margin, FooterY)]
  }

  /** What `addFooter` issues for pages 1..k of n. */
  function FooterOps(k: nat, n: nat, note: string): seq<Op>
    decreases k
  {
    if k == 0 then [] else FooterOps(k - 1, n, note) + PageFooter(k, n, note)
  }

  /** The page labels "1 / N" .. "k / N", in page order. */
  function PageLabels(k: nat, n: nat): (r: seq<string>)
    ensures |r| == k && forall i :: 0 <= i < k ==> r[i] == PageLabel(i + 1, n)
    decreases k
  {
    if k == 0 then [] else PageLabels(k - 1, n) + [PageLabel(k, n)]
  }

  /** The footer writes exactly one label per page, "i / N" on page i, and no other body text. */
  lemma {:induction false} FooterLabelsEveryPage(k: nat, n: nat, note: string)
    ensures TextsOf(FooterOps(k, n, note)) == PageLabels(k, n)
    decreases k
  {
    if k > 0 {
      FooterLabelsEveryPage(k - 1, n, note);
      TextsOfAppend(FooterOps(k - 1, n, note), PageFooter(k, n, note));
      var mid := if note != "" then [CenteredText(note, FooterY)] else [];
      TextsOfAppend([SetPage(k)], mid);
      TextsOfAppend([SetPage(k)] + mid, [Text(PageLabel(k, n), PageWidth - Margin, FooterY)]);
      assert TextsOf([SetPage(k)]) == [];
    }
  }

  /**
   * The current page after `ops`, starting on page `cur`: `setPage` selects
   * its page, and `addPage` appends a page and makes it current (in this
   * generator a page is only ever added while the last page is current).
   */
  function PageAfter(ops: seq<Op>, cur: nat): nat
    decreases |ops|
  {
    if ops == [] then cur
    else
      var p := PageAfter(ops[..|ops| - 1], cur);
      match ops[|ops| - 1]
      case SetPage(page) => page
      case AddPage => p + 1
      case _ => p
  }

  /** Each `Text` operation's string, paired with the page that was current when it was drawn. */
  function TextsWithPage(ops: seq<Op>, cur: nat): seq<(nat, string)>
    decreases |ops|
  {
    if ops == [] then []
    else
      var prefix := ops[..|ops| - 1];
      TextsWithPage(prefix, cur)
      + (if ops[|ops| - 1].Text? then [(PageAfter(prefix, cur), ops[|ops| - 1].s)] else [])
  }

  lemma {:induction false} PageAfterAppend(a: seq<Op>, b: seq<Op>, cur: nat)
    ensures PageAfter(a + b, cur) == PageAfter(b, PageAfter(a, cur))
    decreases |b|
  {
    if b == [] {
      assert a + b == a;
    } else {
      assert (a + b)[..|a + b| - 1] == a + b[..|b| - 1];
      PageAfterAppend(a, b[..|b| - 1], cur);
    }
  }

  lemma {:induction false} TextsWithPageAppend(a: seq<Op>, b: seq<Op>, cur: nat)
    ensures TextsWithPage(a + b, cur) == TextsWithPage(a, cur) + TextsWithPage(b, PageAfter(a, cur))
    decreases |b|
  {
    if b == [] {
      assert a + b == a;
    } else {
      assert (a + b)[..|a + b| - 1] == a + b[..|b| - 1];
      TextsWithPageAppend(a, b[..|b| - 1], cur);
      PageAfterAppend(a, b[..|b| - 1], cur);
    }
  }

  /** Page i's footer selects page i and draws its label there, whatever page was current before. */
  lemma PageFooterOnItsPage(i: nat, n: nat, note: string, cur: nat)
    ensures PageAfter(PageFooter(i, n, note), cur) == i
    ensures TextsWithPage(PageFooter(i, n, note), cur) == [(i, PageLabel(i, n))]
  {
    var mid := if note != "" then [CenteredText(note, FooterY)] else [];
    var drawn := [Text(PageLabel(i, n), PageWidth - Margin, FooterY)];
    assert PageFooter(i, n, note) == ([SetPage(i)] + mid) + drawn;
    assert ([SetPage(i)] + mid)[..1] == [SetPage(i)];
    assert [SetPage(i)][..0] == [];
    assert PageAfter([SetPage(i)], cur) == i;
    assert TextsWithPage([SetPage(i)], cur) == [];
    PageAfterAppend([SetPage(i)], mid, cur);
    TextsWithPageAppend([SetPage(i)], mid, cur);
    assert mid != [] ==> mid[..0] == [];
    assert PageAfter(mid, i) == i;
    assert TextsWithPage(mid, i) == [];
    PageAfterAppend([SetPage(i)] + mid, drawn, cur);
    TextsWithPageAppend([SetPage(i)] + mid, drawn, cur);
    assert drawn[..0] == [];
  }

  /** The footer draws label "i / N" on page i, for every page 1..k, in page order, and ends on page k. */
  lemma {:induction false} FooterLabelsOnTheirPages(k: nat, n: nat, note: string, cur: nat)
    ensures TextsWithPage(FooterOps(k, n, note), cur) == seq(k, i requires 0 <= i < k => (i + 1, PageLabel(i + 1, n)))
    ensures k > 0 ==> PageAfter(FooterOps(k, n, note), cur) == k
    decreases k
  {
    if k > 0 {
      FooterLabelsOnTheirPages(k - 1, n, note, cur);
      var prev := FooterOps(k - 1, n, note);
      TextsWithPageAppend(prev, PageFooter(k, n, note), cur);
      PageAfterAppend(prev, PageFooter(k, n, note), cur);
      PageFooterOnItsPage(k, n, note, PageAfter(prev, cur));
    }
  }

  /** `addFooter` applied to a document: every page, the cover included, gets its label. */
  function Footed(d: Doc, note: string): Doc {
    Doc(d.pages, d.ops + FooterOps(d.pages, d.pages, note))
  }

  /**
   * After `addFooter`, the labelled texts are those drawn before, followed by
   * "i / N" on page i for every page of the document, and the page count is unchanged.
   */
  lemma FootedLabelsEveryPage(d: Doc, note: string, cur: nat)
    ensures Footed(d, note).pages == d.pages
    ensures TextsWithPage(Footed(d, note).ops, cur)
         == TextsWithPage(d.ops, cur) + seq(d.pages, i requires 0 <= i < d.pages => (i + 1, PageLabel(i + 1, d.pages)))
  {
    TextsWithPageAppend(d.ops, FooterOps(d.pages, d.pages, note), cur);
    FooterLabelsOnTheirPages(d.pages, d.pages, note, PageAfter(d.ops, cur));
  }

  // ---------------------------------------------------------------------
  // addCoverPage

  /** One centred cover text per string, in order. */
  function CoverTexts(ss: seq<string>): (r: seq<Op>)
    ensures |r| == |ss| && forall i :: 0 <= i < |ss| ==> r[i] == CoverText(ss[i])
    decreases |ss|
  {
    if ss == [] then [] else CoverTexts(ss[..|ss| - 1]) + [CoverText(ss[|ss| - 1])]
  }

  /**
   * What `addCoverPage` draws, in order: the title's wrapped lines, the
   * subtitle's wrapped lines when the subtitle is non-empty, the heart, and
   * the date when it is non-empty. The two wraps are `splitTextToSize` at the
   * title's and the subtitle's font sizes.
   */
  function CoverOps(title: string, subtitle: string, date: string,
                    titleWrap: string -> seq<string>, subtitleWrap: string -> seq<string>): (r: seq<Op>)
    ensures var t := |titleWrap(title)|;
            var u := if subtitle != "" then |subtitleWrap(subtitle)| else 0;
            && |r| == t + u + 1 + (if date != "" then 1 else 0)
            && (forall i :: 0 <= i < t ==> r[i] == CoverText(titleWrap(title)[i]))
            && (forall i :: t <= i < t + u ==> r[i] == CoverText(subtitleWrap(subtitle)[i - t]))
            && r[t + u] == CoverText(Heart)
            && (date != "" ==> r[t + u + 1] == CoverText(date))
    ensures forall i :: 0 <= i < |r| ==> r[i].CoverText?
  {
    CoverTexts(titleWrap(title))
    + (if subtitle != "" then CoverTexts(subtitleWrap(subtitle)) else [])
    + [CoverText(Heart)]
    + (if date != "" then [CoverText(date)] else [])
  }

  /** One cover `forEach`: each wrapped line is drawn centred, in order, on the current page. */
  method DrawCoverLines(d: Doc, lines: seq<string>) returns (r: Doc)
    ensures r == Doc(d.pages, d.ops + CoverTexts(lines))
  {
    r := d;
    var i := 0;
    while i < |lines|
      invariant 0 <= i <= |lines|
      invariant r == Doc(d.pages, d.ops + CoverTexts(lines[..i]))
    {
      assert lines[..i + 1][..i] == lines[..i];
      r := Append(r, CoverText(lines[i]));
      i := i + 1;
    }
    assert lines[..i] == lines;
  }

  /** `addCoverPage` on an existing document: the cover is drawn on the current page, adding none. */
  function Covered(d: Doc, title: string, subtitle: string, date: string,
                   titleWrap: string -> seq<string>, subtitleWrap: string -> seq<string>): Doc {
    Doc(d.pages, d.ops + CoverOps(title, subtitle, date, titleWrap, subtitleWrap))
  }

  /** Operations that only draw cover text leave the current page and the drawn `Text`s as they were. */
  lemma {:induction false} CoverTextsKeepPage(ops: seq<Op>, cur: nat)
    requires forall i :: 0 <= i < |ops| ==> ops[i].CoverText?
    ensures PageAfter(ops, cur) == cur
    ensures TextsWithPage(ops, cur) == []
    decreases |ops|
  {
    if ops != [] {
      CoverTextsKeepPage(ops[..|ops| - 1], cur);
    }
  }

  /** The cover stays on the page that was current: the page count and the current page are unchanged. */
  lemma CoverStaysOnPage(d: Doc, title: string, subtitle: string, date: string,
                         titleWrap: string -> seq<string>, subtitleWrap: string -> seq<string>, cur: nat)
    ensures var r := Covered(d, title, subtitle, date, titleWrap, subtitleWrap);
            && r.pages == d.pages
            && PageAfter(r.ops, cur) == PageAfter(d.ops, cur)
            && TextsWithPage(r.ops, cur) == TextsWithPage(d.ops, cur)
  {
    var c := CoverOps(title, subtitle, date, titleWrap, subtitleWrap);
    CoverTextsKeepPage(c, PageAfter(d.ops, cur));
    PageAfterAppend(d.ops, c, cur);
    TextsWithPageAppend(d.ops, c, cur);
  }

  // ---------------------------------------------------------------------
  // generateLetterPDF

  datatype LetterData = LetterData(title: string, subtitle: string, content: string)

  /** `splitTextToSize` at the title's, the subtitle's and the body's font sizes. */
  datatype Wraps = Wraps(title: string -> seq<string>, subtitle: string -> seq<string>, body: string -> seq<string>)

  /** The document `generateLetterPDF` composes: cover with defaults, letter page, footer. */
  function LetterDocument(letter: LetterData, date: string, wrap: Wraps): Doc {
    var cover := Covered(NewDocument, OrElse(letter.title, DefaultTitle), OrElse(letter.subtitle, DefaultSubtitle), date,
                         wrap.title, wrap.subtitle);
    Footed(LetterPage(cover, OrElse(letter.content, ""), wrap.body), FooterNote)
  }

  /** The `PDFGenerator` class: a `doc` that is null until the first page is added. */
  class PdfGenerator {
    var doc: Option<Doc>

    constructor ()
      ensures doc == None
    {
      doc := None;
    }

    /** `createDocument`, as `addCoverPage` and `addLetterPage` call it when there is no document. */
    method EnsureDocument()
      modifies this
      ensures doc == Some(old(doc).GetOr(NewDocument))
    {
      if doc.None? {
        doc := Some(NewDocument);
      }
    }

    /** `addCoverPage`: the two `forEach` loops over the wrapped lines, then the heart and the date. */
    method AddCoverPage(title: string, subtitle: string, date: string,
                        titleWrap: string -> seq<string>, subtitleWrap: string -> seq<string>)
      modifies this
      ensures doc == Some(Covered(old(doc).GetOr(NewDocument), title, subtitle, date, titleWrap, subtitleWrap))
    {
      EnsureDocument();
      var base := doc.value;
      var d := DrawCoverLines(base, titleWrap(title));
      var sub: seq<Op> := [];
      if subtitle != "" {
        d := DrawCoverLines(d, subtitleWrap(subtitle));
        sub := CoverTexts(subtitleWrap(subtitle));
      }
      assert d.ops == base.ops + CoverTexts(titleWrap(title)) + sub;
      d := Append(d, CoverText(Heart));
      if date != "" {
        d := Append(d, CoverText(date));
      }
      assert d.ops == base.ops + (CoverTexts(titleWrap(title)) + sub + [CoverText(Heart)]
                                  + (if date != "" then [CoverText(date)] else []));
      doc := Some(d);
    }

    /** `addLetterPage`: the pagination loop over the lines and their wrapped pieces. */
    method AddLetterPage(content: string, wrap: string -> seq<string>)
      modifies this
      ensures doc == Some(LetterPage(old(doc).GetOr(NewDocument), content, wrap))
    {
      EnsureDocument();
      var start := Pen(PageBreak(doc.value), TopY);
      var d, y := start.doc, start.y;
      var lines := SplitLines(content);
      var i := 0;
      while i < |lines|
        invariant 0 <= i <= |lines|
        invariant Pen(d, y) == PlaceLines(start, lines[..i], wrap)
      {
        var line := lines[i];
        assert lines[..i + 1][..i] == lines[..i];
        if IsBlank(line) {
          y := y + LineHeight;
        } else {
          var wrapped := wrap(line);
          var before := Pen(d, y);
          var j := 0;
          while j < |wrapped|
            invariant 0 <= j <= |wrapped|
            invariant Pen(d, y) == PlaceAllWrapped(before, wrapped[..j])
          {
            assert wrapped[..j + 1][..j] == wrapped[..j];
            if y > BreakY {
              d := PageBreak(d);
              y := TopY;
            }
            d := Append(d, Text(wrapped[j], Margin, y));
            y := y + LineHeight;
            j := j + 1;
          }
          assert wrapped[..j] == wrapped;
        }
        i := i + 1;
      }
      assert lines[..i] == lines;
      doc := Some(d);
    }

    /** `addFooter`: nothing without a document; otherwise a label on every page i of N. */
    method AddFooter(note: string)
      modifies this
      ensures old(doc).None? ==> doc == old(doc)
      ensures old(doc).Some? ==> doc == Some(Footed(old(doc).value, note))
    {
      if doc.None? {
        return;
      }
      var d := doc.value;
      var pageCount := d.pages;
      var i := 1;
      while i <= pageCount
        invariant 1 <= i <= pageCount + 1
        invariant d == Doc(pageCount, old(doc).value.ops + FooterOps(i - 1, pageCount, note))
      {
        d := Append(d, SetPage(i));
        if note != "" {
          d := Append(d, CenteredText(note, FooterY));
        }
        d := Append(d, Text(PageLabel(i, pageCount), PageWidth - Margin, FooterY));
        i := i + 1;
      }
      doc := Some(d);
    }

    /**
     * `save`: throws without a document; otherwise true, or false when
     * jsPDF's own save throws (`saveFails`).
     */
    method Save(filename: Option<string>, saveFails: bool) returns (r: Completion<bool>)
      modifies this
      ensures old(doc).None? ==> r == Thrown(NoDocumentError) && doc == old(doc)
      ensures old(doc).Some? ==> r == Normal(!saveFails)
      ensures old(doc).Some? && saveFails ==> doc == old(doc)
      ensures old(doc).Some? && !saveFails ==> doc == Some(Append(old(doc).value, Saved(filename.GetOr(SaveDefaultFilename))))
    {
      if doc.None? {
        return Thrown(NoDocumentError);
      }
      if saveFails {
        return Normal(false);
      }
      doc := Some(Append(doc.value, Saved(filename.GetOr(SaveDefaultFilename))));
      return Normal(true);
    }

    /** `getDataURL`: throws without a document, else jsPDF's data URI (`output`). */
    method GetDataURL(output: string) returns (r: Completion<string>)
      ensures doc.None? ==> r == Thrown(NoDocumentError)
      ensures doc.Some? ==> r == Normal(output)
    {
      if doc.None? {
        return Thrown(NoDocumentError);
      }
      return Normal(output);
    }
  }

  /**
   * `generateLetterPDF`: composes the letter with its defaults and saves it
   * under `filename || 'love-letter.pdf'`. It returns a boolean, never an
   * object: false when composing throws (`composeFails`) or jsPDF's save
   * fails. `saved` is the file handed to the browser, if any.
   */
  method GenerateLetterPDF(letter: LetterData, filename: string, date: string, wrap: Wraps,
                           composeFails: bool, saveFails: bool)
    returns (ok: bool, saved: Option<Doc>)
    ensures ok == (!composeFails && !saveFails)
    ensures ok ==> saved == Some(Append(LetterDocument(letter, date, wrap), Saved(OrElse(filename, DefaultFilename))))
    ensures !ok ==> saved == None
  {
    var generator := new PdfGenerator();
    generator.AddCoverPage(OrElse(letter.title, DefaultTitle), OrElse(letter.subtitle, DefaultSubtitle), date,
                           wrap.title, wrap.subtitle);
    generator.AddLetterPage(OrElse(letter.content, ""), wrap.body);
    generator.AddFooter(FooterNote);
    if composeFails {
      return false, None;
    }
    var r := generator.Save(Some(OrElse(filename, DefaultFilename)), saveFails);
    match r {
      case Normal(b) =>
        ok := b;
      case Thrown(_) =>
        ok := false;
    }
    saved := if ok then generator.doc else None;
  }
}
