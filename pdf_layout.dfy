/**
 * Layout rules of the PDF report (an A4 page of 595 by 842 points): text
 * truncation, the page-break rule of the expense sections, the sample size
 * used to decode receipt photos, and the grid of attachment pages (two
 * receipts per row, three rows per page).
 *
 * Drawing on the canvas is not modelled; the layout is returned as values.
 */
module PdfLayout {
  import opened Wrappers
  import opened Ints
  import opened Strings
  import opened Enums
  import opened Model
  import opened Aggregates

  const PageWidth: real := 595.0
  const PageHeight: real := 842.0
  const Margin: real := 40.0
  /** Lowest baseline a section may reach before `checkNewPage` starts a new page. */
  const BreakLine: real := PageHeight - Margin - 30.0
  /** Baseline of the version footer drawn on every page. */
  const FooterLine: real := PageHeight - 20.0

  const ImagesPerRow: nat := 2
  const RowsPerPage: nat := 3
  const ImagesPerPage: nat := ImagesPerRow * RowsPerPage
  const ImageWidth: real := (PageWidth - Margin * 3.0) / 2.0
  const ImageHeight: real := (PageHeight - Margin * 2.0 - 60.0) / 3.0 - 30.0
  const AttachmentsTitle: string := "ALLEGATI SCONTRINI"

  // ---------------------------------------------------------------------
  // Text truncation
  // ---------------------------------------------------------------------

  /**
   * `truncateText`: a text longer than `maxLength` keeps its first
   * `maxLength - 3` characters followed by `...`. Every call site passes
   * 10 to 70; below 3 Kotlin's `take` would throw.
   */
  function TruncateText(text: string, maxLength: int): (r: string)
    requires maxLength >= 3
    ensures |text| <= maxLength ==> r == text
    ensures |text| > maxLength ==>
      |r| == maxLength && r[..maxLength - 3] == text[..maxLength - 3] && r[maxLength - 3..] == "..."
  {
    if |text| > maxLength then text[..maxLength - 3] + "..." else text
  }

  /** Truncating twice changes nothing more, and the result always fits. */
  lemma TruncateTextIdempotent(text: string, maxLength: int)
    requires maxLength >= 3
    ensures |TruncateText(text, maxLength)| <= maxLength
    ensures TruncateText(TruncateText(text, maxLength), maxLength) == TruncateText(text, maxLength)
  {
  }

  // ---------------------------------------------------------------------
  // Sample size of receipt photos
  // ---------------------------------------------------------------------

  /**
   * `calculateInSampleSize` of the report: when a side exceeds its request,
   * doubles the sample size while both half sides divided by it still reach
   * their requests. The sides come from the decoder (`-1` when it failed);
   * the requests are twice the cell size.
   */
  method PdfSampleSize(width: int, height: int, reqWidth: int, reqHeight: int) returns (s: int)
    requires reqWidth > 0 && reqHeight > 0
    requires -IntLimit <= width < IntLimit && -IntLimit <= height < IntLimit
    ensures IsPowerOfTwo(s) && s < IntLimit
    ensures height <= reqHeight && width <= reqWidth ==> s == 1
    ensures Quot(Quot(height, 2), s) < reqHeight || Quot(Quot(width, 2), s) < reqWidth
    ensures forall p :: 1 <= p < s && IsPowerOfTwo(p) ==>
      Quot(Quot(height, 2), p) >= reqHeight && Quot(Quot(width, 2), p) >= reqWidth
  {
    s := 1;
    var halfHeight := Quot(height, 2);
    var halfWidth := Quot(width, 2);
    if height > reqHeight || width > reqWidth {
      while Quot(halfHeight, s) >= reqHeight && Quot(halfWidth, s) >= reqWidth
        invariant IsPowerOfTwo(s) && 1 <= s <= Max(1, height)
        invariant forall p :: 1 <= p < s && IsPowerOfTwo(p) ==>
          Quot(halfHeight, p) >= reqHeight && Quot(halfWidth, p) >= reqWidth
        decreases height - s
      {
        QuotientAtLeastOne(halfHeight, s);
        forall p | 1 <= p < 2 * s && IsPowerOfTwo(p)
          ensures Quot(halfHeight, p) >= reqHeight && Quot(halfWidth, p) >= reqWidth
        {
          if p >= s {
            PowerOfTwoGap(s, p);
          }
        }
        assert IsPowerOfTwo(2 * s) by { assert (2 * s) / 2 == s; }
        s := s * 2;
      }
    } else {
      assert halfHeight < reqHeight;
    }
  }

  // ---------------------------------------------------------------------
  // Page breaks
  // ---------------------------------------------------------------------

  /** The write position of the report and the pages finished so far. */
  class PageCursor {
    var y: real
    var pageNumber: int
    /** Page numbers whose footer has been drawn and that were closed, in order. */
    var finishedPages: seq<int>

    predicate Valid()
      reads this
    {
      pageNumber >= 1 && |finishedPages| == pageNumber - 1
      && forall k :: 0 <= k < |finishedPages| ==> finishedPages[k] == k + 1
    }

    /** Page 1, at the top margin. */
    constructor()
      ensures Valid() && y == Margin && pageNumber == 1 && finishedPages == []
    {
      y := Margin;
      pageNumber := 1;
      finishedPages := [];
    }

    /** `yPosition += amount` after drawing something. */
    method Advance(amount: real)
      modifies this
      ensures y == old(y) + amount
      ensures pageNumber == old(pageNumber) && finishedPages == old(finishedPages)
    {
      y := y + amount;
    }

    /**
     * `checkNewPage`: when `requiredSpace` more points would pass the break
     * line, closes the page with its footer and starts the next one at the
     * top margin.
     */
    method CheckNewPage(requiredSpace: real) returns (started: bool)
      requires Valid()
      modifies this
      ensures Valid()
      ensures started <==> old(y) + requiredSpace > BreakLine
      ensures started ==>
        pageNumber == old(pageNumber) + 1 && y == Margin && finishedPages == old(finishedPages) + [old(pageNumber)]
      ensures !started ==> y == old(y) && pageNumber == old(pageNumber) && finishedPages == old(finishedPages)
      ensures requiredSpace <= BreakLine - Margin ==> y + requiredSpace <= BreakLine
    {
      if y + requiredSpace > BreakLine {
        finishedPages := finishedPages + [pageNumber];
        pageNumber := pageNumber + 1;
        y := Margin;
        return true;
      }
      return false;
    }
  }

  // ---------------------------------------------------------------------
  // Attachment pages
  // ---------------------------------------------------------------------

  /** The expenses with a receipt, in order. */
  function Attachments(spese: seq<Spesa>): (atts: seq<Spesa>)
    ensures forall s :: s in atts <==> s in spese && s.fotoScontrinoPath.Some?
  {
    Where(spese, (s: Spesa) => s.fotoScontrinoPath.Some?)
  }

  /** `(n + IMAGES_PER_PAGE - 1) / IMAGES_PER_PAGE`. */
  function PageCount(n: nat): nat {
    (n + ImagesPerPage - 1) / ImagesPerPage
  }

  /** The page count is the ceiling of `n / 6`: enough cells, and no page left empty. */
  lemma PageCountIsCeiling(n: nat)
    ensures n <= ImagesPerPage * PageCount(n) < n + ImagesPerPage
    ensures PageCount(n) == 0 <==> n == 0
  {
  }

  /** `endsWith(".pdf", ignoreCase = true)` on the stored path. */
  predicate IsPdfPath(path: Option<string>) {
    path.Some? && |path.value| >= 4 && Upper(path.value[|path.value| - 4..]) == ".PDF"
  }

  /** The description in a caption: the category's label when the description is blank. */
  function CaptionText(s: Spesa): (r: string)
    ensures |r| <= 25
  {
    TruncateText(if IsBlank(s.descrizione) then s.categoria.DisplayName() else s.descrizione, 25)
  }

  /** The header of one attachment page: its page number and title. */
  datatype AttachmentPage = AttachmentPage(number: int, title: string)

  /** One receipt cell: caption number, page, grid position, top-left corner, kind, caption text. */
  datatype Cell = Cell(number: nat, pageNumber: int, row: nat, column: nat,
                       x: real, y: real, isPdf: bool, caption: string)

  /** The title of attachment page `k` (from 0) out of `total`. */
  function PageTitle(k: nat, total: nat): string {
    if total > 1 then AttachmentsTitle + " (" + NatToString(k + 1) + "/" + NatToString(total) + ")"
    else AttachmentsTitle
  }

  /** Where attachment `i` (from 0) lands when the attachment pages follow page `lastPage`. */
  function CellFor(i: nat, s: Spesa, lastPage: int): Cell {
    var row := (i % ImagesPerPage) / ImagesPerRow;
    var column := i % ImagesPerRow;
    Cell(i + 1, lastPage + 1 + i / ImagesPerPage, row, column,
         Margin + column as real * (ImageWidth + Margin),
         Margin + 50.0 + row as real * (ImageHeight + 40.0),
         IsPdfPath(s.fotoScontrinoPath), CaptionText(s))
  }

  /**
   * The attachment pages: one page per six receipts after page `pageNumber0`,
   * filled row by row, two cells a row. Returns the page headers, the cells
   * in attachment order and the last page number.
   */
  method LayOutAttachments(spese: seq<Spesa>, pageNumber0: int)
    returns (pages: seq<AttachmentPage>, cells: seq<Cell>, pageNumber: int)
    ensures var atts := Attachments(spese);
      |pages| == PageCount(|atts|) && |cells| == |atts| && pageNumber == pageNumber0 + |pages|
    ensures forall k :: 0 <= k < |pages| ==>
      pages[k] == AttachmentPage(pageNumber0 + k + 1, PageTitle(k, |pages|))
    ensures var atts := Attachments(spese);
      forall i :: 0 <= i < |cells| ==> cells[i] == CellFor(i, atts[i], pageNumber0)
  {
    var atts := Attachments(spese);
    var n := |atts|;
    pageNumber := pageNumber0;
    pages := [];
    cells := [];
    if n > 0 {
      var attachmentIndex := 0;
      var totalPages := (n + ImagesPerPage - 1) / ImagesPerPage;
      for pageIdx := 0 to totalPages
        invariant attachmentIndex == |cells| && attachmentIndex == if pageIdx * ImagesPerPage < n then pageIdx * ImagesPerPage else n
        invariant |pages| == pageIdx && pageNumber == pageNumber0 + pageIdx
        invariant forall k :: 0 <= k < |pages| ==>
          pages[k] == AttachmentPage(pageNumber0 + k + 1, PageTitle(k, totalPages))
        invariant forall i :: 0 <= i < |cells| ==> cells[i] == CellFor(i, atts[i], pageNumber0)
      {
        pageNumber := pageNumber + 1;
        var pageTitle := if totalPages > 1
          then AttachmentsTitle + " (" + NatToString(pageIdx + 1) + "/" + NatToString(totalPages) + ")"
          else AttachmentsTitle;
        pages := pages + [AttachmentPage(pageNumber, pageTitle)];
        cells := FillPage(atts, pageIdx, pageNumber0, cells);
        attachmentIndex := |cells|;
      }
    }
  }

  /**
   * The rows and columns of one attachment page: appends the cells of page
   * `pageIdx` to `before`, which holds every earlier page's cells.
   */
  method FillPage(atts: seq<Spesa>, pageIdx: nat, pageNumber0: int, before: seq<Cell>)
    returns (cells: seq<Cell>)
    requires |before| == pageIdx * ImagesPerPage <= |atts|
    requires forall i :: 0 <= i < |before| ==> before[i] == CellFor(i, atts[i], pageNumber0)
    ensures |cells| == if (pageIdx + 1) * ImagesPerPage < |atts| then (pageIdx + 1) * ImagesPerPage else |atts|
    ensures forall i :: 0 <= i < |cells| ==> cells[i] == CellFor(i, atts[i], pageNumber0)
  {
    var n := |atts|;
    cells := before;
    var attachmentIndex := |before|;
    var row := 0;
    while row < RowsPerPage
      invariant 0 <= row <= RowsPerPage
      invariant attachmentIndex == |cells|
      invariant attachmentIndex == if pageIdx * ImagesPerPage + row * ImagesPerRow < n
        then pageIdx * ImagesPerPage + row * ImagesPerRow else n
      invariant forall i :: 0 <= i < |cells| ==> cells[i] == CellFor(i, atts[i], pageNumber0)
      decreases RowsPerPage - row
    {
      var col := 0;
      while col < ImagesPerRow
        invariant 0 <= col <= ImagesPerRow
        invariant attachmentIndex == |cells| <= n
        invariant attachmentIndex == if pageIdx * ImagesPerPage + row * ImagesPerRow + col < n
          then pageIdx * ImagesPerPage + row * ImagesPerRow + col else n
        invariant forall i :: 0 <= i < |cells| ==> cells[i] == CellFor(i, atts[i], pageNumber0)
        decreases ImagesPerRow - col
      {
        if attachmentIndex >= n {
          break;
        }
        var cell := DrawCell(atts, pageIdx, row, col, pageNumber0);
        cells := cells + [cell];
        attachmentIndex := attachmentIndex + 1;
        col := col + 1;
      }
      if attachmentIndex >= n {
        break;
      }
      row := row + 1;
    }
  }

  /** One cell of the grid: the receipt at slot `col` of row `row` on page `pageIdx`, where it is drawn. */
  method DrawCell(atts: seq<Spesa>, pageIdx: nat, row: nat, col: nat, pageNumber0: int) returns (cell: Cell)
    requires row < RowsPerPage && col < ImagesPerRow
    requires pageIdx * ImagesPerPage + row * ImagesPerRow + col < |atts|
    ensures var i := pageIdx * ImagesPerPage + row * ImagesPerRow + col;
      cell == CellFor(i, atts[i], pageNumber0)
  {
    var attachmentIndex := pageIdx * ImagesPerPage + row * ImagesPerRow + col;
    var spesa := atts[attachmentIndex];
    SlotOfIndex(pageIdx, row, col);
    var x := Margin + col as real * (ImageWidth + Margin);
    var y := Margin + 50.0 + row as real * (ImageHeight + 40.0);
    var isPdfFile := IsPdfPath(spesa.fotoScontrinoPath);
    var desc := if IsBlank(spesa.descrizione) then spesa.categoria.DisplayName() else spesa.descrizione;
    var truncDesc := TruncateText(desc, 25);
    cell := Cell(attachmentIndex + 1, pageNumber0 + 1 + pageIdx, row, col, x, y, isPdfFile, truncDesc);
  }

  /** The grid position of slot `col` of row `row` on page `pageIdx`. */
  lemma SlotOfIndex(pageIdx: nat, row: nat, col: nat)
    requires row < RowsPerPage && col < ImagesPerRow
    ensures var i := pageIdx * ImagesPerPage + row * ImagesPerRow + col;
      i / ImagesPerPage == pageIdx && (i % ImagesPerPage) / ImagesPerRow == row && i % ImagesPerRow == col
  {
    assert ImagesPerPage == 6 && ImagesPerRow == 2 && RowsPerPage == 3;
    var r := 2 * row + col;
    var q := 3 * pageIdx + row;
    var i := 6 * pageIdx + r;
    assert i == 2 * q + col;
    assert i / 6 == pageIdx && i % 6 == r;
    assert r / 2 == row;
    EvenPlus(q, col);
  }

  lemma EvenPlus(q: int, b: int)
    requires 0 <= b < 2
    ensures (2 * q + b) % 2 == b
  {
  }

  /** Two attachments never share a cell, and every cell lies on one of the attachment pages. */
  lemma CellsDistinct(n: nat, i: nat, j: nat, s: Spesa, t: Spesa, lastPage: int)
    requires i < n && j < n && i != j
    ensures var a := CellFor(i, s, lastPage); var b := CellFor(j, t, lastPage);
      (a.pageNumber, a.row, a.column) != (b.pageNumber, b.row, b.column)
    ensures var a := CellFor(i, s, lastPage);
      lastPage < a.pageNumber <= lastPage + PageCount(n) && a.row < RowsPerPage && a.column < ImagesPerRow
  {
    assert i / ImagesPerPage < PageCount(n);
  }

  /** Every cell, its image and its two caption lines stay inside the margins and above the footer. */
  lemma CellInsidePage(i: nat, s: Spesa, lastPage: int)
    ensures var c := CellFor(i, s, lastPage);
      Margin <= c.x && c.x + ImageWidth <= PageWidth - Margin
      && Margin + 50.0 <= c.y && c.y + ImageHeight + 27.0 < FooterLine
  {
  }
}
