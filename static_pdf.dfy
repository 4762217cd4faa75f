/**
 * The pagination of `handleExportPdf`: a running vertical cursor `y` that
 * each block advances, and `checkNewPage(n)`, which starts a new page and
 * puts the cursor back at the top margin when a block of height `n` would
 * run past the bottom margin. Page height and text heights are inputs; the
 * text layout itself belongs to the PDF library.
 */
module PdfExport {
  import opened Json

  const Margin: int := 15
  const TitleStep: int := 15       // y += 15 after the document title
  const SectionRoom: int := 20     // checkNewPage(20) before a section heading
  const LocationsGap: int := 5     // y += 5 before the Locations heading
  const HeadingStep: int := 8      // y += 8 after a section heading
  const CharacterRoom: int := 40   // checkNewPage(40) before each character
  const LocationRoom: int := 30    // checkNewPage(30) before each location
  const NameStep: int := 6         // y += 6 after an entry's name
  const EntryGap: int := 10        // y += text height + 10 after an entry's text

  /** A position in the document: the cursor `y` on a page (pages count from 1). */
  datatype Cursor = Cursor(y: int, page: nat)

  predicate AtOrBefore(a: Cursor, b: Cursor) {
    a.page < b.page || (a.page == b.page && a.y <= b.y)
  }

  predicate Before(a: Cursor, b: Cursor) {
    a.page < b.page || (a.page == b.page && a.y < b.y)
  }

  /** A block of height `needed` fits between `c` and the bottom margin. */
  predicate Fits(c: Cursor, needed: int, pageHeight: int) {
    Margin <= c.y && c.y + needed <= pageHeight - Margin
  }

  /** `checkNewPage(needed)`. */
  function PageCheck(c: Cursor, needed: int, pageHeight: int): (r: Cursor)
    ensures r.page == c.page + 1 <==> c.y + needed > pageHeight - Margin
    ensures r.page == c.page + 1 ==> r.y == Margin
    ensures r.page != c.page + 1 ==> r == c
    ensures AtOrBefore(c, r)
    ensures c.y >= Margin && needed <= pageHeight - 2 * Margin ==> Fits(r, needed, pageHeight)
  {
    if c.y + needed > pageHeight - Margin then Cursor(Margin, c.page + 1) else c
  }

  /** The cursor and the positions of the entries' names after a run of entries. */
  datatype Run = Run(cursor: Cursor, spots: seq<Cursor>)

  /**
   * One `forEach` over the entries of a section: `checkNewPage(room)`, the
   * name at `y`, `y += 6`, the text, `y += height + 10` (unfolded from the
   * last entry).
   */
  function Entries(c: Cursor, room: int, heights: seq<nat>, pageHeight: int): (r: Run)
    ensures |r.spots| == |heights|
    ensures heights == [] ==> r.cursor == c
    ensures AtOrBefore(c, r.cursor)
    ensures c.y >= Margin ==> r.cursor.y >= Margin
    ensures |r.spots| > 0 ==> AtOrBefore(c, r.spots[0]) && Before(r.spots[|r.spots| - 1], r.cursor)
    ensures forall i :: 0 <= i < |r.spots| - 1 ==> Before(r.spots[i], r.spots[i + 1])
    ensures c.y >= Margin && room <= pageHeight - 2 * Margin ==>
              forall i :: 0 <= i < |r.spots| ==> Fits(r.spots[i], room, pageHeight)
  {
    if heights == [] then Run(c, [])
    else
      var before := Entries(c, room, heights[..|heights| - 1], pageHeight);
      var spot := PageCheck(before.cursor, room, pageHeight);
      Run(Cursor(spot.y + NameStep + heights[|heights| - 1] + EntryGap, spot.page), before.spots + [spot])
  }

  /** Where `handleExportPdf` writes everything, and where the cursor ends. */
  datatype PdfLayout = PdfLayout(
    title: Cursor,
    charactersHeading: Option<Cursor>,
    characterSpots: seq<Cursor>,
    locationsHeading: Option<Cursor>,
    locationSpots: seq<Cursor>,
    final: Cursor)

  function ExportLayout(pageHeight: int, characterHeights: seq<nat>, locationHeights: seq<nat>): (l: PdfLayout)
    ensures l.title == Cursor(Margin, 1)
    ensures |l.characterSpots| == |characterHeights| && |l.locationSpots| == |locationHeights|
    ensures l.charactersHeading.Some? <==> characterHeights != []
    ensures l.locationsHeading.Some? <==> locationHeights != []
    ensures l.charactersHeading.Some? ==>
              l.charactersHeading.value == PageCheck(Cursor(Margin + TitleStep, 1), SectionRoom, pageHeight)
    ensures l.locationsHeading.Some? ==> l.locationsHeading.value.y >= Margin + LocationsGap
    ensures characterHeights == [] && locationHeights == [] ==> l.final == Cursor(Margin + TitleStep, 1)
  {
    var title := Cursor(Margin, 1);
    var afterTitle := Cursor(title.y + TitleStep, 1);
    var characters :=
      if characterHeights == [] then (None, Run(afterTitle, []))
      else
        var h := PageCheck(afterTitle, SectionRoom, pageHeight);
        (Some(h), Entries(Cursor(h.y + HeadingStep, h.page), CharacterRoom, characterHeights, pageHeight));
    var locations :=
      if locationHeights == [] then (None, Run(characters.1.cursor, []))
      else
        var checked := PageCheck(characters.1.cursor, SectionRoom, pageHeight);
        var h := Cursor(checked.y + LocationsGap, checked.page);
        (Some(h), Entries(Cursor(h.y + HeadingStep, h.page), LocationRoom, locationHeights, pageHeight));
    PdfLayout(title, characters.0, characters.1.spots, locations.0, locations.1.spots, locations.1.cursor)
  }

  /**
   * What the pagination guarantees: one name position per record, sections
   * present exactly when non-empty, everything written in document order, the
   * cursor never above the top margin, and, on a page tall enough for a
   * block, every entry starting where its block fits above the bottom margin.
   */
  lemma ExportLayoutProperties(pageHeight: int, characterHeights: seq<nat>, locationHeights: seq<nat>)
    ensures var l := ExportLayout(pageHeight, characterHeights, locationHeights);
      && |l.characterSpots| == |characterHeights|
      && |l.locationSpots| == |locationHeights|
      && (l.charactersHeading.Some? <==> characterHeights != [])
      && (l.locationsHeading.Some? <==> locationHeights != [])
      && l.title == Cursor(Margin, 1)
      && l.final.page >= 1 && l.final.y >= Margin
      && (forall i :: 0 <= i < |l.characterSpots| ==> Before(l.title, l.characterSpots[i]))
      && (forall i :: 0 <= i < |l.characterSpots| - 1 ==> Before(l.characterSpots[i], l.characterSpots[i + 1]))
      && (forall i :: 0 <= i < |l.locationSpots| - 1 ==> Before(l.locationSpots[i], l.locationSpots[i + 1]))
      && (forall i, j :: 0 <= i < |l.characterSpots| && 0 <= j < |l.locationSpots| ==>
            Before(l.characterSpots[i], l.locationSpots[j]))
      && (CharacterRoom <= pageHeight - 2 * Margin ==>
            forall i :: 0 <= i < |l.characterSpots| ==> Fits(l.characterSpots[i], CharacterRoom, pageHeight))
      && (LocationRoom <= pageHeight - 2 * Margin ==>
            forall i :: 0 <= i < |l.locationSpots| ==> Fits(l.locationSpots[i], LocationRoom, pageHeight))
  {
    var l := ExportLayout(pageHeight, characterHeights, locationHeights);
    var cs := l.characterSpots;
    var ls := l.locationSpots;
    forall i | 0 <= i < |cs|
      ensures Before(l.title, cs[i])
    {
      SortedChain(cs, 0, i);
    }
    forall i, j | 0 <= i < |cs| && 0 <= j < |ls|
      ensures Before(cs[i], ls[j])
    {
      SortedChain(cs, i, |cs| - 1);
      SortedChain(ls, 0, j);
    }
  }

  /** In a chain of strictly ordered positions, earlier ones come before later ones. */
  lemma {:induction false} SortedChain(s: seq<Cursor>, i: nat, j: nat)
    requires i <= j < |s|
    requires forall k :: 0 <= k < |s| - 1 ==> Before(s[k], s[k + 1])
    ensures AtOrBefore(s[i], s[j])
    decreases j - i
  {
    if i < j {
      SortedChain(s, i + 1, j);
    }
  }

  /** The document being written (its page count) together with the running cursor `y`. */
  class PdfWriter {
    const pageHeight: int
    var y: int
    var pages: nat

    function Position(): Cursor
      reads this
    {
      Cursor(y, pages)
    }

    /** `new jsPDF()` has one page; `let y = 15`. */
    constructor (pageHeight: int)
      ensures this.pageHeight == pageHeight && Position() == Cursor(Margin, 1)
    {
      this.pageHeight := pageHeight;
      y := Margin;
      pages := 1;
    }

    method CheckNewPage(needed: int)
      modifies this
      ensures Position() == PageCheck(old(Position()), needed, pageHeight)
    {
      if y + needed > pageHeight - Margin {
        pages := pages + 1;
        y := Margin;
      }
    }

    /** `y += dy`. */
    method Advance(dy: int)
      modifies this
      ensures Position() == Cursor(old(y) + dy, old(pages))
    {
      y := y + dy;
    }

    /** The `forEach` over one section's entries, returning where each name was written. */
    method WriteEntries(room: int, heights: seq<nat>) returns (spots: seq<Cursor>)
      modifies this
      ensures Run(Position(), spots) == Entries(old(Position()), room, heights, pageHeight)
    {
      spots := [];
      var i := 0;
      while i < |heights|
        invariant 0 <= i <= |heights|
        invariant Run(Position(), spots) == Entries(old(Position()), room, heights[..i], pageHeight)
      {
        assert heights[..i + 1][..i] == heights[..i];
        CheckNewPage(room);
        spots := spots + [Position()];
        Advance(NameStep);
        Advance(heights[i] + EntryGap);
        i := i + 1;
      }
      assert heights[..i] == heights;
    }
  }

  /** The layout part of `handleExportPdf`, on a fresh document. */
  method LayOutExport(pageHeight: int, characterHeights: seq<nat>, locationHeights: seq<nat>)
    returns (layout: PdfLayout)
    ensures layout == ExportLayout(pageHeight, characterHeights, locationHeights)
  {
    var doc := new PdfWriter(pageHeight);
    var title := doc.Position();
    doc.Advance(TitleStep);
    var charactersHeading: Option<Cursor> := None;
    var characterSpots: seq<Cursor> := [];
    if |characterHeights| > 0 {
      doc.CheckNewPage(SectionRoom);
      charactersHeading := Some(doc.Position());
      doc.Advance(HeadingStep);
      characterSpots := doc.WriteEntries(CharacterRoom, characterHeights);
    }
    var locationsHeading: Option<Cursor> := None;
    var locationSpots: seq<Cursor> := [];
    if |locationHeights| > 0 {
      doc.CheckNewPage(SectionRoom);
      doc.Advance(LocationsGap);
      locationsHeading := Some(doc.Position());
      doc.Advance(HeadingStep);
      locationSpots := doc.WriteEntries(LocationRoom, locationHeights);
    }
    layout := PdfLayout(title, charactersHeading, characterSpots, locationsHeading, locationSpots, doc.Position());
  }
}
