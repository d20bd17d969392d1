/**
 * The text rules of `exportInvoicePDF` in js/pdf.js: where each line of
 * text goes (the running `y`), item-name truncation, the default names,
 * the watermark decision and the file name. The drawing calls themselves
 * are not modelled; a page is the list of texts placed on it.
 */
module Pdf {
  import opened Wrappers
  import opened Text
  import opened Invoices
  import opened Premium

  const NAME_LIMIT: nat := 25
  const LIBRARY_MISSING := "PDF library not loaded. Please check your internet connection and refresh the page."
  const WATERMARK := "MADE WITH INVOICE MAKER"
  const UPGRADE_PROMPT := "Upgrade to Premium to remove this watermark - Only $4.99"

  /** One `doc.text(text, x, y)` call. */
  datatype Placed = Placed(text: string, x: int, y: int)

  /**
   * The page: the heading block, one line per item, the total block, the
   * watermark texts (empty for premium users) and the file name.
   */
  datatype Page = Page(header: seq<Placed>, rows: seq<Placed>, footer: seq<Placed>, watermark: seq<Placed>, filename: string)

  /** An item name longer than 25 characters is cut to 25 and followed by "...". */
  function TruncateName(name: string): (r: string)
    ensures |name| <= NAME_LIMIT ==> r == name
    ensures |name| > NAME_LIMIT ==> |r| == NAME_LIMIT + 3 && r[..NAME_LIMIT] == name[..NAME_LIMIT] && r[NAME_LIMIT..] == "..."
  {
    if |name| > NAME_LIMIT then name[..NAME_LIMIT] + "..." else name
  }

  /** A printed name is at most 28 characters, and printing it again changes nothing more. */
  lemma TruncateNameStable(name: string)
    ensures |TruncateName(name)| <= NAME_LIMIT + 3
    ensures TruncateName(TruncateName(name)) == TruncateName(name)
  {
    if |name| > NAME_LIMIT {
      var r := TruncateName(name);
      assert r[..NAME_LIMIT] == name[..NAME_LIMIT];
    }
  }

  /** `(clientName || "client").replace(/\s+/g, "-").toLowerCase()`. */
  function Slug(clientName: string): (r: string)
    ensures r != [] && NoSpace(r) && NoUpper(r)
    ensures clientName == [] ==> r == "client"
    ensures clientName != [] ==> r == ToLower(DashSpaces(clientName))
  {
    DefaultNameIsItsOwnSlug();
    ToLower(DashSpaces(if clientName == [] then "client" else clientName))
  }

  lemma DefaultNameIsItsOwnSlug()
    ensures ToLower(DashSpaces("client")) == "client"
  {
    assert NoSpace("client") && NoUpper("client");
    DashSpacesIdentity("client");
    ToLowerIdentity("client");
  }

  /** A slug is its own slug. */
  lemma SlugIdempotent(clientName: string)
    ensures Slug(Slug(clientName)) == Slug(clientName)
  {
    var s := Slug(clientName);
    DashSpacesIdentity(s);
    ToLowerIdentity(s);
  }

  /** `s.split("T")[0]`: everything before the first 'T', or all of `s` when there is none. */
  function BeforeT(s: string): (r: string)
    ensures |r| <= |s| && r == s[..|r|]
    ensures 'T' !in r
    ensures |r| < |s| ==> s[|r|] == 'T'
  {
    if s == [] || s[0] == 'T' then [] else [s[0]] + BeforeT(s[1..])
  }

  /** The name the PDF is saved under; `isoNow` is `new Date().toISOString()`. */
  function Filename(clientName: string, isoNow: string): (r: string)
    ensures |r| == 13 + |Slug(clientName)| + |BeforeT(isoNow)|
    ensures r[..8] == "invoice-" && r[|r| - 4..] == ".pdf"
    ensures r[8..8 + |Slug(clientName)|] == Slug(clientName)
  {
    var r := "invoice-" + Slug(clientName) + "-" + BeforeT(isoNow) + ".pdf";
    assert r[8..8 + |Slug(clientName)|] == Slug(clientName);
    r
  }

  lemma {:induction false} BeforeTOfIso(date: string, rest: string)
    requires 'T' !in date
    ensures BeforeT(date + "T" + rest) == date
  {
    if date != [] {
      assert (date + "T" + rest)[1..] == date[1..] + "T" + rest;
      BeforeTOfIso(date[1..], rest);
    }
  }

  /** An ISO timestamp gives the date part "YYYY-MM-DD". */
  lemma FilenameDate(clientName: string, date: string, rest: string)
    requires 'T' !in date
    ensures Filename(clientName, date + "T" + rest) == "invoice-" + Slug(clientName) + "-" + date + ".pdf"
  {
    BeforeTOfIso(date, rest);
  }

  /** The `y` of the heading: 20, or 25 on the "boxed" template. */
  function StartY(template: string): int {
    if template == "boxed" then 25 else 20
  }

  /** The heading block, from "INVOICE" at `start` down to the item column titles. */
  method PlaceHeader(inv: Invoice, start: int) returns (header: seq<Placed>, y: int)
    ensures y == start + 101
    ensures |header| > 0 && header[0] == Placed("INVOICE", 105, start)
    ensures Placed(inv.invoiceNumber, 105, start + 15) in header <==> inv.invoiceNumber != []
    ensures Placed(if inv.businessName == [] then "Business Name" else inv.businessName, 20, start + 43) in header
    ensures Placed(if inv.clientName == [] then "Client Name" else inv.clientName, 20, start + 66) in header
  {
    y := start;
    var heading := Placed("INVOICE", 105, y);
    y := y + 15;
    var numberLine := if inv.invoiceNumber != [] then [Placed(inv.invoiceNumber, 105, y)] else [];
    y := y + 20;
    var fromLabel := Placed("From:", 20, y);
    y := y + 8;
    var business := Placed(if inv.businessName == [] then "Business Name" else inv.businessName, 20, y);
    y := y + 15;
    var toLabel := Placed("To:", 20, y);
    y := y + 8;
    var client := Placed(if inv.clientName == [] then "Client Name" else inv.clientName, 20, y);
    y := y + 15;
    var dateLabel := Placed("Date:", 20, y);
    y := y + 20;
    var columns := [Placed("Description", 20, y), Placed("Qty", 120, y), Placed("Price", 140, y), Placed("Total", 170, y)];
    var rest := [fromLabel, business, toLabel, client, dateLabel] + columns;
    header := [heading] + numberLine + rest;
    assert business == rest[1] && client == rest[3];
    assert forall d :: d in rest ==> d.y > start + 15;
  }

  /** The item lines: one per item, 8 apart, starting at `y0`. */
  method PlaceRows(items: seq<Item>, y0: int) returns (rows: seq<Placed>, y: int)
    ensures y == y0 + 8 * |items|
    ensures |rows| == |items|
    ensures forall i :: 0 <= i < |items| ==> rows[i] == Placed(TruncateName(items[i].name), 20, y0 + 8 * i)
  {
    y := y0;
    rows := [];
    var i := 0;
    while i < |items|
      invariant 0 <= i <= |items|
      invariant y == y0 + 8 * i
      invariant |rows| == i
      invariant forall j :: 0 <= j < i ==> rows[j] == Placed(TruncateName(items[j].name), 20, y0 + 8 * j)
    {
      rows := rows + [Placed(TruncateName(items[i].name), 20, y)];
      y := y + 8;
      i := i + 1;
    }
  }

  /**
   * `exportInvoicePDF(invoice)`: `libraryLoaded` stands for `window.jspdf`,
   * `template` for the template selector's value, `storage` for local
   * storage and `isoNow` for the clock.
   */
  method ExportInvoicePDF(inv: Invoice, template: string, storage: Storage, libraryLoaded: bool, isoNow: string)
    returns (r: Result<Page>)
    ensures !libraryLoaded <==> r == Failure(LIBRARY_MISSING)
    ensures r.Success? <==> libraryLoaded
    ensures r.Success? && !IsPremium(storage) ==>
      r.value.watermark == [Placed(WATERMARK, 105, 150), Placed(UPGRADE_PROMPT, 105, 280)]
    ensures r.Success? ==>
      var start := StartY(template);
      var page := r.value;
      && |page.header| > 0 && page.header[0] == Placed("INVOICE", 105, start)
      && (Placed(inv.invoiceNumber, 105, start + 15) in page.header <==> inv.invoiceNumber != [])
      && Placed(if inv.businessName == [] then "Business Name" else inv.businessName, 20, start + 43) in page.header
      && Placed(if inv.clientName == [] then "Client Name" else inv.clientName, 20, start + 66) in page.header
      && |page.rows| == |inv.items|
      && (forall i :: 0 <= i < |inv.items| ==> page.rows[i] == Placed(TruncateName(inv.items[i].name), 20, start + 111 + 8 * i))
      && page.footer == [Placed("TOTAL:", 140, start + 121 + 8 * |inv.items|), Placed(inv.total, 170, start + 121 + 8 * |inv.items|)]
      && (page.watermark == [] <==> IsPremium(storage))
      && page.filename == Filename(inv.clientName, isoNow)
  {
    if !libraryLoaded {
      return Failure(LIBRARY_MISSING);
    }
    var y := 20;
    if template == "boxed" {
      y := 25;
    }
    var header;
    header, y := PlaceHeader(inv, y);
    y := y + 10;
    var rows;
    rows, y := PlaceRows(inv.items, y);
    y := y + 10;
    var footer := [Placed("TOTAL:", 140, y), Placed(inv.total, 170, y)];
    var watermark := [];
    if !IsPremium(storage) {
      watermark := [Placed(WATERMARK, 105, 150), Placed(UPGRADE_PROMPT, 105, 280)];
    }
    var filename := Filename(inv.clientName, isoNow);
    r := Success(Page(header, rows, footer, watermark, filename));
  }
}
