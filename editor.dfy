/**
 * The invoice being edited in js/app.js: the global `items` list that the
 * rows push to and splice from, the `hasUnsavedChanges` flag, the form's
 * text fields and the single "invoiceDraft" slot of local storage.
 */
module Editor {
  import opened Wrappers
  import opened Invoices

  /** A draft older than this many milliseconds is discarded unseen. */
  const DRAFT_MAX_AGE: int := 24 * 60 * 60 * 1000
  const DEFAULT_CURRENCY := "ZMW"

  /** The values of the form's text inputs. */
  datatype Form = Form(businessName: string, clientName: string, invoiceDate: string, invoiceTime: string, currency: string)

  /**
   * A parsed draft. `timestamp` is `None` when the stored object has no
   * number there, in which case the age computed from it is NaN.
   */
  datatype Draft = Draft(timestamp: Option<int>, form: Form, items: seq<Item>, total: string)

  /** What the "invoiceDraft" key holds when present: text that fails to parse as a draft object, or a draft. */
  datatype Slot = Corrupt | Stored(draft: Draft)

  /** `items.splice(index, 1)`: removes position `index` when there is one, else changes nothing. */
  function Splice<T>(s: seq<T>, index: nat): (r: seq<T>)
    ensures index < |s| ==> |r| == |s| - 1 && r[..index] == s[..index] && r[index..] == s[index + 1..]
    ensures index >= |s| ==> r == s
  {
    if index < |s| then s[..index] + s[index + 1..] else s
  }

  /**
   * Each delete button splices at the index captured when its row was
   * built. Once an earlier row j is gone, the button of row i removes the
   * row that was built at i + 1, and row i stays.
   */
  lemma StaleIndexDeletesWrongRow<T>(s: seq<T>, j: nat, i: nat)
    requires j < i && i + 1 < |s|
    ensures Splice(Splice(s, j), i) == s[..j] + s[j + 1..i + 1] + s[i + 2..]
    ensures s[i] in Splice(Splice(s, j), i)
  {
    var r := Splice(Splice(s, j), i);
    assert r[i - 1] == s[i];
  }

  /** The same stale index on the last row points past the end, and its button does nothing. */
  lemma StaleIndexOnLastRowIsIgnored<T>(s: seq<T>, j: nat)
    requires j < |s| - 1
    ensures Splice(Splice(s, j), |s| - 1) == Splice(s, j)
  {
  }

  /** The items `recoverDraft` rebuilds: each stored item through `addItemRow`'s defaults, or one empty row. */
  function Restored(stored: seq<Item>): (r: seq<Item>)
    ensures stored != [] ==> |r| == |stored| && forall k :: 0 <= k < |r| ==> r[k] == WithDefaults(stored[k])
    ensures stored == [] ==> r == [Item("", 1.0, 0.0)]
  {
    if stored == [] then [WithDefaults(NoData)] else WithDefaultsAll(stored)
  }

  function WithDefaultsAll(s: seq<Item>): (r: seq<Item>)
    ensures |r| == |s| && forall k :: 0 <= k < |s| ==> r[k] == WithDefaults(s[k])
  {
    if s == [] then [] else [WithDefaults(s[0])] + WithDefaultsAll(s[1..])
  }

  /**
   * Recovery gives back exactly the rows that were saved iff there was at
   * least one and none had a zero quantity (which `|| 1` turns into 1).
   */
  lemma RestoredIdentity(stored: seq<Item>)
    ensures Restored(stored) == stored <==> stored != [] && forall k :: 0 <= k < |stored| ==> stored[k].qty != 0.0
  {
    if stored != [] && Restored(stored) == stored {
      forall k | 0 <= k < |stored| ensures stored[k].qty != 0.0 {
        assert Restored(stored)[k] == WithDefaults(stored[k]);
      }
    }
  }

  /** The form `recoverDraft` writes back: every field as stored, an empty currency as "ZMW". */
  function RestoredForm(f: Form): (r: Form)
    ensures r.businessName == f.businessName && r.clientName == f.clientName
    ensures r.invoiceDate == f.invoiceDate && r.invoiceTime == f.invoiceTime
    ensures r.currency == (if f.currency == "" then DEFAULT_CURRENCY else f.currency)
  {
    f.(currency := if f.currency == "" then DEFAULT_CURRENCY else f.currency)
  }

  /** What `checkForSavedDraft` leaves in the slot, and the draft it offers for recovery if any. */
  datatype Check = Check(slot: Option<Slot>, offer: Option<Draft>)

  /**
   * `checkForSavedDraft` at time `now`: nothing stored, nothing happens; a
   * slot that fails to parse, or a draft more than 24 hours old, is removed
   * without an offer; any other draft, including one with no timestamp
   * (NaN is not greater than the limit), is offered and left in place.
   */
  function Examine(slot: Option<Slot>, now: int): (r: Check)
    ensures r.offer.Some? ==> r.slot == slot && slot == Some(Stored(r.offer.value))
    ensures r.offer.None? ==> r.slot == None
    ensures slot.Some? && slot.value.Stored? ==>
      (r.offer.Some? <==> slot.value.draft.timestamp.None? || now - slot.value.draft.timestamp.value <= DRAFT_MAX_AGE)
  {
    match slot
    case None => Check(None, None)
    case Some(Corrupt) => Check(None, None)
    case Some(Stored(d)) =>
      if d.timestamp.Some? && now - d.timestamp.value > DRAFT_MAX_AGE then Check(None, None)
      else Check(slot, Some(d))
  }

  /**
   * A draft saved at `saved` is offered, unchanged, at any time up to and
   * including exactly 24 hours later, and dropped from then on.
   */
  lemma SavedDraftOfferedForADay(d: Draft, saved: int, now: int)
    requires d.timestamp == Some(saved)
    ensures Examine(Some(Stored(d)), now).offer == (if now <= saved + DRAFT_MAX_AGE then Some(d) else None)
    ensures now > saved + DRAFT_MAX_AGE ==> Examine(Some(Stored(d)), now).slot == None
  {
  }

  /** The edited invoice and its draft slot. */
  class InvoiceEditor {
    var items: seq<Item>
    var hasUnsavedChanges: bool
    var form: Form
    var draftSlot: Option<Slot>

    constructor (form0: Form, stored: Option<Slot>)
      ensures items == [] && !hasUnsavedChanges && form == form0 && draftSlot == stored
    {
      items := [];
      hasUnsavedChanges := false;
      form := form0;
      draftSlot := stored;
    }

    /** `addItemRow(data)`: appends the defaulted item and returns the index its row captures. */
    method AddItemRow(data: Item) returns (index: nat)
      modifies this
      ensures items == old(items) + [WithDefaults(data)]
      ensures index == |old(items)| && items[index] == WithDefaults(data)
      ensures hasUnsavedChanges == old(hasUnsavedChanges) && form == old(form) && draftSlot == old(draftSlot)
    {
      items := items + [WithDefaults(data)];
      index := |items| - 1;
    }

    /** A row's delete button: splices at its captured index and marks the invoice changed. */
    method DeleteRow(index: nat)
      modifies this
      ensures items == Splice(old(items), index)
      ensures hasUnsavedChanges
      ensures form == old(form) && draftSlot == old(draftSlot)
    {
      items := Splice(items, index);
      hasUnsavedChanges := true;
    }

    /**
     * A row's name input: sets `items[index].name`. When the captured index
     * is past the end the assignment throws and nothing changes (`ok` false).
     */
    method EditName(index: nat, value: string) returns (ok: bool)
      modifies this
      ensures ok <==> index < |old(items)|
      ensures ok ==> items == old(items)[index := old(items)[index].(name := value)] && hasUnsavedChanges
      ensures !ok ==> items == old(items) && hasUnsavedChanges == old(hasUnsavedChanges)
      ensures form == old(form) && draftSlot == old(draftSlot)
    {
      ok := index < |items|;
      if ok {
        items := items[index := items[index].(name := value)];
        hasUnsavedChanges := true;
      }
    }

    /** A row's quantity input, with the typed text already converted by unary `+`. */
    method EditQty(index: nat, value: real) returns (ok: bool)
      modifies this
      ensures ok <==> index < |old(items)|
      ensures ok ==> items == old(items)[index := old(items)[index].(qty := value)] && hasUnsavedChanges
      ensures !ok ==> items == old(items) && hasUnsavedChanges == old(hasUnsavedChanges)
      ensures form == old(form) && draftSlot == old(draftSlot)
    {
      ok := index < |items|;
      if ok {
        items := items[index := items[index].(qty := value)];
        hasUnsavedChanges := true;
      }
    }

    /** A row's price input, with the typed text already converted by unary `+`. */
    method EditPrice(index: nat, value: real) returns (ok: bool)
      modifies this
      ensures ok <==> index < |old(items)|
      ensures ok ==> items == old(items)[index := old(items)[index].(price := value)] && hasUnsavedChanges
      ensures !ok ==> items == old(items) && hasUnsavedChanges == old(hasUnsavedChanges)
      ensures form == old(form) && draftSlot == old(draftSlot)
    {
      ok := index < |items|;
      if ok {
        items := items[index := items[index].(price := value)];
        hasUnsavedChanges := true;
      }
    }

    /**
     * `saveDraft()`: skipped when nothing changed and there are no items;
     * otherwise the slot is overwritten by a snapshot stamped `now`.
     */
    method SaveDraft(now: int, totalText: string)
      modifies this
      ensures !old(hasUnsavedChanges) && old(items) == [] ==> draftSlot == old(draftSlot)
      ensures old(hasUnsavedChanges) || old(items) != [] ==>
        draftSlot == Some(Stored(Draft(Some(now), old(form), old(items), totalText)))
      ensures items == old(items) && form == old(form) && hasUnsavedChanges == old(hasUnsavedChanges)
    {
      if !hasUnsavedChanges && |items| == 0 {
        return;
      }
      draftSlot := Some(Stored(Draft(Some(now), form, items, totalText)));
    }

    /** `checkForSavedDraft()`: drops a stale or unreadable slot, or offers the draft. */
    method CheckForSavedDraft(now: int) returns (offer: Option<Draft>)
      modifies this
      ensures draftSlot == Examine(old(draftSlot), now).slot
      ensures offer == Examine(old(draftSlot), now).offer
      ensures items == old(items) && form == old(form) && hasUnsavedChanges == old(hasUnsavedChanges)
    {
      var c := Examine(draftSlot, now);
      draftSlot := c.slot;
      offer := c.offer;
    }

    /** `recoverDraft(draft)`: restores the form and rebuilds the rows one `addItemRow` at a time. */
    method RecoverDraft(d: Draft)
      modifies this
      ensures form == RestoredForm(d.form)
      ensures items == Restored(d.items)
      ensures hasUnsavedChanges
      ensures draftSlot == old(draftSlot)
    {
      form := RestoredForm(d.form);
      items := [];
      if |d.items| > 0 {
        var k := 0;
        while k < |d.items|
          invariant 0 <= k <= |d.items|
          invariant items == WithDefaultsAll(d.items[..k])
          invariant form == RestoredForm(d.form) && draftSlot == old(draftSlot)
        {
          var _ := AddItemRow(d.items[k]);
          assert d.items[..k + 1] == d.items[..k] + [d.items[k]];
          WithDefaultsAllAppend(d.items[..k], d.items[k]);
          k := k + 1;
        }
        assert d.items[..k] == d.items;
      } else {
        var _ := AddItemRow(NoData);
      }
      hasUnsavedChanges := true;
    }

    /** `clearDraft()`: empties the slot and clears the flag; calling it again changes nothing. */
    method ClearDraft()
      modifies this
      ensures draftSlot == None && !hasUnsavedChanges
      ensures items == old(items) && form == old(form)
    {
      draftSlot := None;
      hasUnsavedChanges := false;
    }
  }

  lemma WithDefaultsAllAppend(s: seq<Item>, x: Item)
    ensures WithDefaultsAll(s + [x]) == WithDefaultsAll(s) + [WithDefaults(x)]
  {
  }

  /**
   * A draft saved from the editor and recovered the same day brings back
   * its fields and, when every row has a non-zero quantity, its rows.
   */
  lemma DraftRoundTrip(f: Form, rows: seq<Item>, total: string, saved: int, now: int)
    requires saved <= now <= saved + DRAFT_MAX_AGE
    requires rows != [] && forall k :: 0 <= k < |rows| ==> rows[k].qty != 0.0
    requires f.currency != ""
    ensures var c := Examine(Some(Stored(Draft(Some(saved), f, rows, total))), now);
      c.offer.Some? && RestoredForm(c.offer.value.form) == f && Restored(c.offer.value.items) == rows
  {
    RestoredIdentity(rows);
  }
}
