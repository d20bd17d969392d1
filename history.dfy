/**
 * The history screen of js/app.js: the search filter, the set of
 * selected invoices with its select-all box, saving an edited invoice
 * and deleting the selected invoices in bulk.
 */
module History {
  import opened Wrappers
  import opened Text
  import opened Decimal
  import opened Invoices
  import opened Storage

  /** The search test for one invoice against an already lower-cased, non-empty term. */
  predicate Matches(inv: Invoice, term: string) {
    || Includes(ToLower(inv.clientName), term)
    || Includes(ToLower(inv.businessName), term)
    || Includes(ToLower(inv.invoiceNumber), term)
  }

  /** `invoices.filter(...)` with the search test: the matching invoices, in their order. */
  function Filter(invs: seq<Invoice>, term: string): (r: seq<Invoice>)
    ensures |r| <= |invs|
    ensures forall x :: x in r <==> x in invs && Matches(x, term)
    ensures |invs| == 1 ==> r == (if Matches(invs[0], term) then invs else [])
  {
    if invs == [] then []
    else (if Matches(invs[0], term) then [invs[0]] else []) + Filter(invs[1..], term)
  }

  /** Filtering a concatenation filters each part and keeps the parts in order. */
  lemma {:induction false} FilterAppend(a: seq<Invoice>, b: seq<Invoice>, term: string)
    ensures Filter(a + b, term) == Filter(a, term) + Filter(b, term)
  {
    if a == [] {
      assert a + b == b;
    } else {
      assert (a + b)[0] == a[0];
      assert (a + b)[1..] == a[1..] + b;
      FilterAppend(a[1..], b, term);
    }
  }

  /**
   * The filtering step of `filterInvoices()`: the typed text lower-cased
   * (not trimmed); an empty term keeps the list as it is.
   */
  function FilterInvoices(invs: seq<Invoice>, typed: string): (r: seq<Invoice>)
    ensures typed == [] ==> r == invs
    ensures typed != [] ==> forall x :: x in r <==> x in invs && Matches(x, ToLower(typed))
  {
    var searchTerm := ToLower(typed);
    if searchTerm == [] then invs else Filter(invs, searchTerm)
  }

  /** The search ignores the case of the typed text. */
  lemma SearchIgnoresCase(invs: seq<Invoice>, typed: string)
    ensures FilterInvoices(invs, ToLower(typed)) == FilterInvoices(invs, typed)
  {
    ToLowerIdempotent(typed);
  }

  /** Every string contains itself. */
  lemma IncludesItself(s: string)
    ensures Includes(s, s)
  {
    assert OccursAt(s, s, 0) by {
      assert s[0..|s|] == s;
    }
  }

  /** Typing an invoice's number, in any case, finds that invoice. */
  lemma SearchFindsByNumber(invs: seq<Invoice>, i: nat)
    requires i < |invs| && invs[i].invoiceNumber != []
    ensures invs[i] in FilterInvoices(invs, invs[i].invoiceNumber)
  {
    IncludesItself(ToLower(invs[i].invoiceNumber));
  }

  /** No element occurs twice: how a JavaScript `Set` iterates, in insertion order. */
  predicate NoDuplicates(s: seq<int>) {
    forall i, j :: 0 <= i < j < |s| ==> s[i] != s[j]
  }

  /** `set.add(id)`: appended when absent, otherwise no change. */
  function SetAdd(s: seq<int>, id: int): (r: seq<int>)
    ensures NoDuplicates(s) ==> NoDuplicates(r)
    ensures forall x :: x in r <==> x in s || x == id
    ensures id in s ==> r == s
    ensures id !in s ==> r == s + [id]
  {
    if id in s then s else s + [id]
  }

  /** `set.delete(id)`: removed when present, the order of the rest kept. */
  function SetDelete(s: seq<int>, id: int): (r: seq<int>)
    ensures NoDuplicates(s) ==> NoDuplicates(r)
    ensures forall x :: x in r <==> x in s && x != id
    ensures |r| <= |s|
    ensures id !in s ==> r == s
  {
    if s == [] then []
    else if s[0] == id then SetDelete(s[1..], id)
    else
      var rest := SetDelete(s[1..], id);
      assert NoDuplicates(s) ==> s[0] !in s[1..];
      [s[0]] + rest
  }

  /** In a set without duplicates, deleting the element at position `k` closes the gap and keeps the order. */
  lemma {:induction false} SetDeleteAt(s: seq<int>, id: int, k: nat)
    requires NoDuplicates(s) && k < |s| && s[k] == id
    ensures SetDelete(s, id) == s[..k] + s[k + 1..]
  {
    if k == 0 {
      assert id !in s[1..];
      assert s[..0] + s[1..] == s[1..];
    } else {
      assert s[0] != id;
      assert NoDuplicates(s[1..]) by {
        assert forall i, j :: 0 <= i < j < |s| - 1 ==> s[1..][i] == s[i + 1] && s[1..][j] == s[j + 1];
      }
      SetDeleteAt(s[1..], id, k - 1);
      DropOneAfterHead(s, k);
    }
  }

  /** Removing position `k > 0` from a sequence is keeping its head and removing position `k - 1` from its tail. */
  lemma DropOneAfterHead<T>(s: seq<T>, k: nat)
    requires 0 < k < |s|
    ensures [s[0]] + (s[1..][..k - 1] + s[1..][k..]) == s[..k] + s[k + 1..]
  {
    assert s[1..][..k - 1] == s[1..k];
    assert s[1..][k..] == s[k + 1..];
    assert [s[0]] + s[1..k] == s[..k];
  }

  /** One checkbox change applied to the set. */
  function Toggled(s: seq<int>, id: int, checked: bool): seq<int> {
    if checked then SetAdd(s, id) else SetDelete(s, id)
  }

  /** The checkbox changes for `ids`, applied to the set in list order. */
  function ToggledAll(s: seq<int>, ids: seq<int>, checked: bool): seq<int>
    decreases |ids|
  {
    if ids == [] then s
    else Toggled(ToggledAll(s, ids[..|ids| - 1], checked), ids[|ids| - 1], checked)
  }

  /**
   * Applying a run of adds (removes) to a set without duplicates leaves
   * a set without duplicates holding the union (difference) of the two.
   */
  lemma {:induction false} ToggledAllMembers(s: seq<int>, ids: seq<int>, checked: bool)
    requires NoDuplicates(s)
    ensures NoDuplicates(ToggledAll(s, ids, checked))
    ensures checked ==> forall x :: x in ToggledAll(s, ids, checked) <==> x in s || x in ids
    ensures !checked ==> forall x :: x in ToggledAll(s, ids, checked) <==> x in s && x !in ids
    decreases |ids|
  {
    if ids != [] {
      var front := ids[..|ids| - 1];
      ToggledAllMembers(s, front, checked);
      assert ids == front + [ids[|ids| - 1]];
    }
  }

  /** Adding ids already in the set changes nothing, order included. */
  lemma {:induction false} ToggledAllPresent(s: seq<int>, ids: seq<int>)
    requires forall x :: x in ids ==> x in s
    ensures ToggledAll(s, ids, true) == s
    decreases |ids|
  {
    if ids != [] {
      ToggledAllPresent(s, ids[..|ids| - 1]);
    }
  }

  /** The module-level `selectedInvoices` set. */
  class Selection {
    var selected: seq<int>

    ghost predicate Valid()
      reads this
    {
      NoDuplicates(selected)
    }

    constructor ()
      ensures Valid() && selected == []
    {
      selected := [];
    }

    /** One invoice's checkbox changed. */
    method Toggle(id: int, checked: bool)
      requires Valid()
      modifies this
      ensures Valid()
      ensures selected == if checked then SetAdd(old(selected), id) else SetDelete(old(selected), id)
    {
      if checked {
        selected := SetAdd(selected, id);
      } else {
        selected := SetDelete(selected, id);
      }
    }

    /** The select-all box changed: every listed checkbox's id is added, or every one removed. */
    method SelectAll(ids: seq<int>, checked: bool)
      requires Valid()
      modifies this
      ensures Valid()
      ensures checked ==> forall x :: x in selected <==> x in old(selected) || x in ids
      ensures !checked ==> forall x :: x in selected <==> x in old(selected) && x !in ids
      ensures selected == ToggledAll(old(selected), ids, checked)
    {
      var k := 0;
      while k < |ids|
        invariant 0 <= k <= |ids| && Valid()
        invariant selected == ToggledAll(old(selected), ids[..k], checked)
      {
        assert ids[..k + 1][..k] == ids[..k];
        Toggle(ids[k], checked);
        k := k + 1;
      }
      assert ids[..k] == ids;
      ToggledAllMembers(old(selected), ids, checked);
    }

    /** `clearSelection()`. */
    method Clear()
      modifies this
      ensures Valid() && selected == []
    {
      selected := [];
    }
  }

  /** The select-all box: unchecked, checked, or indeterminate. */
  datatype BoxState = Unchecked | Checked | Indeterminate

  function CountChecked(boxes: seq<bool>): (n: nat)
    ensures n <= |boxes|
  {
    if boxes == [] then 0 else (if boxes[0] then 1 else 0) + CountChecked(boxes[1..])
  }

  lemma {:induction false} NoneChecked(boxes: seq<bool>)
    ensures CountChecked(boxes) == 0 <==> forall i :: 0 <= i < |boxes| ==> !boxes[i]
  {
    if boxes != [] {
      NoneChecked(boxes[1..]);
      assert forall i :: 1 <= i < |boxes| ==> boxes[i] == boxes[1..][i - 1];
    }
  }

  lemma {:induction false} AllChecked(boxes: seq<bool>)
    ensures CountChecked(boxes) == |boxes| <==> forall i :: 0 <= i < |boxes| ==> boxes[i]
  {
    if boxes != [] {
      AllChecked(boxes[1..]);
      assert forall i :: 1 <= i < |boxes| ==> boxes[i] == boxes[1..][i - 1];
    }
  }

  /**
   * `updateSelectAllState()`: with no checkboxes nothing is updated;
   * otherwise checked when all are, unchecked when none is, and
   * indeterminate in between.
   */
  function SelectAllState(boxes: seq<bool>): (r: Option<BoxState>)
    ensures r == None <==> boxes == []
    ensures r == Some(Checked) <==> boxes != [] && forall i :: 0 <= i < |boxes| ==> boxes[i]
    ensures r == Some(Unchecked) <==> boxes != [] && forall i :: 0 <= i < |boxes| ==> !boxes[i]
    ensures r == Some(Indeterminate) <==> exists i, j :: 0 <= i < |boxes| && 0 <= j < |boxes| && boxes[i] && !boxes[j]
  {
    NoneChecked(boxes);
    AllChecked(boxes);
    if boxes == [] then None
    else
      var checkedCount := CountChecked(boxes);
      if checkedCount == 0 then Some(Unchecked)
      else if checkedCount == |boxes| then Some(Checked)
      else Some(Indeterminate)
  }

  const EDIT_NEEDS_ITEM := "Add at least one item"

  /** The fields the edit dialog writes over the invoice being edited. */
  datatype Edit = Edit(businessName: string, clientName: string, date: string, time: string, items: seq<Item>, total: string)

  /**
   * The "save edit" handler: refuses an empty item list; otherwise the
   * invoice spread with the edited fields, so `id`, `invoiceNumber` and
   * `currency` are those of the invoice being edited.
   */
  function SaveEdit(current: Invoice, edit: Edit): (r: Result<Invoice>)
    ensures r.Failure? <==> edit.items == []
    ensures r.Failure? ==> r.error == EDIT_NEEDS_ITEM
    ensures r.Success? ==> && r.value.id == current.id && r.value.invoiceNumber == current.invoiceNumber
                           && r.value.currency == current.currency
                           && r.value.businessName == edit.businessName && r.value.clientName == edit.clientName
                           && r.value.date == edit.date && r.value.time == edit.time
                           && r.value.items == edit.items && r.value.total == edit.total
  {
    if edit.items == [] then Failure(EDIT_NEEDS_ITEM)
    else Success(current.(businessName := edit.businessName, clientName := edit.clientName,
                          date := edit.date, time := edit.time, items := edit.items, total := edit.total))
  }

  /**
   * Saving an edit of a stored invoice replaces that record: the set of
   * ids and every other record stay as they were.
   */
  lemma SaveEditOverwrites(records: map<int, Invoice>, edit: Edit, id: int)
    requires KeyedById(records) && id in records
    requires SaveEdit(records[id], edit).Success?
    ensures var r := Put(records, SaveEdit(records[id], edit).value);
      && r.Keys == records.Keys && KeyedById(r)
      && |r| == |records|
      && forall k :: k in records && k != id ==> r[k] == records[k]
  {
    var r := Put(records, SaveEdit(records[id], edit).value);
    assert r.Keys == records.Keys;
  }

  /** The store after `deleteInvoice` for each id in turn. */
  function RemoveAll(records: map<int, Invoice>, ids: seq<int>): map<int, Invoice>
  {
    if ids == [] then records else RemoveAll(Remove(records, ids[0]), ids[1..])
  }

  /** The ids in a list. */
  function Ids(ids: seq<int>): set<int> {
    set x | x in ids
  }

  /** Deleting a list of ids removes exactly those keys and keeps every other record as it was. */
  lemma {:induction false} RemoveAllRemovesExactly(records: map<int, Invoice>, ids: seq<int>)
    ensures var r := RemoveAll(records, ids);
      && r.Keys == records.Keys - Ids(ids)
      && (forall k :: k in r ==> k in records && r[k] == records[k])
      && (KeyedById(records) ==> KeyedById(r))
  {
    if ids != [] {
      var next := Remove(records, ids[0]);
      RemoveAllRemovesExactly(next, ids[1..]);
      assert Ids(ids) == {ids[0]} + Ids(ids[1..]);
    }
  }

  lemma {:induction false} RemoveAllAppend(records: map<int, Invoice>, ids: seq<int>, id: int)
    ensures RemoveAll(records, ids + [id]) == Remove(RemoveAll(records, ids), id)
  {
    if ids != [] {
      assert (ids + [id])[1..] == ids[1..] + [id];
      RemoveAllAppend(Remove(records, ids[0]), ids[1..], id);
    }
  }

  /** The position of the first id whose delete transaction fails, or the length when none does. */
  function FirstFailing(ids: seq<int>, failing: set<int>): (k: nat)
    ensures k <= |ids|
    ensures forall j :: 0 <= j < k ==> ids[j] !in failing
    ensures k < |ids| ==> ids[k] in failing
  {
    if ids == [] || ids[0] in failing then 0 else 1 + FirstFailing(ids[1..], failing)
  }

  const BULK_FAILED := "Failed to delete some invoices"

  /** The success toast, given the count it reads. */
  function DeletedMessage(count: nat): string {
    Digits(count) + " invoices deleted successfully"
  }

  datatype BulkResult = Cancelled | Deleted(message: string) | Failed(message: string)

  /**
   * The `for (const invoiceId of selectedInvoices)` loop: deletes the ids
   * in order and stops at the first rejection. `failing` is the set of
   * ids whose delete transaction fails.
   */
  method DeleteEach(db: InvoiceDB, ids: seq<int>, engineOk: bool, failing: set<int>) returns (ok: bool)
    requires db.Valid()
    modifies db
    ensures db.Valid()
    ensures var opens := ids == [] || ConnectOutcome(old(db.handle), old(db.schema), engineOk).Resolved?;
      var done := if opens then FirstFailing(ids, failing) else 0;
      && db.records == RemoveAll(old(db.records), ids[..done])
      && (ok <==> done == |ids|)
    ensures ok && ids != [] ==> db.handle
    ensures ids == [] ==> db.handle == old(db.handle) && db.schema == old(db.schema)
  {
    ghost var opens := ids == [] || ConnectOutcome(db.handle, db.schema, engineOk).Resolved?;
    ghost var done := if opens then FirstFailing(ids, failing) else 0;
    var i := 0;
    while i < |ids|
      invariant 0 <= i <= done
      invariant db.Valid()
      invariant db.records == RemoveAll(old(db.records), ids[..i])
      invariant i > 0 ==> db.handle && opens
      invariant i == 0 ==> db.handle == old(db.handle) && db.schema == old(db.schema)
    {
      var outcome := db.DeleteInvoice(ids[i], engineOk, ids[i] !in failing);
      if outcome.Rejected? {
        assert i == done by {
          if opens {
            assert ids[i] in failing;
          }
        }
        return false;
      }
      assert opens && ids[i] !in failing;
      assert ids[..i + 1] == ids[..i] + [ids[i]];
      RemoveAllAppend(old(db.records), ids[..i], ids[i]);
      i := i + 1;
    }
    assert ids[..i] == ids;
    return true;
  }

  /**
   * `handleBulkDelete()`. Declining the confirmation does nothing.
   * Otherwise the selected ids are deleted in insertion order, stopping
   * at the first rejected delete with the selection kept; after all
   * succeed the selection is cleared and the history reloaded, and the
   * toast reads the size of the now empty selection, so it always says
   * "0 invoices deleted successfully". A failed reload also reports
   * "Failed to delete some invoices".
   */
  method HandleBulkDelete(db: InvoiceDB, sel: Selection, confirmed: bool, engineOk: bool, failing: set<int>, reloadOk: bool)
    returns (r: BulkResult)
    requires db.Valid() && sel.Valid()
    modifies db, sel
    ensures db.Valid() && sel.Valid()
    ensures !confirmed ==> r == Cancelled && db.records == old(db.records) && sel.selected == old(sel.selected)
    ensures confirmed ==>
      var ids := old(sel.selected);
      var opens := ids == [] || ConnectOutcome(old(db.handle), old(db.schema), engineOk).Resolved?;
      var done := if opens then FirstFailing(ids, failing) else 0;
      && db.records == RemoveAll(old(db.records), ids[..done])
      && (done < |ids| ==> r == Failed(BULK_FAILED) && sel.selected == ids)
      && (done == |ids| ==> sel.selected == [] && (r == Deleted(DeletedMessage(0)) || r == Failed(BULK_FAILED)))
      && (done == |ids| && ids != [] && reloadOk ==> r == Deleted(DeletedMessage(0)))
    ensures (confirmed && old(sel.selected) == [] && reloadOk
             && ConnectOutcome(old(db.handle), old(db.schema), engineOk).Resolved?) ==>
      r == Deleted(DeletedMessage(0))
  {
    if !confirmed {
      return Cancelled;
    }
    var ids := sel.selected;
    var ok := DeleteEach(db, ids, engineOk, failing);
    if !ok {
      return Failed(BULK_FAILED);
    }
    sel.Clear();
    var reload := db.GetInvoices(engineOk, reloadOk);
    if reload.Failure? {
      return Failed(BULK_FAILED);
    }
    r := Deleted(DeletedMessage(|sel.selected|));
  }
}
