/**
 * Invoice numbers of js/app.js: "INV-" + year + two-digit month + "-" +
 * the running counter padded to at least three digits. The year and the
 * month (already 1-based) come from the clock and are parameters.
 */
module Numbering {
  import opened Wrappers
  import opened Decimal
  import opened Storage

  /** `String(month).padStart(2, "0")`. */
  function MonthText(month: nat): (r: string)
    ensures AllDigits(r) && Value(r) == month && |r| >= 2
  {
    PaddedDigitsValue(month, 2);
    PadStart(Digits(month), 2, '0')
  }

  /** Everything up to and including the second dash: "INV-YYYYMM-". */
  function Prefix(year: nat, month: nat): string {
    "INV-" + Digits(year) + MonthText(month) + "-"
  }

  /** `String(counter).padStart(3, "0")`. */
  function CounterText(counter: nat): (r: string)
    ensures AllDigits(r) && Value(r) == counter
    ensures |r| == if |Digits(counter)| >= 3 then |Digits(counter)| else 3
  {
    PaddedDigitsValue(counter, 3);
    PadStart(Digits(counter), 3, '0')
  }

  /** The text `generateInvoiceNumber()` returns for a given counter value. */
  function InvoiceNumber(year: nat, month: nat, counter: nat): (r: string)
    ensures |r| == |Prefix(year, month)| + |CounterText(counter)|
    ensures r[..|Prefix(year, month)|] == Prefix(year, month)
    ensures r[|Prefix(year, month)|..] == CounterText(counter)
  {
    var p := Prefix(year, month);
    var r := p + CounterText(counter);
    assert r[..|p|] == p;
    assert r[|p|..] == CounterText(counter);
    r
  }

  /** A month from 1 to 12 always takes exactly two characters. */
  lemma MonthTakesTwoDigits(month: nat)
    requires 1 <= month <= 12
    ensures |MonthText(month)| == 2
  {
    if month >= 10 {
      assert month / 10 == 1;
      assert |Digits(month)| == |Digits(1)| + 1 == 2;
    } else {
      assert |Digits(month)| == 1;
    }
  }

  /**
   * The counter is never truncated: its full value reads back from the
   * tail of the number, so two counters in the same month never share a
   * number.
   */
  lemma {:induction false} CounterReadsBack(year: nat, month: nat, c1: nat, c2: nat)
    requires InvoiceNumber(year, month, c1) == InvoiceNumber(year, month, c2)
    ensures c1 == c2
  {
    var p := Prefix(year, month);
    assert CounterText(c1) == InvoiceNumber(year, month, c1)[|p|..];
    assert CounterText(c2) == InvoiceNumber(year, month, c2)[|p|..];
  }

  /**
   * The layout of a number, read back field by field: "INV-", the digits
   * of the year, two digits that read as the month, "-", and digits that
   * read as the counter.
   */
  lemma NumberLayout(year: nat, month: nat, counter: nat)
    requires 1 <= month <= 12
    ensures var r := InvoiceNumber(year, month, counter);
      var y := |Digits(year)|;
      && |r| >= 7 + y
      && r[..4] == "INV-"
      && r[4..4 + y] == Digits(year) && Value(r[4..4 + y]) == year
      && AllDigits(r[4 + y..6 + y]) && Value(r[4 + y..6 + y]) == month
      && r[6 + y] == '-'
      && AllDigits(r[7 + y..]) && Value(r[7 + y..]) == counter
  {
    var p, c := Prefix(year, month), CounterText(counter);
    var y := |Digits(year)|;
    var r := InvoiceNumber(year, month, counter);
    PrefixLayout(year, month);
    assert r == p + c;
    assert r[..4] == "INV-" by {
      SliceOfConcat(p, c, 0, 4);
    }
    assert r[4..4 + y] == Digits(year) by {
      SliceOfConcat(p, c, 4, 4 + y);
    }
    assert r[4 + y..6 + y] == MonthText(month) by {
      SliceOfConcat(p, c, 4 + y, 6 + y);
    }
    assert r[6 + y] == '-';
    assert r[7 + y..] == c;
    ValueOfDigits(year);
  }

  /** The prefix read field by field. */
  lemma PrefixLayout(year: nat, month: nat)
    requires 1 <= month <= 12
    ensures var p := Prefix(year, month);
      var y := |Digits(year)|;
      && |p| == 7 + y
      && p[..4] == "INV-"
      && p[4..4 + y] == Digits(year)
      && p[4 + y..6 + y] == MonthText(month)
      && p[6 + y] == '-'
  {
    MonthTakesTwoDigits(month);
    FourParts("INV-", Digits(year), MonthText(month), "-");
  }

  /** The four parts of a concatenation sit at their offsets. */
  lemma FourParts<T>(a: seq<T>, b: seq<T>, c: seq<T>, d: seq<T>)
    ensures var s := a + b + c + d;
      var i, j, k := |a|, |a| + |b|, |a| + |b| + |c|;
      && |s| == k + |d|
      && s[..i] == a && s[i..j] == b && s[j..k] == c && s[k..] == d
  {
    var s := a + b + c + d;
    var i, j, k := |a|, |a| + |b|, |a| + |b| + |c|;
    assert s[..i] == a;
    assert s[i..j] == b;
    assert s[j..k] == c;
    assert s[k..] == d;
  }

  lemma SliceOfConcat<T>(a: seq<T>, b: seq<T>, i: nat, j: nat)
    requires i <= j <= |a|
    ensures (a + b)[i..j] == a[i..j]
  {
  }

  /** The module-level `invoiceCounter`. */
  class InvoiceCounter {
    var invoiceCounter: nat

    constructor ()
      ensures invoiceCounter == 0
    {
      invoiceCounter := 0;
    }

    /** `generateInvoiceNumber()`: `++invoiceCounter`, then the number built from the new value. */
    method GenerateInvoiceNumber(year: nat, month: nat) returns (number: string)
      modifies this
      ensures invoiceCounter == old(invoiceCounter) + 1
      ensures number == InvoiceNumber(year, month, invoiceCounter)
    {
      invoiceCounter := invoiceCounter + 1;
      number := InvoiceNumber(year, month, invoiceCounter);
    }

    /**
     * `initializeInvoiceCounter()`: the counter becomes the number of
     * stored invoices; when the read rejects, the rejection propagates and
     * the counter is untouched.
     */
    method InitializeInvoiceCounter(db: InvoiceDB, engineOk: bool, readOk: bool) returns (r: Outcome)
      requires db.Valid()
      modifies this, db
      ensures db.Valid() && db.records == old(db.records)
      ensures r.Resolved? ==> invoiceCounter == |db.records|
      ensures r.Rejected? ==> invoiceCounter == old(invoiceCounter)
      ensures r.Resolved? <==> ConnectOutcome(old(db.handle), old(db.schema), engineOk).Resolved? && readOk
    {
      var invoices := db.GetInvoices(engineOk, readOk);
      if invoices.Failure? {
        return Rejected(invoices.error);
      }
      NewestFirstListsEachRecordOnce(db.records);
      invoiceCounter := |invoices.value|;
      r := Resolved;
    }
  }
}
