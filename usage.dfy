/**
 * The usage ledger of js/app.js: the "usage" entry of local storage, a
 * nested object month -> day -> action -> count, and the free-tier limits
 * read from it. The month key is the UTC "YYYY-MM" prefix of
 * `new Date().toISOString()` and the day key is the local
 * `new Date().toDateString()`; both are parameters here.
 */
module Usage {
  import opened Collections

  const INVOICES_PER_MONTH: nat := 10
  const PDFS_PER_DAY: nat := 5
  const INVOICE_SAVED := "invoice_saved"
  const PDF_GENERATED := "pdf_generated"

  /** One day's counters: action -> count. */
  type Counts = map<string, nat>
  /** One month's days: day key -> counters. */
  type Days = map<string, Counts>
  /** The whole ledger: month key -> days. */
  type Ledger = map<string, Days>

  /** `counts[action] || 0`. */
  function Count(counts: Counts, action: string): nat {
    if action in counts then counts[action] else 0
  }

  /** `usage[month]`, where an absent month reads as no days. */
  function MonthDays(u: Ledger, month: string): Days {
    if month in u then u[month] else map[]
  }

  /** `usage[month]?.[day]?.[action] || 0`. */
  function CountAt(u: Ledger, month: string, day: string, action: string): nat {
    var days := MonthDays(u, month);
    if day in days then Count(days[day], action) else 0
  }

  /** The sum of one action's counts over all days of a month, in no particular order. */
  ghost function Total(days: Days, action: string): nat
    decreases |days|
  {
    if days == map[] then 0
    else
      var d := Pick(days.Keys);
      Count(days[d], action) + Total(days - {d}, action)
  }

  /** The sum does not depend on which day is taken first. */
  lemma {:induction false} TotalSplit(days: Days, action: string, d: string)
    requires d in days
    ensures Total(days, action) == Count(days[d], action) + Total(days - {d}, action)
    decreases |days|
  {
    var e := Pick(days.Keys);
    if e != d {
      assert days - {e} - {d} == days - {d} - {e};
      TotalSplit(days - {e}, action, d);
      TotalSplit(days - {d}, action, e);
    }
  }

  /**
   * `trackUsage(action)`: the ledger with that one counter raised by 1,
   * absent levels created, an absent count read as 0.
   */
  function Tracked(u: Ledger, month: string, day: string, action: string): (r: Ledger)
    ensures r.Keys == u.Keys + {month}
    ensures r[month].Keys == MonthDays(u, month).Keys + {day}
    ensures CountAt(r, month, day, action) == CountAt(u, month, day, action) + 1
    ensures forall m, d, a :: m != month || d != day || a != action ==> CountAt(r, m, d, a) == CountAt(u, m, d, a)
    ensures forall m :: m in u && m != month ==> r[m] == u[m]
    ensures forall d :: d in MonthDays(u, month) && d != day ==> r[month][d] == u[month][d]
  {
    var days := MonthDays(u, month);
    var counts := if day in days then days[day] else map[];
    u[month := days[day := counts[action := Count(counts, action) + 1]]]
  }

  /**
   * A tracked action adds exactly 1 to its own monthly sum and nothing to
   * any other action's, whatever the sum already was: the ledger never
   * consults the limits.
   */
  lemma TrackedMonthTotal(u: Ledger, month: string, day: string, action: string, b: string)
    ensures Total(MonthDays(Tracked(u, month, day, action), month), b)
         == Total(MonthDays(u, month), b) + (if b == action then 1 else 0)
  {
    var days := MonthDays(u, month);
    var days' := MonthDays(Tracked(u, month, day, action), month);
    TotalSplit(days', b, day);
    assert days' - {day} == days - {day};
    if day in days {
      TotalSplit(days, b, day);
    } else {
      assert days - {day} == days;
    }
  }

  /** The ledger after one tracked action per listed day, all in one month. */
  function TrackedAll(u: Ledger, month: string, days: seq<string>, action: string): Ledger
    decreases |days|
  {
    if days == [] then u else TrackedAll(Tracked(u, month, days[0], action), month, days[1..], action)
  }

  lemma {:induction false} TrackedAllMonthTotal(u: Ledger, month: string, days: seq<string>, action: string)
    ensures Total(MonthDays(TrackedAll(u, month, days, action), month), action)
         == Total(MonthDays(u, month), action) + |days|
    decreases |days|
  {
    if days != [] {
      TrackedMonthTotal(u, month, days[0], action, action);
      TrackedAllMonthTotal(Tracked(u, month, days[0], action), month, days[1..], action);
    }
  }

  /** What `getUsageStats()` returns; `pdfsToday` is the field the source spells `pdfsTodayy`. */
  datatype Stats = Stats(invoicesThisMonth: nat, pdfsToday: nat, invoiceLimit: nat, pdfLimit: nat)

  /** The "usage" entry of local storage. */
  class UsageLedger {
    var usage: Ledger

    constructor (stored: Ledger)
      ensures usage == stored
    {
      usage := stored;
    }

    /** `trackUsage(action)`. */
    method TrackUsage(action: string, month: string, day: string)
      modifies this
      ensures usage == Tracked(old(usage), month, day, action)
    {
      var days := if month in usage then usage[month] else map[];
      var counts := if day in days then days[day] else map[];
      usage := usage[month := days[day := counts[action := Count(counts, action) + 1]]];
    }

    /** The `for (const day of Object.values(usage[month]))` sum of one action. */
    method MonthlyCount(month: string, action: string) returns (n: nat)
      ensures n == Total(MonthDays(usage, month), action)
    {
      var rest := if month in usage then usage[month] else map[];
      n := 0;
      while rest != map[]
        invariant n + Total(rest, action) == Total(MonthDays(usage, month), action)
        decreases |rest|
      {
        NonEmptyHasElement(rest.Keys);
        var d :| d in rest;
        TotalSplit(rest, action, d);
        n := n + Count(rest[d], action);
        rest := rest - {d};
      }
    }

    /** `checkUsageLimit()`: false once this month's saves reach 10. */
    method CheckUsageLimit(month: string) returns (ok: bool)
      ensures ok <==> Total(MonthDays(usage, month), INVOICE_SAVED) < INVOICES_PER_MONTH
    {
      var monthlyInvoices := MonthlyCount(month, INVOICE_SAVED);
      ok := monthlyInvoices < INVOICES_PER_MONTH;
    }

    /** `checkPDFLimit()`: false once today's PDFs reach 5. */
    method CheckPDFLimit(month: string, day: string) returns (ok: bool)
      ensures ok <==> CountAt(usage, month, day, PDF_GENERATED) < PDFS_PER_DAY
    {
      var dailyPDFs := CountAt(usage, month, day, PDF_GENERATED);
      ok := dailyPDFs < PDFS_PER_DAY;
    }

    /** `getUsageStats()`. */
    method GetUsageStats(month: string, day: string) returns (s: Stats)
      ensures s.invoicesThisMonth == Total(MonthDays(usage, month), INVOICE_SAVED)
      ensures s.pdfsToday == CountAt(usage, month, day, PDF_GENERATED)
      ensures s.invoiceLimit == INVOICES_PER_MONTH && s.pdfLimit == PDFS_PER_DAY
    {
      var monthlyInvoices := MonthlyCount(month, INVOICE_SAVED);
      s := Stats(monthlyInvoices, CountAt(usage, month, day, PDF_GENERATED), INVOICES_PER_MONTH, PDFS_PER_DAY);
    }
  }

  /**
   * Ten saves tracked in one month, on whatever days, close the monthly
   * quota; any save after that is still counted.
   */
  lemma TenSavesReachMonthlyLimit(u: Ledger, month: string, days: seq<string>)
    requires |days| >= INVOICES_PER_MONTH
    ensures Total(MonthDays(TrackedAll(u, month, days, INVOICE_SAVED), month), INVOICE_SAVED) >= INVOICES_PER_MONTH
  {
    TrackedAllMonthTotal(u, month, days, INVOICE_SAVED);
  }
}
