/** Splitting one proxy bill over three traffic counters and summing usage rows
    (crates/backend/src/store.rs). All amounts are `u64`; every intermediate of the source's
    128-bit arithmetic is bounded here. */
module UsageCost {
  import opened Wrappers
  import opened Numbers
  import Decimal

  const MAX_U128: int := 0xFFFF_FFFF_FFFF_FFFF_FFFF_FFFF_FFFF_FFFF

  predicate IsU64(n: int) {
    0 <= n <= MAX_U64
  }

  datatype Cost = Cost(currency: string, browser: nat, proxyIn: nat, proxyOut: nat, proxyUnclassified: nat, total: nat)

  datatype Usage = Usage(browserSeconds: nat, bytesIn: nat, bytesOut: nat, bytesUnclassified: nat, cost: Cost)

  datatype UsageTotal = UsageTotal(sessions: nat, sum: Usage)

  datatype UsageError = InvalidCost | Corrupt

  // ------------------------------------------------------------- splitting

  function SplitProxyCost(total: nat, bytesIn: nat, bytesOut: nat, bytesUnclassified: nat): (int, int, int) {
    var bytes := bytesIn + bytesOut + bytesUnclassified;
    if bytes == 0 then (0, 0, total)
    else
      var inbound := total * bytesIn / bytes;
      var outbound := total * bytesOut / bytes;
      (inbound, outbound, total - inbound - outbound)
  }

  /** `part` is the floor of `total * share / whole`. */
  ghost predicate IsFloorShare(part: int, total: nat, share: nat, whole: nat) {
    part * whole <= total * share < (part + 1) * whole
  }

  lemma FloorShare(total: nat, share: nat, whole: nat)
    requires whole > 0
    ensures IsFloorShare(total * share / whole, total, share, whole)
  {
    var q := total * share / whole;
    assert total * share == q * whole + total * share % whole;
    assert (q + 1) * whole == q * whole + whole;
  }

  lemma FloorCancel(a: int, b: int, whole: nat)
    requires whole > 0 && a * whole <= b * whole
    ensures a <= b
  {
    if a > b {
      StrictTimes(b, a, whole);
    }
  }

  lemma StrictTimes(a: int, b: int, n: nat)
    requires a < b && n > 0
    ensures a * n < b * n
  {
  }

  lemma StrictOrEqualTimes(a: int, b: int, n: nat)
    requires a <= b
    ensures a * n <= b * n
  {
  }

  lemma ProductBound(a: nat, b: nat)
    requires IsU64(a) && IsU64(b)
    ensures a * b <= MAX_U128
  {
    TimesAtMost(a, b, MAX_U64);
    TimesAtMost(MAX_U64, a, MAX_U64);
  }

  lemma TimesAtMost(c: nat, a: nat, b: nat)
    requires a <= b
    ensures c * a <= c * b && a * c <= b * c
  {
  }

  /** For all `u64` inputs: the products fit 128 bits, each directional part is the floor of its
      share, nothing underflows, every part fits a `u64`, and the parts add up to the bill. */
  lemma SplitConserves(total: nat, bytesIn: nat, bytesOut: nat, bytesUnclassified: nat)
    requires IsU64(total) && IsU64(bytesIn) && IsU64(bytesOut) && IsU64(bytesUnclassified)
    ensures total * bytesIn <= MAX_U128 && total * bytesOut <= MAX_U128
    ensures bytesIn + bytesOut + bytesUnclassified <= MAX_U128
    ensures var (a, b, c) := SplitProxyCost(total, bytesIn, bytesOut, bytesUnclassified);
            var bytes := bytesIn + bytesOut + bytesUnclassified;
            && a + b + c == total
            && IsU64(a) && IsU64(b) && IsU64(c)
            && (bytes > 0 ==> IsFloorShare(a, total, bytesIn, bytes) && IsFloorShare(b, total, bytesOut, bytes))
            && (bytes == 0 ==> a == b == 0)
  {
    ProductBound(total, bytesIn);
    ProductBound(total, bytesOut);
    var bytes := bytesIn + bytesOut + bytesUnclassified;
    if bytes > 0 {
      SharesFit(total, bytesIn, bytesOut, bytes);
    }
  }

  /** Two floor shares of disjoint parts never exceed what is shared. */
  lemma SharesFit(total: nat, x: nat, y: nat, whole: nat)
    requires whole > 0 && x + y <= whole
    ensures var a, b := total * x / whole, total * y / whole;
            a >= 0 && b >= 0 && a + b <= total && IsFloorShare(a, total, x, whole) && IsFloorShare(b, total, y, whole)
  {
    FloorShare(total, x, whole);
    FloorShare(total, y, whole);
    FloorsFit(total * x / whole, total * y / whole, total, x, y, whole);
  }

  lemma FloorsFit(a: int, b: int, total: nat, x: nat, y: nat, whole: nat)
    requires whole > 0 && x + y <= whole
    requires IsFloorShare(a, total, x, whole) && IsFloorShare(b, total, y, whole)
    ensures a >= 0 && b >= 0 && a + b <= total
  {
    FloorNonnegative(a, total, x, whole);
    FloorNonnegative(b, total, y, whole);
    assert (a + b) * whole == a * whole + b * whole;
    assert total * x + total * y == total * (x + y);
    TimesAtMost(total, x + y, whole);
    FloorCancel(a + b, total, whole);
  }

  lemma FloorNonnegative(a: int, total: nat, x: nat, whole: nat)
    requires whole > 0 && IsFloorShare(a, total, x, whole)
    ensures a >= 0
  {
    assert 0 * whole <= total * x;
    if a < 0 { StrictOrEqualTimes(a + 1, 0, whole); }
  }

  /** The unclassified part is its own fair share plus less than two rounding units. */
  lemma RemainderIsFair(total: nat, bytesIn: nat, bytesOut: nat, bytesUnclassified: nat)
    requires IsU64(total) && IsU64(bytesIn) && IsU64(bytesOut) && IsU64(bytesUnclassified)
    requires bytesIn + bytesOut + bytesUnclassified > 0
    ensures var c := SplitProxyCost(total, bytesIn, bytesOut, bytesUnclassified).2;
            var bytes := bytesIn + bytesOut + bytesUnclassified;
            total * bytesUnclassified <= c * bytes < total * bytesUnclassified + 2 * bytes
  {
    SplitConserves(total, bytesIn, bytesOut, bytesUnclassified);
    var bytes := bytesIn + bytesOut + bytesUnclassified;
    var (a, b, c) := SplitProxyCost(total, bytesIn, bytesOut, bytesUnclassified);
    assert (a + b + c) * bytes == a * bytes + b * bytes + c * bytes;
    assert total * bytes == total * bytesIn + total * bytesOut + total * bytesUnclassified;
    assert (a + 1) * bytes == a * bytes + bytes && (b + 1) * bytes == b * bytes + bytes;
  }

  // --------------------------------------------------------------- one row

  /** `total == browser + in + out + unclassified`, the identity every row and every sum keeps. */
  predicate Balanced(c: Cost) {
    c.total == c.browser + c.proxyIn + c.proxyOut + c.proxyUnclassified
  }

  predicate Bounded(u: Usage) {
    && IsU64(u.browserSeconds) && IsU64(u.bytesIn) && IsU64(u.bytesOut) && IsU64(u.bytesUnclassified)
    && IsU64(u.cost.browser) && IsU64(u.cost.proxyIn) && IsU64(u.cost.proxyOut)
    && IsU64(u.cost.proxyUnclassified) && IsU64(u.cost.total)
  }

  /** A stored usage row: SQLite integers (absent counters are `NULL`) and decimal cost text. */
  datatype UsageRow = UsageRow(browserMillis: int, proxyIn: Option<int>, proxyOut: Option<int>,
                               proxyUnclassified: Option<int>, browserCost: string, proxyCost: string,
                               currency: string)

  function OrZero(n: Option<int>): int {
    match n
    case None => 0
    case Some(n) => n
  }

  predicate IsI64(n: int) {
    -MAX_I64 - 1 <= n <= MAX_I64
  }

  predicate StoredCounters(row: UsageRow) {
    && IsI64(row.browserMillis) && IsI64(OrZero(row.proxyIn))
    && IsI64(OrZero(row.proxyOut)) && IsI64(OrZero(row.proxyUnclassified))
  }

  function MapUsage(row: UsageRow): Result<Usage, UsageError> {
    var browserCost := Decimal.ToMillionths(row.browserCost);
    var proxyCost := Decimal.ToMillionths(row.proxyCost);
    var bytesIn, bytesOut := OrZero(row.proxyIn), OrZero(row.proxyOut);
    var bytesUnclassified := OrZero(row.proxyUnclassified);
    if browserCost.Err? || proxyCost.Err? then Err(InvalidCost)
    else if bytesIn < 0 || bytesOut < 0 || bytesUnclassified < 0 then Err(Corrupt)
    else if browserCost.value + proxyCost.value > MAX_U64 then Err(Corrupt)
    else if row.browserMillis < 0 then Err(Corrupt)
    else
      var (a, b, c) := SplitProxyCost(proxyCost.value, bytesIn, bytesOut, bytesUnclassified);
      if a < 0 || b < 0 || c < 0 then Err(Corrupt)
      else
        Ok(Usage(row.browserMillis / 1000, bytesIn, bytesOut, bytesUnclassified,
                 Cost(row.currency, browserCost.value, a, b, c, browserCost.value + proxyCost.value)))
  }

  lemma ConversionFits(text: string)
    ensures Decimal.ToMillionths(text).Ok? ==> IsU64(Decimal.ToMillionths(text).value)
  {
  }

  /** Every mapped row is balanced and within `u64`, and mapping fails only on unreadable costs,
      a negative column, or a total above 2^64-1. */
  lemma MappedRowBalances(row: UsageRow)
    requires StoredCounters(row)
    ensures var r := MapUsage(row);
            && (r.Ok? ==> Balanced(r.value.cost) && Bounded(r.value))
            && (r.Ok? <==>
                && Decimal.ToMillionths(row.browserCost).Ok? && Decimal.ToMillionths(row.proxyCost).Ok?
                && row.browserMillis >= 0
                && OrZero(row.proxyIn) >= 0 && OrZero(row.proxyOut) >= 0 && OrZero(row.proxyUnclassified) >= 0
                && Decimal.ToMillionths(row.browserCost).value + Decimal.ToMillionths(row.proxyCost).value <= MAX_U64)
  {
    hide Decimal.ToMillionths, SplitProxyCost;
    ConversionFits(row.browserCost);
    ConversionFits(row.proxyCost);
    if Decimal.ToMillionths(row.proxyCost).Ok? && OrZero(row.proxyIn) >= 0 && OrZero(row.proxyOut) >= 0
      && OrZero(row.proxyUnclassified) >= 0 {
      SplitConserves(Decimal.ToMillionths(row.proxyCost).value, OrZero(row.proxyIn), OrZero(row.proxyOut),
                     OrZero(row.proxyUnclassified));
    }
  }

  predicate Reports(bytes: nat, column: Option<int>) {
    if column.None? then bytes == 0 else column.value == bytes
  }

  /** What a mapped row reports, column by column: each directional cost is its own byte column's floor
      share of the proxy bill, the rest is unclassified, whole seconds are floored, and absent counters
      are zero. */
  lemma MappedRowReportsItsColumns(row: UsageRow)
    requires StoredCounters(row) && MapUsage(row).Ok?
    ensures var u := MapUsage(row).value;
            && Decimal.ToMillionths(row.browserCost) == Ok(u.cost.browser) && u.cost.currency == row.currency
            && u.browserSeconds * 1000 <= row.browserMillis < (u.browserSeconds + 1) * 1000
            && Reports(u.bytesIn, row.proxyIn) && Reports(u.bytesOut, row.proxyOut)
            && Reports(u.bytesUnclassified, row.proxyUnclassified)
    ensures var u := MapUsage(row).value;
            var bill := u.cost.proxyIn + u.cost.proxyOut + u.cost.proxyUnclassified;
            var bytes := u.bytesIn + u.bytesOut + u.bytesUnclassified;
            && Decimal.ToMillionths(row.proxyCost) == Ok(bill)
            && (bytes > 0 ==> && IsFloorShare(u.cost.proxyIn, bill, u.bytesIn, bytes)
                              && IsFloorShare(u.cost.proxyOut, bill, u.bytesOut, bytes))
            && (bytes == 0 ==> u.cost.proxyIn == u.cost.proxyOut == 0)
  {
    hide Decimal.ToMillionths, SplitProxyCost, IsFloorShare;
    ConversionFits(row.proxyCost);
    SplitConserves(Decimal.ToMillionths(row.proxyCost).value, OrZero(row.proxyIn), OrZero(row.proxyOut),
                   OrZero(row.proxyUnclassified));
  }

  // --------------------------------------------------------------- the sum

  function AddCost(a: Cost, b: Cost): Cost {
    Cost(a.currency, a.browser + b.browser, a.proxyIn + b.proxyIn, a.proxyOut + b.proxyOut,
         a.proxyUnclassified + b.proxyUnclassified, a.total + b.total)
  }

  function AddUsage(a: Usage, b: Usage): Usage {
    Usage(a.browserSeconds + b.browserSeconds, a.bytesIn + b.bytesIn, a.bytesOut + b.bytesOut,
          a.bytesUnclassified + b.bytesUnclassified, AddCost(a.cost, b.cost))
  }

  function ZeroUsage(currency: string): Usage {
    Usage(0, 0, 0, 0, Cost(currency, 0, 0, 0, 0, 0))
  }

  /** The exact, unbounded sum of all rows. */
  function SumUsage(rows: seq<Usage>, currency: string): Usage {
    if rows == [] then ZeroUsage(currency)
    else AddUsage(SumUsage(rows[..|rows| - 1], currency), rows[|rows| - 1])
  }

  function Total(ns: seq<nat>): nat {
    if ns == [] then 0 else Total(ns[..|ns| - 1]) + ns[|ns| - 1]
  }

  function Column(rows: seq<Usage>, field: Usage -> nat): seq<nat> {
    seq(|rows|, i requires 0 <= i < |rows| => field(rows[i]))
  }

  lemma ColumnTotal(rows: seq<Usage>, field: Usage -> nat)
    requires rows != []
    ensures Total(Column(rows, field)) == Total(Column(rows[..|rows| - 1], field)) + field(rows[|rows| - 1])
  {
    assert Column(rows, field)[..|rows| - 1] == Column(rows[..|rows| - 1], field);
  }

  /** `s` holds in each field the total of that very field of the rows. */
  predicate SumsEachField(rows: seq<Usage>, s: Usage) {
    && s.browserSeconds == Total(Column(rows, (u: Usage) => u.browserSeconds))
    && s.bytesIn == Total(Column(rows, (u: Usage) => u.bytesIn))
    && s.bytesOut == Total(Column(rows, (u: Usage) => u.bytesOut))
    && s.bytesUnclassified == Total(Column(rows, (u: Usage) => u.bytesUnclassified))
    && s.cost.browser == Total(Column(rows, (u: Usage) => u.cost.browser))
    && s.cost.proxyIn == Total(Column(rows, (u: Usage) => u.cost.proxyIn))
    && s.cost.proxyOut == Total(Column(rows, (u: Usage) => u.cost.proxyOut))
    && s.cost.proxyUnclassified == Total(Column(rows, (u: Usage) => u.cost.proxyUnclassified))
    && s.cost.total == Total(Column(rows, (u: Usage) => u.cost.total))
  }

  lemma {:induction false} SumIsFieldByField(rows: seq<Usage>, currency: string)
    ensures SumsEachField(rows, SumUsage(rows, currency)) && SumUsage(rows, currency).cost.currency == currency
  {
    if rows != [] {
      SumIsFieldByField(rows[..|rows| - 1], currency);
      ColumnTotal(rows, (u: Usage) => u.browserSeconds);
      ColumnTotal(rows, (u: Usage) => u.bytesIn);
      ColumnTotal(rows, (u: Usage) => u.bytesOut);
      ColumnTotal(rows, (u: Usage) => u.bytesUnclassified);
      ColumnTotal(rows, (u: Usage) => u.cost.browser);
      ColumnTotal(rows, (u: Usage) => u.cost.proxyIn);
      ColumnTotal(rows, (u: Usage) => u.cost.proxyOut);
      ColumnTotal(rows, (u: Usage) => u.cost.proxyUnclassified);
      ColumnTotal(rows, (u: Usage) => u.cost.total);
    }
  }

  predicate OneCurrency(rows: seq<Usage>, currency: string) {
    forall i | 0 <= i < |rows| :: rows[i].cost.currency == currency
  }

  /** Summing a longer prefix can only grow every field. */
  lemma {:induction false} PrefixSumsFit(rows: seq<Usage>, currency: string, k: nat)
    requires k <= |rows| && Bounded(SumUsage(rows, currency))
    ensures Bounded(SumUsage(rows[..k], currency))
  {
    if k < |rows| {
      PrefixSumsFit(rows[..|rows| - 1], currency, k);
      assert rows[..|rows| - 1][..k] == rows[..k];
    } else {
      assert rows[..k] == rows;
    }
  }

  /** `checked_add` on one accumulator. */
  function CheckedAdd(target: nat, value: nat): Option<nat> {
    if target + value <= MAX_U64 then Some(target + value) else None
  }

  /** The currency of a not-yet-priced zero amount. */
  const DEFAULT_CURRENCY := ""

  /** One row's nine `checked_add`s, in the source's order. */
  method CheckedAddRow(total: Usage, row: Usage) returns (r: Option<Usage>)
    requires Bounded(total)
    ensures r == if Bounded(AddUsage(total, row)) then Some(AddUsage(total, row)) else None
  {
    var browserSeconds := CheckedAdd(total.browserSeconds, row.browserSeconds);
    if browserSeconds.None? { return None; }
    var bytesIn := CheckedAdd(total.bytesIn, row.bytesIn);
    if bytesIn.None? { return None; }
    var bytesOut := CheckedAdd(total.bytesOut, row.bytesOut);
    if bytesOut.None? { return None; }
    var bytesUnclassified := CheckedAdd(total.bytesUnclassified, row.bytesUnclassified);
    if bytesUnclassified.None? { return None; }
    var browser := CheckedAdd(total.cost.browser, row.cost.browser);
    if browser.None? { return None; }
    var proxyIn := CheckedAdd(total.cost.proxyIn, row.cost.proxyIn);
    if proxyIn.None? { return None; }
    var proxyOut := CheckedAdd(total.cost.proxyOut, row.cost.proxyOut);
    if proxyOut.None? { return None; }
    var proxyUnclassified := CheckedAdd(total.cost.proxyUnclassified, row.cost.proxyUnclassified);
    if proxyUnclassified.None? { return None; }
    var all := CheckedAdd(total.cost.total, row.cost.total);
    if all.None? { return None; }
    r := Some(Usage(browserSeconds.value, bytesIn.value, bytesOut.value, bytesUnclassified.value,
                    Cost(total.cost.currency, browser.value, proxyIn.value, proxyOut.value,
                         proxyUnclassified.value, all.value)));
  }

  /** The source's accumulation loop. It succeeds exactly when all rows share the first row's
      currency and every exact sum fits a `u64`, and then returns the exact sums. */
  method SumRows(rows: seq<Usage>) returns (r: Result<UsageTotal, UsageError>)
    ensures rows == [] ==> r == Ok(UsageTotal(0, ZeroUsage(DEFAULT_CURRENCY)))
    ensures rows != [] ==>
              var currency := rows[0].cost.currency;
              r == if OneCurrency(rows, currency) && Bounded(SumUsage(rows, currency))
                   then Ok(UsageTotal(|rows|, SumUsage(rows, currency)))
                   else Err(Corrupt)
  {
    if rows == [] {
      return Ok(UsageTotal(0, ZeroUsage(DEFAULT_CURRENCY)));
    }
    var currency := rows[0].cost.currency;
    var total := ZeroUsage(currency);
    for i := 0 to |rows|
      invariant total == SumUsage(rows[..i], currency)
      invariant Bounded(total)
      invariant forall k | 0 <= k < i :: rows[k].cost.currency == currency
    {
      if rows[i].cost.currency != currency {
        return Err(Corrupt);
      }
      ghost var prefix := rows[..i + 1];
      assert prefix[..i] == rows[..i];
      var next := CheckedAddRow(total, rows[i]);
      if next.None? {
        if Bounded(SumUsage(rows, currency)) { PrefixSumsFit(rows, currency, i + 1); }
        return Err(Corrupt);
      }
      total := next.value;
    }
    assert rows[..|rows|] == rows;
    r := Ok(UsageTotal(|rows|, total));
  }

  /** Sums of balanced rows are balanced. */
  lemma {:induction false} SumBalances(rows: seq<Usage>, currency: string)
    requires forall i | 0 <= i < |rows| :: Balanced(rows[i].cost)
    ensures Balanced(SumUsage(rows, currency).cost)
  {
    if rows != [] {
      SumBalances(rows[..|rows| - 1], currency);
    }
  }

  /** Main result: from stored rows to the aggregate, the total is always browser + in + out +
      unclassified, and the parts cannot overflow unless the total does. */
  lemma AggregateConserves(stored: seq<UsageRow>, rows: seq<Usage>, currency: string)
    requires |stored| == |rows|
    requires forall i | 0 <= i < |rows| :: StoredCounters(stored[i]) && MapUsage(stored[i]) == Ok(rows[i])
    ensures Balanced(SumUsage(rows, currency).cost)
    ensures var c := SumUsage(rows, currency).cost;
            IsU64(c.total) ==> IsU64(c.browser) && IsU64(c.proxyIn) && IsU64(c.proxyOut) && IsU64(c.proxyUnclassified)
    ensures forall i | 0 <= i < |rows| :: Bounded(rows[i])
  {
    forall i | 0 <= i < |rows|
      ensures Balanced(rows[i].cost) && Bounded(rows[i])
    {
      MappedRowBalances(stored[i]);
    }
    SumBalances(rows, currency);
  }
}
