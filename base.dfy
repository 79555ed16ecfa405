/** Value types shared by the whole finance model: optional values, the
    income/expense kind, `YYYY-MM` month keys, instants, and the abstract
    result of `parseFloat` on a form field. */
module Base {

  datatype Option<T> = None | Some(value: T)

  /** The `type` of a transaction or a category: "income" or "expense". */
  datatype Kind = Income | Expense

  /** A `YYYY-MM` month key, as produced by `toISOString().slice(0, 7)`. */
  datatype MonthKey = MonthKey(year: int, month: int)

  predicate ValidMonth(k: MonthKey) {
    1 <= k.month <= 12
  }

  /** Months counted from January of year 0. */
  function MonthIndex(k: MonthKey): int {
    k.year * 12 + (k.month - 1)
  }

  /** The month with a given index; `new Date(y, m, 1)` normalises an
      out-of-range month in the same way. */
  function MonthAt(i: int): (k: MonthKey)
    ensures ValidMonth(k)
    ensures MonthIndex(k) == i
  {
    MonthKey(i / 12, i % 12 + 1)
  }

  lemma MonthAtIndex(k: MonthKey)
    requires ValidMonth(k)
    ensures MonthAt(MonthIndex(k)) == k
  {
    var i := MonthIndex(k);
    assert i == 12 * k.year + (k.month - 1);
    assert i / 12 == k.year && i % 12 == k.month - 1;
  }

  const MsPerDay: int := 24 * 60 * 60 * 1000

  /** The UTC calendar month of an instant (milliseconds since the Unix
      epoch), that is the `YYYY-MM` prefix of its ISO 8601 form. The day
      number is converted to a civil date with the usual days-from-civil
      inverse: 400-year eras of 146097 days, years starting in March. */
  function MonthKeyOf(instant: int): MonthKey {
    var z := instant / MsPerDay + 719468;
    var era := z / 146097;
    var doe := z % 146097;
    var yoe := (doe - doe / 1460 + doe / 36524 - doe / 146096) / 365;
    var doy := doe - (365 * yoe + yoe / 4 - yoe / 100);
    var mp := (5 * doy + 2) / 153;
    var m := if mp < 10 then mp + 3 else mp - 9;
    MonthKey(yoe + era * 400 + (if m <= 2 then 1 else 0), m)
  }

  function Abs(x: real): (r: real)
    ensures r >= 0.0 && (r == x || r == -x)
  {
    if x < 0.0 then -x else x
  }

  function Max(a: real, b: real): (r: real)
    ensures r >= a && r >= b && (r == a || r == b)
  {
    if a >= b then a else b
  }

  function Min(a: real, b: real): (r: real)
    ensures r <= a && r <= b && (r == a || r == b)
  {
    if a <= b then a else b
  }

  /** A numeric text field of a form: empty (falsy in JavaScript), or
      non-empty text whose `parseFloat` is `parsed` (`None` for NaN). */
  datatype NumericInput = Blank | Entered(parsed: Option<real>)

  /** A date text field of a form: empty, or non-empty text whose
      `new Date(text)` is the instant `parsed` (`None` for an invalid date,
      on which `toISOString` throws). */
  datatype DateInput = BlankDate | DateEntered(parsed: Option<int>)

  /** `Math.min((part / whole) * 100, 100)` for a positive whole: the share
      in percent, capped at 100. */
  function CappedPercent(part: real, whole: real): (r: real)
    requires whole > 0.0
    ensures r <= 100.0
    ensures r == 100.0 <==> part >= whole
    ensures part < whole ==> r == part / whole * 100.0
    ensures part >= 0.0 ==> r >= 0.0
  {
    var share := part / whole * 100.0;
    assert share * whole == part * 100.0;
    Min(share, 100.0)
  }

  /** For a fixed whole, the capped share never falls as the part grows. */
  lemma CappedPercentMonotone(part1: real, part2: real, whole: real)
    requires whole > 0.0 && part1 <= part2
    ensures CappedPercent(part1, whole) <= CappedPercent(part2, whole)
  {
    assert part1 / whole <= part2 / whole;
  }

  /** The share reaches a threshold `t` below 100 exactly when the part is
      at least `t` percent of the whole. */
  lemma CappedPercentThreshold(part: real, whole: real, t: real)
    requires whole > 0.0 && t <= 100.0
    ensures CappedPercent(part, whole) >= t <==> part * 100.0 >= t * whole
  {
    var share := part / whole * 100.0;
    assert share * whole == part * 100.0;
    if share >= t {
      assert share * whole >= t * whole;
    } else {
      assert share * whole < t * whole;
    }
  }

  /** The outcome of a form submit: the value handed on, or the toast
      message shown instead. */
  datatype Submitted<T> = Accepted(value: T) | Rejected(message: string)
}
