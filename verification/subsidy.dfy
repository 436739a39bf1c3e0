/** Per-employee subsidy ratio, the capped subsidy and the claim total.

    The client computes the ratio in three places. The on-screen statistics and
    the subtotal line of both spreadsheets (app.js:491-505, 583-594, 1093-1103)
    filter to applying employees and start from a ratio of 1; the per-employee
    rows of both spreadsheets (app.js:563-580, 1078-1091) start from 0 and test
    `apply` themselves. The merged spreadsheet divides milliseconds by the
    milliseconds of a year in one step instead of first converting to days.

    Dates are handed in as text, exactly as the records hold them; `dayOf`
    stands for the browser's date parser and yields a day number. */
module Subsidy {
  import opened Common
  import opened Records

  /** Milliseconds in a day: `1000 * 60 * 60 * 24`. */
  const MS_PER_DAY: int := 86400000

  /** The two ways the source turns elapsed milliseconds into years. */
  datatype Arithmetic =
    | ViaDays   // `(ms / (1000*60*60*24)) / 365`: statistics and the single export
    | InOneStep // `ms / (1000*60*60*24*365)`: the merged export

  /** Days from the hire date to the trip start. */
  function TenureDays(e: Employee, tripStart: string, dayOf: string -> int): int
  {
    dayOf(tripStart) - dayOf(e.startDate)
  }

  /** `tripDate - startDate` of two JavaScript dates: elapsed milliseconds. */
  function ElapsedMillis(e: Employee, tripStart: string, dayOf: string -> int): (ms: int)
    ensures ms == TenureDays(e, tripStart, dayOf) * MS_PER_DAY
  {
    (dayOf(tripStart) - dayOf(e.startDate)) * MS_PER_DAY
  }

  /** Elapsed milliseconds as a fraction of a 365-day year, computed the way `a` names. */
  function YearFraction(ms: int, a: Arithmetic): real
  {
    match a
    case ViaDays => ((ms as real) / 86400000.0) / 365.0
    case InOneStep => (ms as real) / 31536000000.0
  }

  /** With exact arithmetic the two computations give the same fraction: the
      days that elapsed, divided by 365. */
  lemma YearFractionOfDays(days: int, a: Arithmetic)
    ensures YearFraction(days * MS_PER_DAY, a) == (days as real) / 365.0
  {
    assert ((days * MS_PER_DAY) as real) == (days as real) * 86400000.0;
  }

  /** The ratio inside the totals (statistics and subtotal lines), applied only to
      employees with `apply === 'y'`: 1 for the tenure sentinel and when the trip
      has no start date, otherwise tenure in years capped at 1, with no lower bound. */
  function TotalRatio(e: Employee, tripStart: string, dayOf: string -> int, a: Arithmetic): (r: real)
    ensures r <= 1.0
    ensures e.startDate == FULL_YEAR || tripStart == "" ==> r == 1.0
    ensures e.startDate != FULL_YEAR && tripStart != "" ==>
              var d := TenureDays(e, tripStart, dayOf);
              (d >= 365 ==> r == 1.0) && (d < 365 ==> r == (d as real) / 365.0)
    ensures r < 0.0 <==>
              e.startDate != FULL_YEAR && tripStart != "" && dayOf(tripStart) < dayOf(e.startDate)
  {
    YearFractionOfDays(TenureDays(e, tripStart, dayOf), a);
    if e.startDate != FULL_YEAR && tripStart != "" then
      Min(YearFraction(ElapsedMillis(e, tripStart, dayOf), a), 1.0)
    else
      1.0
  }

  /** The ratio printed in an employee row of a spreadsheet: 0 for anyone not
      applying, 1 for the tenure sentinel, tenure in years capped at 1 when the trip
      has a start date, and 0 when it has none. */
  function RowRatio(e: Employee, tripStart: string, dayOf: string -> int, a: Arithmetic): (r: real)
    ensures r <= 1.0
    ensures e.apply != APPLY_YES ==> r == 0.0
    ensures e.apply == APPLY_YES && (e.startDate == FULL_YEAR || tripStart != "") ==>
              r == TotalRatio(e, tripStart, dayOf, a)
    ensures e.apply == APPLY_YES && e.startDate != FULL_YEAR && tripStart == "" ==> r == 0.0
  {
    if e.apply != APPLY_YES then 0.0
    else if e.startDate == FULL_YEAR then 1.0
    else if tripStart != "" then Min(YearFraction(ElapsedMillis(e, tripStart, dayOf), a), 1.0)
    else 0.0
  }

  /** `Math.min(subsidyAmount * ratio, 10000)`. */
  function Capped(subsidyAmount: real, ratio: real): (r: real)
    ensures r <= SUBSIDY_CEILING && r <= subsidyAmount * ratio
    ensures r == SUBSIDY_CEILING || r == subsidyAmount * ratio
  {
    Min(subsidyAmount * ratio, SUBSIDY_CEILING)
  }

  /** What one employee adds to the total subsidy: nothing unless applying,
      otherwise the capped amount at the total ratio. */
  function Contribution(e: Employee, info: TripInfo, dayOf: string -> int, a: Arithmetic): (r: real)
    ensures r <= SUBSIDY_CEILING
    ensures e.apply != APPLY_YES ==> r == 0.0
    ensures e.apply == APPLY_YES && (e.startDate == FULL_YEAR || info.startDate == "") ==>
              r == Min(info.subsidyAmount, SUBSIDY_CEILING)
    ensures e.apply == APPLY_YES ==> r == Min(info.subsidyAmount * TotalRatio(e, info.startDate, dayOf, a), SUBSIDY_CEILING)
  {
    if e.apply == APPLY_YES then Capped(info.subsidyAmount, TotalRatio(e, info.startDate, dayOf, a)) else 0.0
  }

  /** Number of employees with `apply === 'y'`. */
  function Applicants(emps: seq<Employee>): nat
  {
    if |emps| == 0 then 0
    else Applicants(emps[..|emps| - 1]) + (if emps[|emps| - 1].apply == APPLY_YES then 1 else 0)
  }

  /** The employees with `apply === 'y'`, in order: `employees.filter(emp => emp.apply === 'y')`. */
  function Applying(emps: seq<Employee>): (r: seq<Employee>)
    ensures |r| == Applicants(emps)
    ensures forall e :: e in r <==> e in emps && e.apply == APPLY_YES
  {
    if |emps| == 0 then []
    else
      var last := emps[|emps| - 1];
      Applying(emps[..|emps| - 1]) + (if last.apply == APPLY_YES then [last] else [])
  }

  /** The reduce over applying employees: the total subsidy the group can claim.
      It never exceeds the ceiling times the number of applicants. */
  function TotalSubsidy(emps: seq<Employee>, info: TripInfo, dayOf: string -> int, a: Arithmetic): (r: real)
    ensures r <= 10000.0 * (Applicants(emps) as real)
  {
    if |emps| == 0 then 0.0
    else TotalSubsidy(emps[..|emps| - 1], info, dayOf, a) + Contribution(emps[|emps| - 1], info, dayOf, a)
  }

  /** `Math.min(totalExpense, totalSubsidy)`: the reimbursable amount is capped by
      the group's subsidy, never by a single expense. */
  function TotalClaim(totalExpense: real, totalSubsidy: real): (r: real)
    ensures r <= totalExpense && r <= totalSubsidy
    ensures r == totalExpense || r == totalSubsidy
  {
    Min(totalExpense, totalSubsidy)
  }

  /** The subsidy printed in an employee row: the capped amount at the row ratio. */
  function RowSubsidy(e: Employee, info: TripInfo, dayOf: string -> int, a: Arithmetic): (r: real)
    ensures r <= SUBSIDY_CEILING
    ensures e.apply != APPLY_YES ==> r == 0.0
    ensures info.startDate != "" ==> r == Contribution(e, info, dayOf, a)
  {
    Capped(info.subsidyAmount, RowRatio(e, info.startDate, dayOf, a))
  }

  /** Sum of the subsidy column of the employee rows. */
  function RowSubsidies(emps: seq<Employee>, info: TripInfo, dayOf: string -> int, a: Arithmetic): real
  {
    if |emps| == 0 then 0.0
    else RowSubsidies(emps[..|emps| - 1], info, dayOf, a) + RowSubsidy(emps[|emps| - 1], info, dayOf, a)
  }

  /** Employees with `apply === 'n'` (or anything but `'y'`) change nothing: the
      total over everybody is the total over the applicants alone. */
  lemma {:induction false} TotalSubsidyIgnoresNonApplicants(emps: seq<Employee>, info: TripInfo, dayOf: string -> int, a: Arithmetic)
    ensures TotalSubsidy(emps, info, dayOf, a) == TotalSubsidy(Applying(emps), info, dayOf, a)
  {
    if |emps| > 0 {
      var init, last := emps[..|emps| - 1], emps[|emps| - 1];
      TotalSubsidyIgnoresNonApplicants(init, info, dayOf, a);
      assert emps == init + [last];
      assert TotalSubsidy(emps, info, dayOf, a) == TotalSubsidy(init, info, dayOf, a) + Contribution(last, info, dayOf, a);
      if last.apply == APPLY_YES {
        var app := Applying(init) + [last];
        assert Applying(emps) == app;
        assert app[..|app| - 1] == Applying(init);
        assert TotalSubsidy(app, info, dayOf, a) == TotalSubsidy(Applying(init), info, dayOf, a) + Contribution(last, info, dayOf, a);
      } else {
        assert Applying(emps) == Applying(init);
      }
    }
  }

  /** A group of one contributes that employee's own contribution. */
  lemma TotalSubsidyOne(e: Employee, info: TripInfo, dayOf: string -> int, a: Arithmetic)
    ensures TotalSubsidy([e], info, dayOf, a) == Contribution(e, info, dayOf, a)
  {
    assert [e][..0] == [];
  }

  /** The total over two groups is the sum of their totals: together with
      `TotalSubsidyOne` this fixes the total as the sum of every employee's
      contribution. */
  lemma {:induction false} TotalSubsidyAppend(xs: seq<Employee>, ys: seq<Employee>, info: TripInfo, dayOf: string -> int, a: Arithmetic)
    ensures TotalSubsidy(xs + ys, info, dayOf, a) == TotalSubsidy(xs, info, dayOf, a) + TotalSubsidy(ys, info, dayOf, a)
    decreases |ys|
  {
    if |ys| == 0 {
      assert xs + ys == xs;
    } else {
      var init := ys[..|ys| - 1];
      assert (xs + ys)[..|xs + ys| - 1] == xs + init;
      assert (xs + ys)[|xs + ys| - 1] == ys[|ys| - 1];
      TotalSubsidyAppend(xs, init, info, dayOf, a);
    }
  }

  /** The merged spreadsheet's one-step division gives the same total as the
      statistics and the single spreadsheet. */
  lemma {:induction false} TotalSubsidyArithmeticAgrees(emps: seq<Employee>, info: TripInfo, dayOf: string -> int)
    ensures TotalSubsidy(emps, info, dayOf, ViaDays) == TotalSubsidy(emps, info, dayOf, InOneStep)
  {
    if |emps| > 0 {
      TotalSubsidyArithmeticAgrees(emps[..|emps| - 1], info, dayOf);
      var e := emps[|emps| - 1];
      YearFractionOfDays(TenureDays(e, info.startDate, dayOf), ViaDays);
      YearFractionOfDays(TenureDays(e, info.startDate, dayOf), InOneStep);
    }
  }

  /** When the trip has a start date, the employee rows add up to the subtotal line. */
  lemma {:induction false} RowsMatchSubtotal(emps: seq<Employee>, info: TripInfo, dayOf: string -> int, a: Arithmetic)
    requires info.startDate != ""
    ensures RowSubsidies(emps, info, dayOf, a) == TotalSubsidy(emps, info, dayOf, a)
  {
    if |emps| > 0 {
      RowsMatchSubtotal(emps[..|emps| - 1], info, dayOf, a);
    }
  }

  /** Applicants that carry the tenure sentinel. */
  function FullYearApplicants(emps: seq<Employee>): (n: nat)
    ensures n <= Applicants(emps)
  {
    if |emps| == 0 then 0
    else
      var last := emps[|emps| - 1];
      FullYearApplicants(emps[..|emps| - 1]) + (if last.apply == APPLY_YES && last.startDate == FULL_YEAR then 1 else 0)
  }

  /** `m` added up `k` times. */
  function Repeat(m: real, k: nat): real
  {
    if k == 0 then 0.0 else Repeat(m, k - 1) + m
  }

  /** Without a trip start date the subtotal gives every applicant the full
      capped amount. */
  lemma {:induction false} NoStartDateSubtotal(emps: seq<Employee>, info: TripInfo, dayOf: string -> int, a: Arithmetic)
    requires info.startDate == ""
    ensures TotalSubsidy(emps, info, dayOf, a) == Repeat(Min(info.subsidyAmount, SUBSIDY_CEILING), Applicants(emps))
  {
    if |emps| > 0 {
      NoStartDateSubtotal(emps[..|emps| - 1], info, dayOf, a);
    }
  }

  /** Without a trip start date the employee rows give the full capped amount
      only to applicants with the tenure sentinel and 0 to everybody with a hire
      date: the rows then fall short of the subtotal line. */
  lemma {:induction false} NoStartDateRows(emps: seq<Employee>, info: TripInfo, dayOf: string -> int, a: Arithmetic)
    requires info.startDate == ""
    ensures RowSubsidies(emps, info, dayOf, a) == Repeat(Min(info.subsidyAmount, SUBSIDY_CEILING), FullYearApplicants(emps))
  {
    if |emps| > 0 {
      var e := emps[|emps| - 1];
      NoStartDateRows(emps[..|emps| - 1], info, dayOf, a);
      if e.apply == APPLY_YES && e.startDate != FULL_YEAR {
        assert RowSubsidy(e, info, dayOf, a) == Min(0.0, SUBSIDY_CEILING);
      }
    }
  }

  /** A concrete case of the disagreement: one applicant with a hire date and a
      trip without a start date. The subtotal line says 10000, the row says 0. */
  lemma RowsDisagreeWithoutStartDate(dayOf: string -> int)
    ensures var emps := [Employee(1, "A", APPLY_YES, "2024-01-01")];
            RowSubsidies(emps, DEFAULT_TRIP_INFO, dayOf, ViaDays) == 0.0
            && TotalSubsidy(emps, DEFAULT_TRIP_INFO, dayOf, ViaDays) == 10000.0
  {
    var emps := [Employee(1, "A", APPLY_YES, "2024-01-01")];
    assert emps[..0] == [];
  }

  /** There is no lower clamp: an applicant hired after the trip starts has a
      negative ratio and lowers the total. */
  lemma HiredAfterTripLowersTotal(e: Employee, info: TripInfo, dayOf: string -> int, a: Arithmetic)
    requires e.apply == APPLY_YES && e.startDate != FULL_YEAR && info.startDate != ""
    requires dayOf(info.startDate) < dayOf(e.startDate)
    requires info.subsidyAmount > 0.0
    ensures Contribution(e, info, dayOf, a) < 0.0
  {
    var r := TotalRatio(e, info.startDate, dayOf, a);
    assert info.subsidyAmount * r < 0.0;
  }
}
