/** The rows and totals of the reimbursement spreadsheet, for one client's own
    expenses (app.js:539-654) and for the leader's merge of member files
    (app.js:1050-1162), and the statistics card of the home screen
    (app.js:486-512). Cell layout beyond the row contents is not modelled. */
module Sheet {
  import opened Common
  import opened Records
  import opened Subsidy

  /** An expense together with the member who reported it (`''` in the single
      export, which has no reporter column). */
  datatype Tagged = Tagged(reporter: string, e: Expense)

  /** A line of the expense section: a real expense, or the line a category gets
      when it has no expense, whose NTD cell is 0. */
  datatype SheetRow =
    | ExpenseRow(reporter: string, account: string, date: string, description: string,
                 currency: string, amount: real, rate: real, ntd: real)
    | PlaceholderRow(account: string)

  /** The NTD cell of a row. */
  function RowNtd(row: SheetRow): real
  {
    match row
    case ExpenseRow(_, _, _, _, _, _, _, ntd) => ntd
    case PlaceholderRow(_) => 0.0
  }

  /** A line of the employee section; the subsidy appears twice (subsidy and remittance). */
  datatype EmployeeRow = EmployeeRow(name: string, apply: string, startDate: string,
                                     ratio: real, subsidy: real, remittance: real)

  /** The sheet contents that the model tracks. */
  datatype Sheet = Sheet(
    employeeRows: seq<EmployeeRow>,
    subtotal: real,
    expenseRows: seq<SheetRow>,
    totalExpense: real,
    totalClaim: real,
    totalPayment: real)

  /** Why no sheet was produced. */
  datatype ExportError =
    | NoExpenses  // the single export with no expense recorded
    | NoEmployees // either export with an empty employee list
    | NoMembers   // the merged export before any member file was imported

  /** The client's own expenses, with an empty reporter. */
  function Untagged(expenses: seq<Expense>): (r: seq<Tagged>)
    ensures |r| == |expenses|
    ensures forall i :: 0 <= i < |r| ==> r[i] == Tagged("", expenses[i])
  {
    seq(|expenses|, i requires 0 <= i < |expenses| => Tagged("", expenses[i]))
  }

  /** One member file's expenses, each tagged with the member's name. */
  function Tag(m: MemberFile): (r: seq<Tagged>)
    ensures |r| == |m.expenses|
    ensures forall i :: 0 <= i < |r| ==> r[i] == Tagged(m.memberName, m.expenses[i])
  {
    seq(|m.expenses|, i requires 0 <= i < |m.expenses| => Tagged(m.memberName, m.expenses[i]))
  }

  /** All imported expenses, member after member, each tagged with its member's
      name: `Object.assign({}, exp, { reporter: m.memberName })`. What the list
      holds is stated by `FlattenContents`, its order by `FlattenAppend`. */
  function Flatten(members: seq<MemberFile>): (r: seq<Tagged>)
  {
    if |members| == 0 then [] else Flatten(members[..|members| - 1]) + Tag(members[|members| - 1])
  }

  /** Every merged entry is an expense of the member it names, and every expense
      of every member is there under that member's name. */
  lemma {:induction false} FlattenContents(members: seq<MemberFile>)
    ensures forall i :: 0 <= i < |Flatten(members)| ==>
              exists m :: m in members && Flatten(members)[i].reporter == m.memberName && Flatten(members)[i].e in m.expenses
    ensures forall m, j :: m in members && 0 <= j < |m.expenses| ==>
              Tagged(m.memberName, m.expenses[j]) in Flatten(members)
  {
    if |members| > 0 {
      var init := members[..|members| - 1];
      var last := members[|members| - 1];
      FlattenContents(init);
      var front, back := Flatten(init), Tag(last);
      var r := Flatten(members);
      assert r == front + back;
      assert members == init + [last];
      forall i | 0 <= i < |Flatten(members)|
        ensures exists m :: m in members && Flatten(members)[i].reporter == m.memberName && Flatten(members)[i].e in m.expenses
      {
        if i < |front| {
          var m :| m in init && front[i].reporter == m.memberName && front[i].e in m.expenses;
          assert r[i] == front[i] && m in members;
        } else {
          assert r[i] == back[i - |front|] == Tagged(last.memberName, last.expenses[i - |front|]);
          assert last in members;
        }
      }
      forall m, j | m in members && 0 <= j < |m.expenses|
        ensures Tagged(m.memberName, m.expenses[j]) in Flatten(members)
      {
        if m in init {
          var k :| 0 <= k < |front| && front[k] == Tagged(m.memberName, m.expenses[j]);
          assert r[k] == front[k];
        } else {
          assert m == last;
          assert r[|front| + j] == back[j];
        }
      }
    } else {
      assert Flatten(members) == [];
    }
  }

  /** A single member file contributes exactly its own expenses, in order. */
  lemma FlattenOne(m: MemberFile)
    ensures Flatten([m]) == Tag(m)
  {
    assert [m][..0] == [];
  }

  /** Appending a member file appends its tagged expenses. */
  lemma FlattenSnoc(s: seq<MemberFile>, m: MemberFile)
    ensures Flatten(s + [m]) == Flatten(s) + Tag(m)
  {
    var t := s + [m];
    assert t[..|t| - 1] == s;
    assert t[|t| - 1] == m;
  }

  /** The merged list is the members' lists one after the other, in import order. */
  lemma {:induction false} FlattenAppend(a: seq<MemberFile>, b: seq<MemberFile>)
    ensures Flatten(a + b) == Flatten(a) + Flatten(b)
    decreases |b|
  {
    if |b| == 0 {
      assert a + b == a;
    } else {
      var b', last := b[..|b| - 1], b[|b| - 1];
      assert b == b' + [last];
      assert a + b == (a + b') + [last];
      FlattenSnoc(a + b', last);
      FlattenSnoc(b', last);
      FlattenAppend(a, b');
    }
  }

  /** Sum of the NTD amounts of a list: `reduce((sum, exp) => sum + exp.ntd, 0)`. */
  function SumNtd(items: seq<Tagged>): real
  {
    if |items| == 0 then 0.0 else SumNtd(items[..|items| - 1]) + items[|items| - 1].e.ntd
  }

  /** The expenses of one category, in order. */
  function OfCategory(items: seq<Tagged>, cat: string): seq<Tagged>
  {
    Filter(items, (t: Tagged) => t.e.category == cat)
  }

  /** Rows for a run of expenses: the first carries `account`, the rest an empty account. */
  function DetailRows(m: seq<Tagged>, account: string): (r: seq<SheetRow>)
    ensures |r| == |m|
    ensures forall i :: 0 <= i < |r| ==>
              && r[i].ExpenseRow?
              && r[i].account == (if i == 0 then account else "")
              && r[i].reporter == m[i].reporter && r[i].date == m[i].e.date
              && r[i].description == m[i].e.description && r[i].currency == m[i].e.currency
              && r[i].amount == m[i].e.amount && r[i].rate == m[i].e.rate && r[i].ntd == m[i].e.ntd
  {
    if |m| == 0 then []
    else
      var t := m[0];
      [ExpenseRow(t.reporter, account, t.e.date, t.e.description, t.e.currency, t.e.amount, t.e.rate, t.e.ntd)]
        + DetailRows(m[1..], "")
  }

  /** The rows of one category: one per matching expense with the category label
      on the first only, or a single placeholder when there is none. */
  function CategoryBlock(cat: string, items: seq<Tagged>): (r: seq<SheetRow>)
    ensures |OfCategory(items, cat)| == 0 ==> r == [PlaceholderRow(cat)]
    ensures |OfCategory(items, cat)| > 0 ==> r == DetailRows(OfCategory(items, cat), cat)
    ensures |r| >= 1 && r[0].account == cat
  {
    var m := OfCategory(items, cat);
    if |m| == 0 then [PlaceholderRow(cat)] else DetailRows(m, cat)
  }

  /** The blocks of the given categories, one after the other. */
  function Blocks(cats: seq<string>, items: seq<Tagged>): (r: seq<SheetRow>)
    ensures |r| >= |cats|
  {
    if |cats| == 0 then [] else CategoryBlock(cats[0], items) + Blocks(cats[1..], items)
  }

  /** Sum of the NTD column. */
  function RowsNtd(rows: seq<SheetRow>): real
  {
    if |rows| == 0 then 0.0 else RowNtd(rows[0]) + RowsNtd(rows[1..])
  }

  /** The merged export's running total: the expenses of the listed categories only. */
  function CategoriesTotal(cats: seq<string>, items: seq<Tagged>): real
  {
    if |cats| == 0 then 0.0 else SumNtd(OfCategory(items, cats[0])) + CategoriesTotal(cats[1..], items)
  }

  /** The NTD column is additive over concatenation. */
  lemma {:induction false} RowsNtdAppend(a: seq<SheetRow>, b: seq<SheetRow>)
    ensures RowsNtd(a + b) == RowsNtd(a) + RowsNtd(b)
  {
    if |a| == 0 {
      assert a + b == b;
    } else {
      assert (a + b)[1..] == a[1..] + b;
      RowsNtdAppend(a[1..], b);
    }
  }

  /** The NTD cells of a run of detail rows add up to the run's expenses. */
  lemma {:induction false} DetailRowsNtd(m: seq<Tagged>, account: string)
    ensures RowsNtd(DetailRows(m, account)) == SumNtd(m)
  {
    if |m| > 0 {
      DetailRowsNtd(m[1..], "");
      SumNtdCons(m[0], m[1..]);
      assert [m[0]] + m[1..] == m;
    }
  }

  /** Adding up from the front gives the same sum as the reduce. */
  lemma {:induction false} SumNtdCons(x: Tagged, s: seq<Tagged>)
    ensures SumNtd([x] + s) == x.e.ntd + SumNtd(s)
    decreases |s|
  {
    if |s| > 0 {
      var s' := s[..|s| - 1];
      assert ([x] + s)[..|s|] == [x] + s';
      SumNtdCons(x, s');
    }
  }

  /** The rows of the listed categories add up to their running total: a
      placeholder row contributes 0. */
  lemma {:induction false} BlocksNtd(cats: seq<string>, items: seq<Tagged>)
    ensures RowsNtd(Blocks(cats, items)) == CategoriesTotal(cats, items)
  {
    if |cats| > 0 {
      var m := OfCategory(items, cats[0]);
      RowsNtdAppend(CategoryBlock(cats[0], items), Blocks(cats[1..], items));
      BlocksNtd(cats[1..], items);
      if |m| > 0 {
        DetailRowsNtd(m, cats[0]);
      } else {
        assert RowsNtd([PlaceholderRow(cats[0])]) == 0.0;
      }
    }
  }

  /** The categories are pairwise different. */
  ghost predicate Distinct(cats: seq<string>)
  {
    forall i, j :: 0 <= i < j < |cats| ==> cats[i] != cats[j]
  }

  /** One more expense raises the running total by its amount exactly when its
      category is one of the listed ones. */
  lemma {:induction false} CategoriesTotalSnoc(cats: seq<string>, items: seq<Tagged>, x: Tagged)
    requires Distinct(cats)
    ensures CategoriesTotal(cats, items + [x])
            == CategoriesTotal(cats, items) + (if x.e.category in cats then x.e.ntd else 0.0)
  {
    if |cats| > 0 {
      var s := items + [x];
      assert s[..|s| - 1] == items;
      assert Distinct(cats[1..]) by {
        forall i, j | 0 <= i < j < |cats[1..]|
          ensures cats[1..][i] != cats[1..][j]
        {
          assert cats[1..][i] == cats[i + 1] && cats[1..][j] == cats[j + 1];
        }
      }
      CategoriesTotalSnoc(cats[1..], items, x);
      var m := OfCategory(items, cats[0]);
      if x.e.category == cats[0] {
        assert OfCategory(s, cats[0]) == m + [x];
        assert (m + [x])[..|m|] == m;
        assert x.e.category !in cats[1..];
      } else {
        assert OfCategory(s, cats[0]) == m;
        assert x.e.category in cats <==> x.e.category in cats[1..];
      }
    }
  }

  /** With distinct categories the running total is the sum over exactly the
      expenses whose category is one of the listed ones. */
  lemma {:induction false} CategoriesTotalIsFilteredSum(cats: seq<string>, items: seq<Tagged>)
    requires Distinct(cats)
    ensures CategoriesTotal(cats, items) == SumNtd(Filter(items, (t: Tagged) => t.e.category in cats))
  {
    if |items| == 0 {
      assert CategoriesTotal(cats, items) == 0.0 by { EmptyCategoriesTotal(cats); }
    } else {
      var init, x := items[..|items| - 1], items[|items| - 1];
      assert items == init + [x];
      CategoriesTotalIsFilteredSum(cats, init);
      CategoriesTotalSnoc(cats, init, x);
      var f := Filter(init, (t: Tagged) => t.e.category in cats);
      if x.e.category in cats {
        assert (f + [x])[..|f|] == f;
      }
    }
  }

  /** No expenses, nothing to add. */
  lemma {:induction false} EmptyCategoriesTotal(cats: seq<string>)
    ensures CategoriesTotal(cats, []) == 0.0
  {
    if |cats| > 0 {
      EmptyCategoriesTotal(cats[1..]);
    }
  }

  /** The five accounts are distinct. */
  lemma CategoriesDistinct()
    ensures Distinct(CATEGORIES)
  {
  }

  /** The statistics' and the single export's total: every expense, whatever its category. */
  function TotalExpense(expenses: seq<Expense>): (r: real)
    ensures r == SumNtd(Untagged(expenses))
  {
    if |expenses| == 0 then 0.0
    else
      var u := Untagged(expenses);
      assert u[..|u| - 1] == Untagged(expenses[..|expenses| - 1]);
      TotalExpense(expenses[..|expenses| - 1]) + expenses[|expenses| - 1].ntd
  }

  /** The employee section: one row per employee, in order, with the row ratio
      and the capped subsidy at that ratio. */
  function EmployeeRows(emps: seq<Employee>, info: TripInfo, dayOf: string -> int, a: Arithmetic): (r: seq<EmployeeRow>)
    ensures |r| == |emps|
    ensures forall i :: 0 <= i < |r| ==>
              && r[i].name == emps[i].name && r[i].apply == emps[i].apply && r[i].startDate == emps[i].startDate
              && r[i].ratio == RowRatio(emps[i], info.startDate, dayOf, a)
              && r[i].subsidy == r[i].remittance == RowSubsidy(emps[i], info, dayOf, a)
  {
    seq(|emps|, i requires 0 <= i < |emps| =>
      var e := emps[i];
      var amt := RowSubsidy(e, info, dayOf, a);
      EmployeeRow(e.name, e.apply, e.startDate, RowRatio(e, info.startDate, dayOf, a), amt, amt))
  }

  /** The statistics card. */
  datatype Stats = Stats(totalExpense: real, totalClaim: real, receiptCount: nat)

  /** `updateStatistics`: total of all expenses, the claim capped by the group
      subsidy, and the number of receipts. */
  function Statistics(data: AppData, dayOf: string -> int): (r: Stats)
    ensures r.receiptCount == |data.expenses|
    ensures r.totalExpense == SumNtd(Untagged(data.expenses))
    ensures var sub := TotalSubsidy(data.employees, data.tripInfo, dayOf, ViaDays);
            r.totalClaim <= r.totalExpense && r.totalClaim <= sub
            && (r.totalClaim == r.totalExpense || r.totalClaim == sub)
  {
    var total := TotalExpense(data.expenses);
    Stats(total, TotalClaim(total, TotalSubsidy(data.employees, data.tripInfo, dayOf, ViaDays)), |data.expenses|)
  }

  /** `generateExcelFile`. The expense section lists the five accounts in order;
      the total counts every expense, also one filed under another account. */
  function SingleExport(data: AppData, dayOf: string -> int): (r: Result<Sheet, ExportError>)
    ensures |data.expenses| == 0 ==> r == Err(NoExpenses)
    ensures |data.expenses| > 0 && |data.employees| == 0 ==> r == Err(NoEmployees)
    ensures r.Ok? ==>
              var s := r.value;
              && s.employeeRows == EmployeeRows(data.employees, data.tripInfo, dayOf, ViaDays)
              && s.expenseRows == Blocks(CATEGORIES, Untagged(data.expenses))
              && s.totalExpense == SumNtd(Untagged(data.expenses))
              && s.subtotal == TotalSubsidy(data.employees, data.tripInfo, dayOf, ViaDays)
              && s.totalPayment == s.subtotal
              && s.totalClaim <= s.totalExpense && s.totalClaim <= s.subtotal
              && (s.totalClaim == s.totalExpense || s.totalClaim == s.subtotal)
  {
    if |data.expenses| == 0 then Err(NoExpenses)
    else if |data.employees| == 0 then Err(NoEmployees)
    else
      var sub := TotalSubsidy(data.employees, data.tripInfo, dayOf, ViaDays);
      var total := TotalExpense(data.expenses);
      Ok(Sheet(EmployeeRows(data.employees, data.tripInfo, dayOf, ViaDays), sub,
               Blocks(CATEGORIES, Untagged(data.expenses)), total, TotalClaim(total, sub), sub))
  }

  /** `generateMergedExcel`. Each expense row carries its reporter; the total is
      accumulated per category, so it is exactly the sum of the NTD column and
      leaves out any expense filed under another account. */
  function MergedExport(data: AppData, members: seq<MemberFile>, dayOf: string -> int): (r: Result<Sheet, ExportError>)
    ensures |members| == 0 ==> r == Err(NoMembers)
    ensures |members| > 0 && |data.employees| == 0 ==> r == Err(NoEmployees)
    ensures r.Ok? ==>
              var s := r.value;
              && s.employeeRows == EmployeeRows(data.employees, data.tripInfo, dayOf, InOneStep)
              && s.expenseRows == Blocks(CATEGORIES, Flatten(members))
              && s.totalExpense == RowsNtd(s.expenseRows)
              && s.totalExpense == SumNtd(Filter(Flatten(members), (t: Tagged) => t.e.category in CATEGORIES))
              && s.subtotal == TotalSubsidy(data.employees, data.tripInfo, dayOf, ViaDays)
              && s.totalPayment == s.subtotal
              && s.totalClaim <= s.totalExpense && s.totalClaim <= s.subtotal
              && (s.totalClaim == s.totalExpense || s.totalClaim == s.subtotal)
  {
    if |members| == 0 then Err(NoMembers)
    else if |data.employees| == 0 then Err(NoEmployees)
    else
      var items := Flatten(members);
      var sub := TotalSubsidy(data.employees, data.tripInfo, dayOf, InOneStep);
      var total := CategoriesTotal(CATEGORIES, items);
      BlocksNtd(CATEGORIES, items);
      CategoriesDistinct();
      CategoriesTotalIsFilteredSum(CATEGORIES, items);
      TotalSubsidyArithmeticAgrees(data.employees, data.tripInfo, dayOf);
      Ok(Sheet(EmployeeRows(data.employees, data.tripInfo, dayOf, InOneStep), sub,
               Blocks(CATEGORIES, items), total, TotalClaim(total, sub), sub))
  }

  /** The on-screen claim and the single export's claim are the same number. */
  lemma ScreenMatchesSingleExport(data: AppData, dayOf: string -> int)
    requires |data.expenses| > 0 && |data.employees| > 0
    ensures SingleExport(data, dayOf).Ok?
    ensures SingleExport(data, dayOf).value.totalClaim == Statistics(data, dayOf).totalClaim
    ensures SingleExport(data, dayOf).value.totalExpense == Statistics(data, dayOf).totalExpense
  {
  }

  /** When every expense is filed under one of the five accounts, the single
      export's total is the sum of its NTD column, as in the merged export. */
  lemma {:induction false} SingleTotalMatchesRows(data: AppData, dayOf: string -> int)
    requires |data.expenses| > 0 && |data.employees| > 0
    requires forall i :: 0 <= i < |data.expenses| ==> data.expenses[i].category in CATEGORIES
    ensures SingleExport(data, dayOf).value.totalExpense == RowsNtd(SingleExport(data, dayOf).value.expenseRows)
  {
    var items := Untagged(data.expenses);
    BlocksNtd(CATEGORIES, items);
    CategoriesDistinct();
    CategoriesTotalIsFilteredSum(CATEGORIES, items);
    assert Filter(items, (t: Tagged) => t.e.category in CATEGORIES) == items;
  }

  /** An expense whose account is not listed adds no row to the listed blocks. */
  lemma {:induction false} UnlistedExpenseAddsNoRow(cats: seq<string>, items: seq<Tagged>, x: Tagged)
    requires x.e.category !in cats
    ensures Blocks(cats, items + [x]) == Blocks(cats, items)
  {
    if |cats| > 0 {
      var s := items + [x];
      assert s[..|s| - 1] == items;
      assert OfCategory(s, cats[0]) == OfCategory(items, cats[0]);
      UnlistedExpenseAddsNoRow(cats[1..], items, x);
    }
  }

  /** An expense under an account outside the five raises the single export's
      total but adds no row and leaves the merged total unchanged. */
  lemma StrayCategoryCountsOnlyInSingleExport(items: seq<Tagged>, x: Tagged)
    requires x.e.category !in CATEGORIES
    ensures SumNtd(items + [x]) == SumNtd(items) + x.e.ntd
    ensures CategoriesTotal(CATEGORIES, items + [x]) == CategoriesTotal(CATEGORIES, items)
    ensures Blocks(CATEGORIES, items + [x]) == Blocks(CATEGORIES, items)
  {
    var s := items + [x];
    assert s[..|s| - 1] == items;
    CategoriesDistinct();
    CategoriesTotalSnoc(CATEGORIES, items, x);
    UnlistedExpenseAddsNoRow(CATEGORIES, items, x);
  }

  /** The worked example: subsidy 10000, one applicant with full tenure, three
      receipts of 3000, 4000 and 5000 NTD. The claim is capped at 10000. */
  lemma WorkedExample(dayOf: string -> int)
    ensures var e := Expense(0, "餐費", "", "", "TWD", 0.0, 1.0, 0.0, "", false, "");
            var data := AppData("", DEFAULT_TRIP_INFO, [Employee(1, "A", APPLY_YES, FULL_YEAR)],
                                [e.(ntd := 3000.0), e.(ntd := 4000.0), e.(ntd := 5000.0)]);
            var s := Statistics(data, dayOf);
            s.totalExpense == 12000.0 && s.totalClaim == 10000.0
  {
    var e := Expense(0, "餐費", "", "", "TWD", 0.0, 1.0, 0.0, "", false, "");
    var emps := [Employee(1, "A", APPLY_YES, FULL_YEAR)];
    var xs := [e.(ntd := 3000.0), e.(ntd := 4000.0), e.(ntd := 5000.0)];
    assert emps[..0] == [];
    assert xs[..2] == [e.(ntd := 3000.0), e.(ntd := 4000.0)];
    assert xs[..2][..1] == [e.(ntd := 3000.0)];
    assert xs[..2][..1][..0] == [];
    assert TotalSubsidy(emps, DEFAULT_TRIP_INFO, dayOf, ViaDays) == 10000.0;
    assert TotalExpense(xs[..2][..1]) == 3000.0;
    assert TotalExpense(xs[..2]) == 7000.0;
    assert TotalExpense(xs) == 12000.0;
  }
}
