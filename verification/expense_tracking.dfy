/** A list of dated expenses, filtered and grouped by date. */
module ExpenseTracking {
  import opened Outcomes
  import opened Money

  /** A calendar date; only equality between dates matters here. */
  datatype Date = Date(year: int, month: int, day: int)

  datatype Expense = Expense(description: string, amount: real, date: Date)

  function AmountOf(e: Expense): real { e.amount }

  /** The expenses of `s` dated `date`, in their original order. */
  function OnDate(s: seq<Expense>, date: Date): (r: seq<Expense>)
    ensures |r| <= |s|
  {
    if s == [] then []
    else OnDate(s[..|s| - 1], date) + (if s[|s| - 1].date == date then [s[|s| - 1]] else [])
  }

  /** The dates that occur in `s`. */
  function DatesIn(s: seq<Expense>): set<Date>
  {
    if s == [] then {} else DatesIn(s[..|s| - 1]) + {s[|s| - 1].date}
  }

  /** A date is in DatesIn(s) exactly when some expense of `s` carries it. */
  lemma {:induction false} DatesInMembers(s: seq<Expense>, date: Date)
    ensures date in DatesIn(s) <==> exists i :: 0 <= i < |s| && s[i].date == date
  {
    if s != [] {
      var n := |s| - 1;
      DatesInMembers(s[..n], date);
      if date in DatesIn(s[..n]) {
        var i :| 0 <= i < n && s[..n][i].date == date;
        assert s[i].date == date;
      }
      if exists i :: 0 <= i < |s| && s[i].date == date {
        var i :| 0 <= i < |s| && s[i].date == date;
        if i < n {
          assert s[..n][i].date == date;
        }
      }
    }
  }

  /** `summary` has one entry per date of `s`, holding the total of that date's expenses. */
  ghost predicate Grouped(summary: map<Date, real>, s: seq<Expense>)
  {
    summary.Keys == DatesIn(s) &&
    forall d :: d in summary ==> summary[d] == SumOf(OnDate(s, d), AmountOf)
  }

  /** A date absent from `s` selects nothing. */
  lemma {:induction false} OnDateAbsent(s: seq<Expense>, date: Date)
    requires date !in DatesIn(s)
    ensures OnDate(s, date) == []
  {
    if s != [] {
      OnDateAbsent(s[..|s| - 1], date);
    }
  }

  /** The grouping built one expense at a time, as the summary loop builds it. */
  function SummaryOf(s: seq<Expense>): map<Date, real>
  {
    if s == [] then map[]
    else
      var m := SummaryOf(s[..|s| - 1]);
      var e := s[|s| - 1];
      m[e.date := (if e.date in m then m[e.date] else 0.0) + e.amount]
  }

  /** The incremental grouping has an entry for exactly the dates present. */
  lemma {:induction false} SummaryKeys(s: seq<Expense>)
    ensures SummaryOf(s).Keys == DatesIn(s)
  {
    if s != [] {
      SummaryKeys(s[..|s| - 1]);
    }
  }

  /** Each entry of the incremental grouping is the total of that date's expenses. */
  lemma {:induction false} SummaryValue(s: seq<Expense>, date: Date)
    requires date in SummaryOf(s)
    ensures SummaryOf(s)[date] == SumOf(OnDate(s, date), AmountOf)
  {
    var n := |s| - 1;
    var e := s[n];
    var m := SummaryOf(s[..n]);
    if date == e.date {
      assert OnDate(s, date) == OnDate(s[..n], date) + [e];
      SumOfAppend(OnDate(s[..n], date), e, AmountOf);
      if date in m {
        SummaryValue(s[..n], date);
      } else {
        SummaryKeys(s[..n]);
        OnDateAbsent(s[..n], date);
        assert OnDate(s[..n], date) == [];
      }
    } else {
      assert OnDate(s, date) == OnDate(s[..n], date);
      SummaryValue(s[..n], date);
    }
  }

  /** The incremental grouping is exact: one entry per date, holding that date's total. */
  lemma SummaryOfGroups(s: seq<Expense>)
    ensures Grouped(SummaryOf(s), s)
  {
    SummaryKeys(s);
    forall d | d in SummaryOf(s) ensures SummaryOf(s)[d] == SumOf(OnDate(s, d), AmountOf) {
      SummaryValue(s, d);
    }
  }

  /** The filter keeps exactly the expenses dated `date`. */
  lemma {:induction false} OnDateMembers(s: seq<Expense>, date: Date, e: Expense)
    ensures e in OnDate(s, date) <==> e in s && e.date == date
  {
    if s != [] {
      var n := |s| - 1;
      OnDateMembers(s[..n], date, e);
      assert s == s[..n] + [s[n]];
    }
  }

  /** The filter keeps every copy of a matching expense and no copy of any other. */
  lemma {:induction false} OnDateCounts(s: seq<Expense>, date: Date, e: Expense)
    ensures multiset(OnDate(s, date))[e] == if e.date == date then multiset(s)[e] else 0
  {
    if s != [] {
      var n := |s| - 1;
      OnDateCounts(s[..n], date, e);
      assert s == s[..n] + [s[n]];
    }
  }

  /** Filtering commutes with appending, so the original order is kept. */
  lemma {:induction false} OnDateAppend(s: seq<Expense>, t: seq<Expense>, date: Date)
    ensures OnDate(s + t, date) == OnDate(s, date) + OnDate(t, date)
  {
    if t == [] {
      assert s + t == s;
    } else {
      var n := |t| - 1;
      OnDateAppend(s, t[..n], date);
      assert (s + t)[..|s + t| - 1] == s + t[..n];
    }
  }

  /** With positive amounts, one date's expenses never add up to more than all expenses. */
  lemma {:induction false} OnDateWithinTotal(s: seq<Expense>, date: Date)
    requires forall i :: 0 <= i < |s| ==> s[i].amount > 0.0
    ensures 0.0 <= SumOf(OnDate(s, date), AmountOf) <= SumOf(s, AmountOf)
  {
    if s != [] {
      var n := |s| - 1;
      OnDateWithinTotal(s[..n], date);
      var kept := if s[n].date == date then [s[n]] else [];
      assert OnDate(s, date) == OnDate(s[..n], date) + kept;
      if s[n].date == date {
        SumOfAppend(OnDate(s[..n], date), s[n], AmountOf);
      } else {
        assert OnDate(s, date) == OnDate(s[..n], date);
      }
    }
  }

  class ExpenseTracker {
    var expenses: seq<Expense>

    /** Every recorded amount is positive. */
    predicate Valid()
      reads this
    {
      forall i :: 0 <= i < |expenses| ==> expenses[i].amount > 0.0
    }

    constructor()
      ensures Valid() && expenses == []
    {
      expenses := [];
    }

    /**
     * Records a positive expense. A missing date stands for the current day, which is
     * passed in as `today`.
     */
    method AddExpense(description: string, amount: real, date: Option<Date>, today: Date) returns (r: Outcome)
      requires Valid()
      modifies this
      ensures Valid()
      ensures r.Pass? <==> amount > 0.0
      ensures r.Fail? ==> r.message == "Amount must be greater than zero." && expenses == old(expenses)
      ensures r.Pass? ==> expenses == old(expenses) + [Expense(description, amount, if date.Some? then date.value else today)]
      ensures r.Pass? ==> TotalExpenses() == old(TotalExpenses()) + amount
    {
      if amount <= 0.0 {
        return Fail("Amount must be greater than zero.");
      }
      var day := if date.Some? then date.value else today;
      SumOfAppend(expenses, Expense(description, amount, day), AmountOf);
      expenses := expenses + [Expense(description, amount, day)];
      r := Pass;
    }

    /** The sum of all amounts: positive exactly when something was recorded. */
    function TotalExpenses(): (r: real)
      reads this
      ensures Valid() ==> (r >= 0.0 && (r > 0.0 <==> expenses != []))
    {
      if Valid() && expenses != [] then SumOfPositive(expenses, AmountOf); SumOf(expenses, AmountOf)
      else SumOf(expenses, AmountOf)
    }

    /** The recorded expenses dated `date`, in the order they were added. */
    function ExpensesByDate(date: Date): (r: seq<Expense>)
      reads this
      ensures forall e :: e in r <==> e in expenses && e.date == date
    {
      forall e | true ensures e in OnDate(expenses, date) <==> e in expenses && e.date == date {
        OnDateMembers(expenses, date, e);
      }
      OnDate(expenses, date)
    }

    /** Groups the expenses by date: one entry per date present, holding that date's total. */
    method Summary() returns (summary: map<Date, real>)
      ensures summary == SummaryOf(expenses)
      ensures Grouped(summary, expenses)
    {
      summary := map[];
      for i := 0 to |expenses|
        invariant summary == SummaryOf(expenses[..i])
      {
        var date := expenses[i].date;
        if date !in summary {
          summary := summary[date := 0.0];
        }
        summary := summary[date := summary[date] + expenses[i].amount];
        assert expenses[..i + 1][..i] == expenses[..i];
      }
      assert expenses[..|expenses|] == expenses;
      SummaryOfGroups(expenses);
    }
  }

  /** The three expenses of the example below, grouped and filtered prefix by prefix. */
  lemma ExampleFacts(es: seq<Expense>, today: Date, yesterday: Date)
    requires today != yesterday
    requires es == [Expense("Lunch", 50.0, today), Expense("Dinner", 100.0, yesterday), Expense("Snack", 25.0, today)]
    ensures SumOf(es, AmountOf) == 175.0
    ensures OnDate(es, today) == [es[0], es[2]] && OnDate(es, yesterday) == [es[1]]
    ensures SummaryOf(es).Keys == {today, yesterday}
    ensures SummaryOf(es)[today] == 75.0 && SummaryOf(es)[yesterday] == 100.0
  {
    var p1, p2 := es[..1], es[..2];
    assert p2[..1] == p1 && p1[..0] == [] && es[..2] == p2;
    assert SumOf(p1, AmountOf) == 50.0 && SumOf(p2, AmountOf) == 150.0;
    assert OnDate(p1, today) == [es[0]] && OnDate(p1, yesterday) == [];
    assert OnDate(p2, today) == [es[0]] && OnDate(p2, yesterday) == [es[1]];
    var m1 := SummaryOf(p1);
    assert SummaryOf(p1[..0]) == map[];
    assert m1 == map[][today := 50.0];
    assert today in m1 && m1[today] == 50.0 && yesterday !in m1;
    var m2 := SummaryOf(p2);
    assert today in m2 && m2[today] == 50.0 && yesterday in m2 && m2[yesterday] == 100.0;
    SummaryKeys(es);
    assert DatesIn(p1) == {today} && DatesIn(p2) == {today, yesterday};
  }

  /**
   * Lunch today, dinner yesterday and an undated snack, which is recorded today: the total is 175,
   * today's filter keeps lunch and snack in that order and drops the dinner, and the summary holds
   * 75 under today and 100 under yesterday.
   */
  method ExpenseTrackerExample() returns (total: real, todays: seq<Expense>, yesterdays: seq<Expense>,
                                          summary: map<Date, real>)
    ensures total == 175.0
    ensures |todays| == 2 && todays[0].description == "Lunch" && todays[1].description == "Snack"
    ensures |yesterdays| == 1 && yesterdays[0].description == "Dinner"
    ensures summary.Keys == {Date(2024, 1, 15), Date(2024, 1, 14)}
    ensures summary[Date(2024, 1, 15)] == 75.0 && summary[Date(2024, 1, 14)] == 100.0
  {
    var today, yesterday := Date(2024, 1, 15), Date(2024, 1, 14);
    var tracker := new ExpenseTracker();
    var _ := tracker.AddExpense("Lunch", 50.0, Some(today), today);
    var _ := tracker.AddExpense("Dinner", 100.0, Some(yesterday), today);
    var _ := tracker.AddExpense("Snack", 25.0, None, today);
    ExampleFacts(tracker.expenses, today, yesterday);
    total := tracker.TotalExpenses();
    todays := tracker.ExpensesByDate(today);
    yesterdays := tracker.ExpensesByDate(yesterday);
    summary := tracker.Summary();
  }
}
