/** The app's ledger: a daily budget kept in the standard store under "balance", and the list
    of expenses recorded against it. */
module Budget {
  import opened Clock
  import opened Storage
  import opened Wrappers

  /** The store key under which the budget figure is persisted. */
  const BalanceKey: string := "balance"

  /** One recorded expense. Its `UUID` identifier is not modelled. */
  datatype Expense = Expense(amount: real, description: string, date: Instant)

  /** `expenses.reduce(acc) { $0 + $1.amount }`: a left fold that adds the amounts one by one,
      from the first expense to the last. */
  function ReduceAmounts(acc: real, expenses: seq<Expense>): real
    decreases |expenses|
  {
    if expenses == [] then acc else ReduceAmounts(acc + expenses[0].amount, expenses[1..])
  }

  /** The sum of the amounts of a list of expenses. */
  function Total(expenses: seq<Expense>): real
    decreases |expenses|
  {
    if expenses == [] then 0.0 else expenses[0].amount + Total(expenses[1..])
  }

  /** The fold adds exactly the sum of the amounts to its starting value. */
  lemma {:induction false} ReduceIsTotal(acc: real, expenses: seq<Expense>)
    ensures ReduceAmounts(acc, expenses) == acc + Total(expenses)
    decreases |expenses|
  {
    if expenses != [] {
      ReduceIsTotal(acc + expenses[0].amount, expenses[1..]);
    }
  }

  /** The sum of two lists placed one after the other is the sum of their sums. */
  lemma {:induction false} TotalOfConcat(xs: seq<Expense>, ys: seq<Expense>)
    ensures Total(xs + ys) == Total(xs) + Total(ys)
    decreases |xs|
  {
    if xs == [] {
      assert xs + ys == ys;
    } else {
      assert (xs + ys)[1..] == xs[1..] + ys;
      TotalOfConcat(xs[1..], ys);
    }
  }

  /** Appending one expense raises the sum by exactly its amount. */
  lemma TotalAfterAppend(expenses: seq<Expense>, e: Expense)
    ensures Total(expenses + [e]) == Total(expenses) + e.amount
  {
    TotalOfConcat(expenses, [e]);
    assert Total([e]) == e.amount + Total([]);
  }

  /** Taking the expense at index `i` out of a list lowers its sum by that expense's amount
      and removes one occurrence of it. */
  lemma {:induction false} TotalWithout(ys: seq<Expense>, i: nat)
    requires i < |ys|
    ensures Total(ys) == ys[i].amount + Total(ys[..i] + ys[i + 1..])
    ensures multiset(ys) == multiset(ys[..i] + ys[i + 1..]) + multiset{ys[i]}
  {
    var before, after := ys[..i], ys[i + 1..];
    assert ys == before + ([ys[i]] + after);
    TotalOfConcat(before, [ys[i]] + after);
    assert ([ys[i]] + after)[1..] == after;
    TotalOfConcat(before, after);
  }

  /** The sum does not depend on the order of the expenses: any permutation has the same sum. */
  lemma {:induction false} TotalIsOrderIndependent(xs: seq<Expense>, ys: seq<Expense>)
    requires multiset(xs) == multiset(ys)
    ensures Total(xs) == Total(ys)
    decreases |xs|
  {
    if xs == [] {
      assert |ys| == |multiset(ys)| == 0;
    } else {
      var e := xs[0];
      assert xs == [e] + xs[1..];
      assert e in multiset(ys);
      var i :| 0 <= i < |ys| && ys[i] == e;
      var rest := ys[..i] + ys[i + 1..];
      TotalWithout(ys, i);
      var left, right := multiset(xs[1..]), multiset(rest);
      assert left + multiset{e} == right + multiset{e};
      forall x ensures left[x] == right[x] {
        assert (left + multiset{e})[x] == (right + multiset{e})[x];
      }
      assert left == right;
      TotalIsOrderIndependent(xs[1..], rest);
    }
  }

  /** The remaining budget of a ledger, as a value: the budget less the sum of the expenses. */
  function RemainingBudget(dailyBudget: real, expenses: seq<Expense>): (r: real)
    ensures r == dailyBudget - Total(expenses)
    ensures expenses == [] ==> r == dailyBudget
  {
    ReduceIsTotal(0.0, expenses);
    dailyBudget - ReduceAmounts(0.0, expenses)
  }

  /** Recording an expense of amount `a` lowers the remaining budget by exactly `a`. */
  lemma RemainingAfterExpense(dailyBudget: real, expenses: seq<Expense>, e: Expense)
    ensures RemainingBudget(dailyBudget, expenses + [e]) == RemainingBudget(dailyBudget, expenses) - e.amount
  {
    TotalAfterAppend(expenses, e);
  }

  /** Reordering the expenses does not change the remaining budget. */
  lemma RemainingIsOrderIndependent(dailyBudget: real, xs: seq<Expense>, ys: seq<Expense>)
    requires multiset(xs) == multiset(ys)
    ensures RemainingBudget(dailyBudget, xs) == RemainingBudget(dailyBudget, ys)
  {
    TotalIsOrderIndependent(xs, ys);
  }

  /** The app's budget model. Every assignment to `dailyBudget` after `init` is written through
      to the store (the one in `init` reads the stored figure and writes nothing), so the stored
      "balance" always mirrors it. */
  class BudgetModel {
    var dailyBudget: real
    var expenses: seq<Expense>
    /** `UserDefaults.standard`. */
    const store: UserDefaults

    /** The stored balance is the current budget figure. */
    ghost predicate Valid()
      reads this, store
    {
      store.Double(BalanceKey) == dailyBudget
    }

    /** `init()`: the budget is read back from the store (0 when nothing was ever stored),
        and the list of expenses starts empty. */
    constructor (standard: UserDefaults)
      ensures store == standard
      ensures dailyBudget == standard.Double(BalanceKey)
      ensures expenses == []
      ensures Valid()
    {
      store := standard;
      dailyBudget := standard.Double(BalanceKey);
      expenses := [];
    }

    /** An assignment `dailyBudget = v`, with its `didSet` observer persisting `v` under "balance". */
    method SetDailyBudget(v: real)
      modifies this, store
      ensures dailyBudget == v && expenses == old(expenses)
      ensures store.values == old(store.values)[BalanceKey := v]
      ensures Valid()
    {
      dailyBudget := v;
      store.SetDouble(dailyBudget, BalanceKey);
    }

    /** `addExpense(amount:description:)`, with `now` the moment `Date()` reads. Any amount is
        accepted. Exactly one expense is appended; the budget and the store are untouched. */
    method AddExpense(amount: real, description: string, now: Instant)
      modifies this
      ensures expenses == old(expenses) + [Expense(amount, description, now)]
      ensures dailyBudget == old(dailyBudget)
      ensures store.values == old(store.values)
      ensures old(Valid()) ==> Valid()
      ensures CalculateRemainingBudget() == old(CalculateRemainingBudget()) - amount
    {
      var expense := Expense(amount, description, now);
      expenses := expenses + [expense];
      RemainingAfterExpense(dailyBudget, old(expenses), expense);
    }

    /** The "add" button of the app's expense form: a text that does not parse as a number
        (`None`) records nothing; a parsed amount is recorded as by `AddExpense`. */
    method AddParsedExpense(parsed: Option<real>, description: string, now: Instant)
      modifies this
      ensures parsed.None? ==> expenses == old(expenses)
      ensures parsed.Some? ==> expenses == old(expenses) + [Expense(parsed.value, description, now)]
      ensures dailyBudget == old(dailyBudget)
    {
      if parsed.Some? {
        AddExpense(parsed.value, description, now);
      }
    }

    /** `calculateRemainingBudget()`: reads the model and changes nothing. */
    function CalculateRemainingBudget(): (r: real)
      reads this
      ensures r == dailyBudget - Total(expenses)
    {
      RemainingBudget(dailyBudget, expenses)
    }
  }

  /** Setting the budget and starting the model again from the same store reads the budget back,
      with no expenses. */
  method BudgetSurvivesRelaunch(standard: UserDefaults, v: real) returns (relaunched: BudgetModel)
    modifies standard
    ensures relaunched.dailyBudget == v
    ensures relaunched.expenses == []
    ensures relaunched.CalculateRemainingBudget() == v
  {
    var model := new BudgetModel(standard);
    model.SetDailyBudget(v);
    relaunched := new BudgetModel(standard);
  }
}
