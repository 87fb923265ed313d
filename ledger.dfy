/** The aggregation of js/db.js (`DB.calculateTotals`): a pilot's monthly totals
    computed from its base fee and its expense and reimbursement rows.
    Money is held in integer cents, so the sums are exact. */
module Ledger {

  type PilotId = string

  /** An amount of money in cents. */
  type Cents = int

  /** A row of the `expenses` or of the `reimbursements` table. */
  datatype Entry = Entry(description: string, amount: Cents)

  /** A `pilots` row joined with its expense and reimbursement rows of the month. */
  datatype Pilot = Pilot(
    id: PilotId,
    name: string,
    category: string,
    baseFee: Cents,
    closingDate: int,
    observations: string,
    expenses: seq<Entry>,
    reimbursements: seq<Entry>)

  datatype Totals = Totals(totalExpenses: Cents, totalReimbursements: Cents, totalMonth: Cents)

  /** The mathematical sum of the amounts, the reference the fold is measured against. */
  function Sum(items: seq<Entry>): Cents
    decreases |items|
  {
    if items == [] then 0 else items[0].amount + Sum(items[1..])
  }

  /** `items.reduce((sum, item) => sum + item.amount, acc)`: a fold from the
      left, which adds the starting value `acc` to the sum of the amounts. */
  function Reduce(acc: Cents, items: seq<Entry>): (r: Cents)
    ensures r == acc + Sum(items)
    decreases |items|
  {
    if items == [] then acc else Reduce(acc + items[0].amount, items[1..])
  }

  /** `DB.calculateTotals(pilot)`: both reductions start at 0 and the month's
      total is the base fee plus the expenses minus the reimbursements. */
  function CalculateTotals(p: Pilot): (t: Totals)
    ensures t.totalExpenses == Sum(p.expenses)
    ensures t.totalReimbursements == Sum(p.reimbursements)
    ensures t.totalMonth == p.baseFee + t.totalExpenses - t.totalReimbursements
  {
    var totalExpenses := Reduce(0, p.expenses);
    var totalReimbursements := Reduce(0, p.reimbursements);
    Totals(totalExpenses, totalReimbursements, p.baseFee + totalExpenses - totalReimbursements)
  }

  /** The sum of two lists is the sum of the first plus the sum of the second. */
  lemma {:induction false} SumConcat(a: seq<Entry>, b: seq<Entry>)
    ensures Sum(a + b) == Sum(a) + Sum(b)
    decreases |a|
  {
    if a == [] {
      assert a + b == b;
    } else {
      assert (a + b)[1..] == a[1..] + b;
      SumConcat(a[1..], b);
    }
  }

  /** Appending a row raises the sum by exactly its amount. */
  lemma SumAppend(items: seq<Entry>, e: Entry)
    ensures Sum(items + [e]) == Sum(items) + e.amount
  {
    SumConcat(items, [e]);
  }

  /** Taking the row at `j` out of a list leaves the other rows. */
  lemma MultisetWithout(b: seq<Entry>, j: nat)
    requires j < |b|
    ensures multiset(b[..j] + b[j + 1..]) == multiset(b) - multiset{b[j]}
  {
    assert b == b[..j] + [b[j]] + b[j + 1..];
  }

  /** Taking the row at `j` out of a list lowers its sum by that row's amount. */
  lemma SumWithout(b: seq<Entry>, j: nat)
    requires j < |b|
    ensures Sum(b) == b[j].amount + Sum(b[..j] + b[j + 1..])
  {
    var before, after := b[..j], b[j + 1..];
    assert b == before + ([b[j]] + after);
    SumConcat(before, [b[j]] + after);
    assert ([b[j]] + after)[1..] == after;
    SumConcat(before, after);
  }

  /** The order of the rows is irrelevant: a permutation has the same sum. */
  lemma {:induction false} SumPermutation(a: seq<Entry>, b: seq<Entry>)
    requires multiset(a) == multiset(b)
    ensures Sum(a) == Sum(b)
    decreases |a|
  {
    if a == [] {
      assert |b| == |multiset(b)| == 0;
    } else {
      var x := a[0];
      assert x in multiset(b);
      var j :| 0 <= j < |b| && b[j] == x;
      assert a == [x] + a[1..];
      assert multiset(a[1..]) == multiset(a) - multiset{x};
      MultisetWithout(b, j);
      SumPermutation(a[1..], b[..j] + b[j + 1..]);
      SumWithout(b, j);
    }
  }

  /** Rows with non-negative amounts have a non-negative sum. */
  lemma {:induction false} SumNonNegative(items: seq<Entry>)
    requires forall i | 0 <= i < |items| :: items[i].amount >= 0
    ensures Sum(items) >= 0
    decreases |items|
  {
    if items != [] {
      SumNonNegative(items[1..]);
    }
  }

  /** With no expense and no reimbursement the month costs exactly the base fee. */
  lemma TotalsWithoutEntries(p: Pilot)
    requires p.expenses == [] && p.reimbursements == []
    ensures CalculateTotals(p) == Totals(0, 0, p.baseFee)
  {
  }

  /** A new expense raises the expenses and the month's total by its amount
      and leaves the reimbursements alone. */
  lemma TotalsAddExpense(p: Pilot, e: Entry)
    ensures var before, after := CalculateTotals(p), CalculateTotals(p.(expenses := p.expenses + [e]));
      && after.totalExpenses == before.totalExpenses + e.amount
      && after.totalReimbursements == before.totalReimbursements
      && after.totalMonth == before.totalMonth + e.amount
  {
    SumAppend(p.expenses, e);
  }

  /** A new reimbursement raises the reimbursements and lowers the month's
      total by its amount and leaves the expenses alone. */
  lemma TotalsAddReimbursement(p: Pilot, e: Entry)
    ensures var before, after := CalculateTotals(p), CalculateTotals(p.(reimbursements := p.reimbursements + [e]));
      && after.totalExpenses == before.totalExpenses
      && after.totalReimbursements == before.totalReimbursements + e.amount
      && after.totalMonth == before.totalMonth - e.amount
  {
    SumAppend(p.reimbursements, e);
  }

  /** The totals do not depend on the order in which the store returns the rows. */
  lemma TotalsIgnoreOrder(p: Pilot, q: Pilot)
    requires p.baseFee == q.baseFee
    requires multiset(p.expenses) == multiset(q.expenses)
    requires multiset(p.reimbursements) == multiset(q.reimbursements)
    ensures CalculateTotals(p) == CalculateTotals(q)
  {
    SumPermutation(p.expenses, q.expenses);
    SumPermutation(p.reimbursements, q.reimbursements);
  }

  /** Non-negative amounts give non-negative expense and reimbursement totals. */
  lemma TotalsNonNegative(p: Pilot)
    requires forall i | 0 <= i < |p.expenses| :: p.expenses[i].amount >= 0
    requires forall i | 0 <= i < |p.reimbursements| :: p.reimbursements[i].amount >= 0
    ensures CalculateTotals(p).totalExpenses >= 0
    ensures CalculateTotals(p).totalReimbursements >= 0
  {
    SumNonNegative(p.expenses);
    SumNonNegative(p.reimbursements);
  }
}
