/**
 The repository and service code of the customer credit ledger: the statements that change
 the tables, written imperatively and proved to be steps of the concurrent protocol, the
 balance report, and the sums that decide what a sale or a refund writes.
 */
module CreditLedgerRepository {
  import opened Wrappers
  import opened CreditLedger

  class Repository {
    const setup: Setup
    var committed: seq<Row>
    var open: map<TxId, Tx>
    var holder: map<int, TxId>

    constructor (setup: Setup)
      requires setup.lockFirst
      ensures this.setup == setup && Abs() == INITIAL
    {
      this.setup := setup;
      committed, open, holder := [], map[], map[];
    }

    ghost function Abs(): State
      reads this
    {
      State(committed, open, holder)
    }

    /** The awaited lock and the guarded INSERT, with nobody in between.  The first await
        returns only once the lock is granted, which is what the third requires says. */
    method InsertWithBalanceGuard(t: TxId, key: Key, direction: Direction, amount: int)
      returns (row: Option<Row>)
      requires setup.lockFirst && !direction.Issued?
      requires t in open && open[t].phase.Idle?
      requires Grantable(setup, State(committed, open, holder), t, key)
      modifies this
      ensures Abs() == Next(setup, Next(setup, Next(setup, old(Abs()), Lock(t, key)), Snapshot(t, key)),
                            GuardedInsert(t, direction, amount))
      ensures committed == old(committed) && holder == old(holder)[setup.hash(key) := t]
      ensures row == if Balance(old(committed) + old(open[t].staged), key) >= amount
                     then Some(Row(key, direction, amount)) else None
      ensures open == old(open)[t := Tx(old(open[t].staged) + if row.Some? then [row.value] else [], Idle)]
    {
      holder := holder[setup.hash(key) := t];
      var view := committed + open[t].staged;
      if Balance(view, key) >= amount {
        row := Some(Row(key, direction, amount));
        open := open[t := Tx(open[t].staged + [row.value], Idle)];
      } else {
        row := None;
        assert open[t].staged + [] == open[t].staged;
        assert open[t] == Tx(open[t].staged, Idle);
        assert open[t := open[t]] == open;
      }
    }

    method CreateIssued(t: TxId, key: Key, amount: int) returns (row: Row)
      requires t in open && setup.issuable(amount)
      modifies this`open
      ensures row == Row(key, Issued, amount)
      ensures open == old(open)[t := old(open[t]).(staged := old(open[t].staged) + [row])]
      ensures Abs() == Next(setup, old(Abs()), Issue(t, key, amount))
    {
      row := Row(key, Issued, amount);
      open := open[t := open[t].(staged := open[t].staged + [row])];
    }

    /** A write-off is guarded; a top-up is a plain insert.  The amount is already absolute. */
    method CreateManualAdjustment(t: TxId, key: Key, direction: Direction, amount: int) returns (row: Option<Row>)
      requires setup.lockFirst && !direction.Spent? && amount >= 0
      requires t in open && open[t].phase.Idle?
      requires direction.Issued? ==> setup.issuable(amount)
      requires direction.Adjusted? ==> Grantable(setup, State(committed, open, holder), t, key)
      modifies this
      ensures Abs() ==
        if direction.Adjusted? then
          Next(setup, Next(setup, Next(setup, old(Abs()), Lock(t, key)), Snapshot(t, key)),
               GuardedInsert(t, Adjusted, amount))
        else Next(setup, old(Abs()), Issue(t, key, amount))
      ensures committed == old(committed)
      ensures row.None? <==> direction.Adjusted? && Balance(old(committed) + old(open[t].staged), key) < amount
      ensures row.Some? ==> row.value == Row(key, direction, amount)
      ensures t in open && open.Keys == old(open).Keys
      ensures open[t].staged == old(open[t].staged) + if row.Some? then [Row(key, direction, amount)] else []
      ensures Balance(old(committed) + old(open[t].staged), key) >= 0 ==>
                Balance(committed + open[t].staged, key) >= 0
    {
      if direction.Adjusted? {
        row := InsertWithBalanceGuard(t, key, Adjusted, amount);
      } else {
        var issued := CreateIssued(t, key, amount);
        row := Some(issued);
      }
      if row.Some? {
        BalanceMore(committed, old(open[t].staged), row.value);
      } else {
        assert old(open[t].staged) + [] == old(open[t].staged);
      }
    }

    /** A signed adjustment moves the balance this transaction sees by exactly its amount, or
        is refused: zero, an unknown customer, or a write-off that the balance does not cover. */
    method Adjust(t: TxId, key: Key, amount: int, customerExists: bool) returns (r: Adjustment)
      requires setup.lockFirst && t in open && open[t].phase.Idle?
      requires amount > 0 ==> setup.issuable(amount)
      requires amount < 0 ==> Grantable(setup, State(committed, open, holder), t, key)
      modifies this
      ensures r.ZeroAmount? <==> amount == 0
      ensures r.NoCustomer? <==> amount != 0 && !customerExists
      ensures r.Insufficient? <==>
        amount < 0 && customerExists && Balance(old(committed) + old(open[t].staged), key) + amount < 0
      ensures committed == old(committed) && open.Keys == old(open).Keys
      ensures Balance(committed + open[t].staged, key)
           == Balance(old(committed) + old(open[t].staged), key) + if r.Done? then amount else 0
    {
      if amount == 0 {
        return ZeroAmount;
      }
      var isWriteOff := amount < 0;
      var absoluteAmount := if amount < 0 then -amount else amount;
      if !customerExists {
        return NoCustomer;
      }
      var row := CreateManualAdjustment(t, key, if isWriteOff then Adjusted else Issued, absoluteAmount);
      r := if row.None? then Insufficient else Done;
      if row.Some? {
        BalanceMore(committed, old(open[t].staged), row.value);
      } else {
        assert old(open[t].staged) + [] == old(open[t].staged);
      }
    }

    /** One row for each eligible allocation, never aggregated; together they credit the sum
        that the legacy refund writes as a single row. */
    method IssueRefundCredit(t: TxId, company: string, customer: Option<string>, currency: string,
                             allocations: seq<Payment>)
      returns (ok: bool, created: seq<Row>)
      requires t in open && forall p | p in Eligible(allocations) :: setup.issuable(p.amount)
      modifies this`open
      ensures ok <==> Eligible(allocations) == [] || customer.Some?
      ensures !ok ==> created == []
      ensures ok ==> |created| == |Eligible(allocations)|
      ensures created != [] ==> customer.Some? && forall i | 0 <= i < |created| ::
        created[i] == Row(Key(company, customer.value, currency), Issued, Eligible(allocations)[i].amount)
      ensures open == old(open)[t := old(open[t]).(staged := old(open[t].staged) + created)]
      ensures ok && customer.Some? ==>
        Balance(created, Key(company, customer.value, currency))
          == PaidBy(allocations, StoreCredit) + PaidBy(allocations, GiftCard)
    {
      var eligible := Eligible(allocations);
      created := [];
      assert old(open[t]).(staged := old(open[t].staged) + []) == old(open[t]);
      if eligible == [] {
        CreditIsTwoMethods(allocations);
        return true, created;
      }
      if customer.None? {
        return false, created;
      }
      var key := Key(company, customer.value, currency);
      for i := 0 to |eligible|
        invariant |created| == i
        invariant forall k | 0 <= k < i :: created[k] == Row(key, Issued, eligible[k].amount)
        invariant open == old(open)[t := old(open[t]).(staged := old(open[t].staged) + created)]
        invariant Balance(created, key) == AmountSum(eligible[..i])
      {
        assert eligible[i] in eligible && eligible[..i + 1][..i] == eligible[..i];
        var row := CreateIssued(t, key, eligible[i].amount);
        assert (created + [row])[..i] == created;
        assert old(open[t].staged) + created + [row] == old(open[t].staged) + (created + [row]);
        created := created + [row];
      }
      assert eligible[..|eligible|] == eligible;
      CreditIsTwoMethods(allocations);
      ok := true;
    }

    method CommitTx(t: TxId)
      requires t in open
      modifies this
      ensures Abs() == Next(setup, old(Abs()), Commit(t))
    {
      committed := committed + open[t].staged;
      open := open - {t};
      holder := map k | k in holder && holder[k] != t :: holder[k];
    }
  }

  lemma BalanceMore(committed: seq<Row>, staged: seq<Row>, row: Row)
    ensures Balance(committed + (staged + [row]), row.key)
         == Balance(committed + staged, row.key) + Signed(row.direction, row.amount)
  {
    var all := committed + (staged + [row]);
    assert all[..|all| - 1] == committed + staged;
  }

  // ---------------------------------------------------------------------------------
  // The balance report
  // ---------------------------------------------------------------------------------

  datatype Group = Group(currency: string, direction: Direction, sum: int)

  datatype Totals = Totals(balance: int, issued: int, spent: int, adjusted: int)

  function Total(rows: seq<Row>, key: Key, direction: Direction): int {
    if rows == [] then 0
    else
      var last := rows[|rows| - 1];
      Total(rows[..|rows| - 1], key, direction)
      + if last.key == key && last.direction == direction then last.amount else 0
  }

  predicate Wanted(filter: Option<string>, currency: string) {
    filter.Some? ==> filter.value == currency
  }

  /** What GROUP BY currency, direction returns: one group for each pair that occurs, of
      every currency or of the one asked for. */
  ghost predicate IsGroupBy(groups: seq<Group>, rows: seq<Row>, company: string, customer: string,
                            filter: Option<string>)
  {
    && (forall i, j | 0 <= i < j < |groups| ::
          groups[i].currency != groups[j].currency || groups[i].direction != groups[j].direction)
    && (forall i | 0 <= i < |groups| ::
          && groups[i].sum == Total(rows, Key(company, customer, groups[i].currency), groups[i].direction)
          && Wanted(filter, groups[i].currency)
          && Occurs(rows, Key(company, customer, groups[i].currency), groups[i].direction))
    && (forall r | r in rows && r.key.company == company && r.key.customer == customer
                   && Wanted(filter, r.key.currency) ::
          HasGroup(groups, r.key.currency, r.direction))
  }

  predicate Occurs(rows: seq<Row>, key: Key, direction: Direction) {
    exists r | r in rows :: r.key == key && r.direction == direction
  }

  predicate HasGroup(groups: seq<Group>, currency: string, direction: Direction) {
    exists i | 0 <= i < |groups| :: groups[i].currency == currency && groups[i].direction == direction
  }

  /** The sum a list of groups holds for one currency and direction. */
  function GroupSum(groups: seq<Group>, currency: string, direction: Direction): int {
    if groups == [] then 0
    else
      var last := groups[|groups| - 1];
      GroupSum(groups[..|groups| - 1], currency, direction)
      + if last.currency == currency && last.direction == direction then last.sum else 0
  }

  lemma {:induction false} GroupSumUnique(groups: seq<Group>, currency: string, direction: Direction, i: nat)
    requires i <= |groups|
    requires i < |groups| ==> groups[i].currency == currency && groups[i].direction == direction
    requires forall j | 0 <= j < |groups| && j != i ::
               groups[j].currency != currency || groups[j].direction != direction
    ensures GroupSum(groups, currency, direction) == if i < |groups| then groups[i].sum else 0
  {
    if groups != [] {
      var n := |groups| - 1;
      GroupSumUnique(groups[..n], currency, direction, if i < n then i else n);
    }
  }

  lemma {:induction false} TotalAbsent(rows: seq<Row>, key: Key, direction: Direction)
    requires !Occurs(rows, key, direction)
    ensures Total(rows, key, direction) == 0
  {
    if rows != [] {
      var n := |rows| - 1;
      assert rows[n] in rows;
      assert forall r :: r in rows[..n] ==> r in rows;
      TotalAbsent(rows[..n], key, direction);
    }
  }

  lemma {:induction false} BalanceIsTotals(rows: seq<Row>, key: Key)
    ensures Balance(rows, key) == Total(rows, key, Issued) - Total(rows, key, Spent) - Total(rows, key, Adjusted)
  {
    if rows != [] {
      BalanceIsTotals(rows[..|rows| - 1], key);
    }
  }

  lemma GroupsAreTotals(groups: seq<Group>, rows: seq<Row>, company: string, customer: string,
                        filter: Option<string>, currency: string, direction: Direction)
    requires IsGroupBy(groups, rows, company, customer, filter) && Wanted(filter, currency)
    ensures GroupSum(groups, currency, direction) == Total(rows, Key(company, customer, currency), direction)
  {
    var key := Key(company, customer, currency);
    if HasGroup(groups, currency, direction) {
      var i :| 0 <= i < |groups| && groups[i].currency == currency && groups[i].direction == direction;
      GroupSumUnique(groups, currency, direction, i);
    } else {
      GroupSumUnique(groups, currency, direction, |groups|);
      assert !Occurs(rows, key, direction);
      TotalAbsent(rows, key, direction);
    }
  }

  predicate HasCurrency(groups: seq<Group>, currency: string) {
    exists i | 0 <= i < |groups| :: groups[i].currency == currency
  }

  function Summed(groups: seq<Group>, currency: string): Totals {
    var issued, spent, adjusted :=
      GroupSum(groups, currency, Issued), GroupSum(groups, currency, Spent), GroupSum(groups, currency, Adjusted);
    Totals(issued - spent - adjusted, issued, spent, adjusted)
  }

  lemma {:induction false} NothingSummed(groups: seq<Group>, currency: string)
    requires !HasCurrency(groups, currency)
    ensures Summed(groups, currency) == Totals(0, 0, 0, 0)
  {
    GroupSumUnique(groups, currency, Issued, |groups|);
    GroupSumUnique(groups, currency, Spent, |groups|);
    GroupSumUnique(groups, currency, Adjusted, |groups|);
  }

  lemma HasCurrencyStep(groups: seq<Group>, i: nat, currency: string)
    requires i < |groups|
    ensures HasCurrency(groups[..i + 1], currency)
       <==> HasCurrency(groups[..i], currency) || currency == groups[i].currency
  {
    var before, after := groups[..i], groups[..i + 1];
    assert after[i] == groups[i];
    if j :| 0 <= j < |before| && before[j].currency == currency {
      assert after[j].currency == currency;
    }
    if j :| 0 <= j < |after| && after[j].currency == currency && j != i {
      assert before[j].currency == currency;
    }
  }

  lemma SummedStep(groups: seq<Group>, i: nat, currency: string)
    requires i < |groups|
    ensures groups[i].currency != currency ==> Summed(groups[..i + 1], currency) == Summed(groups[..i], currency)
    ensures groups[i].currency == currency ==>
              Summed(groups[..i + 1], currency) == Added(Summed(groups[..i], currency), groups[i])
  {
    assert groups[..i + 1][..i] == groups[..i];
  }

  /** One group added to the totals of its currency. */
  function Added(totals: Totals, g: Group): Totals {
    match g.direction
    case Issued => totals.(issued := totals.issued + g.sum, balance := totals.balance + g.sum)
    case Spent => totals.(spent := totals.spent + g.sum, balance := totals.balance - g.sum)
    case Adjusted => totals.(adjusted := totals.adjusted + g.sum, balance := totals.balance - g.sum)
  }

  lemma SummedIsLedger(groups: seq<Group>, rows: seq<Row>, company: string, customer: string,
                       filter: Option<string>, currency: string)
    requires IsGroupBy(groups, rows, company, customer, filter)
    ensures HasCurrency(groups, currency) <==>
              Wanted(filter, currency) && exists r | r in rows :: r.key == Key(company, customer, currency)
    ensures HasCurrency(groups, currency) ==>
              var key := Key(company, customer, currency);
              Summed(groups, currency) == Totals(Balance(rows, key), Total(rows, key, Issued),
                                                 Total(rows, key, Spent), Total(rows, key, Adjusted))
  {
    var key := Key(company, customer, currency);
    if i :| 0 <= i < |groups| && groups[i].currency == currency {
      assert Occurs(rows, key, groups[i].direction);
      GroupsAreTotals(groups, rows, company, customer, filter, currency, Issued);
      GroupsAreTotals(groups, rows, company, customer, filter, currency, Spent);
      GroupsAreTotals(groups, rows, company, customer, filter, currency, Adjusted);
      BalanceIsTotals(rows, key);
    }
    if r :| r in rows && r.key == key && Wanted(filter, currency) {
      assert HasGroup(groups, r.key.currency, r.direction);
    }
  }

  ghost predicate Reports(report: map<string, Totals>, groups: seq<Group>) {
    && (forall currency :: currency in report <==> HasCurrency(groups, currency))
    && (forall currency | currency in report :: report[currency] == Summed(groups, currency))
  }

  lemma ReportStep(report: map<string, Totals>, groups: seq<Group>, i: nat)
    requires i < |groups| && Reports(report, groups[..i])
    ensures var g := groups[i];
            var prior := if g.currency in report then report[g.currency] else Totals(0, 0, 0, 0);
            Reports(report[g.currency := Added(prior, g)], groups[..i + 1])
  {
    var g := groups[i];
    var prior := if g.currency in report then report[g.currency] else Totals(0, 0, 0, 0);
    var report' := report[g.currency := Added(prior, g)];
    if g.currency !in report {
      NothingSummed(groups[..i], g.currency);
    }
    forall currency
      ensures currency in report' <==> HasCurrency(groups[..i + 1], currency)
      ensures currency in report' ==> report'[currency] == Summed(groups[..i + 1], currency)
    {
      HasCurrencyStep(groups, i, currency);
      SummedStep(groups, i, currency);
    }
  }

  /** The report loop: the reported balance of every active currency asked for is the
      balance the spend guard computes from the rows, and nothing else is reported. */
  method GetBalances(groups: seq<Group>, ghost rows: seq<Row>, ghost company: string, ghost customer: string,
                     ghost filter: Option<string>)
    returns (report: map<string, Totals>)
    requires IsGroupBy(groups, rows, company, customer, filter)
    ensures forall currency :: currency in report <==>
              Wanted(filter, currency) && exists r | r in rows :: r.key == Key(company, customer, currency)
    ensures forall currency | currency in report ::
              var key := Key(company, customer, currency);
              report[currency] == Totals(Balance(rows, key), Total(rows, key, Issued),
                                         Total(rows, key, Spent), Total(rows, key, Adjusted))
  {
    report := map[];
    for i := 0 to |groups|
      invariant Reports(report, groups[..i])
    {
      ReportStep(report, groups, i);
      var g := groups[i];
      var totals := Totals(0, 0, 0, 0);
      if g.currency in report {
        totals := report[g.currency];
      }
      if g.direction.Issued? {
        totals := totals.(issued := totals.issued + g.sum, balance := totals.balance + g.sum);
      } else if g.direction.Spent? {
        totals := totals.(spent := totals.spent + g.sum, balance := totals.balance - g.sum);
      } else {
        totals := totals.(adjusted := totals.adjusted + g.sum, balance := totals.balance - g.sum);
      }
      report := report[g.currency := totals];
    }
    assert groups[..|groups|] == groups;
    forall currency
      ensures currency in report <==>
                Wanted(filter, currency) && exists r | r in rows :: r.key == Key(company, customer, currency)
      ensures currency in report ==>
                var key := Key(company, customer, currency);
                report[currency] == Totals(Balance(rows, key), Total(rows, key, Issued),
                                           Total(rows, key, Spent), Total(rows, key, Adjusted))
    {
      SummedIsLedger(groups, rows, company, customer, filter, currency);
    }
  }

  // ---------------------------------------------------------------------------------
  // Sales and refunds
  // ---------------------------------------------------------------------------------

  datatype Method = StoreCredit | GiftCard | Cash | OtherMethod

  datatype Payment = Payment(method_: Method, amount: int)

  datatype Adjustment = ZeroAmount | NoCustomer | Insufficient | Done

  /** Filter to the credit methods, then add up. */
  function CreditAmount(payments: seq<Payment>): int {
    AmountSum(Eligible(payments))
  }

  predicate IsCredit(p: Payment) {
    p.method_.StoreCredit? || p.method_.GiftCard?
  }

  function Eligible(payments: seq<Payment>): seq<Payment> {
    if payments == [] then []
    else
      var last := payments[|payments| - 1];
      Eligible(payments[..|payments| - 1]) + if IsCredit(last) then [last] else []
  }

  function AmountSum(payments: seq<Payment>): int {
    if payments == [] then 0 else AmountSum(payments[..|payments| - 1]) + payments[|payments| - 1].amount
  }

  /** What a sale's payments by one method come to. */
  function PaidBy(payments: seq<Payment>, means: Method): int {
    if payments == [] then 0
    else
      var last := payments[|payments| - 1];
      PaidBy(payments[..|payments| - 1], means) + if last.method_ == means then last.amount else 0
  }

  lemma AmountSumMore(payments: seq<Payment>, p: Payment)
    ensures AmountSum(payments + [p]) == AmountSum(payments) + p.amount
  {
    assert (payments + [p])[..|payments|] == payments;
  }

  /** Store credit and gift cards are credit, and no other means of payment is. */
  lemma {:induction false} CreditIsTwoMethods(payments: seq<Payment>)
    ensures CreditAmount(payments) == PaidBy(payments, StoreCredit) + PaidBy(payments, GiftCard)
  {
    if payments != [] {
      var init, last := payments[..|payments| - 1], payments[|payments| - 1];
      CreditIsTwoMethods(init);
      AmountSumMore(Eligible(init), last);
      assert Eligible(init) + [] == Eligible(init);
    }
  }

  datatype Outcome = Nothing | MissingCustomer | InsufficientBalance | Written(row: Row)

  /** The spend of one sale against the rows its guard sees. */
  function Spend(rows: seq<Row>, company: string, customer: Option<string>, currency: string,
                 payments: seq<Payment>): Outcome
  {
    var amount := CreditAmount(payments);
    if amount == 0 then Nothing
    else if customer.None? then MissingCustomer
    else
      var key := Key(company, customer.value, currency);
      if Balance(rows, key) >= amount then Written(Row(key, Spent, amount)) else InsufficientBalance
  }

  /** The legacy full refund of the same payments.  A missing customer skips the row. */
  function LegacyRefund(company: string, customer: Option<string>, currency: string, payments: seq<Payment>): Outcome {
    var amount := CreditAmount(payments);
    if amount <= 0 then Nothing
    else if customer.None? then MissingCustomer
    else Written(Row(Key(company, customer.value, currency), Issued, amount))
  }

  function Applied(rows: seq<Row>, outcome: Outcome): seq<Row> {
    if outcome.Written? then rows + [outcome.row] else rows
  }

  lemma AppliedBalance(rows: seq<Row>, outcome: Outcome, key: Key)
    ensures Balance(Applied(rows, outcome), key)
         == Balance(rows, key)
            + if outcome.Written? && outcome.row.key == key then Signed(outcome.row.direction, outcome.row.amount) else 0
  {
    if outcome.Written? {
      assert Applied(rows, outcome)[..|rows|] == rows;
    }
  }

  /** A sale takes from the customer's balance in its currency what was paid by store credit and
      gift cards, and from no other balance anything; it is refused exactly when that is not
      there to take, or nobody to take it from. */
  lemma SpendTakes(rows: seq<Row>, company: string, customer: Option<string>, currency: string, payments: seq<Payment>)
    ensures var credit := PaidBy(payments, StoreCredit) + PaidBy(payments, GiftCard);
      var outcome := Spend(rows, company, customer, currency, payments);
      && (outcome.MissingCustomer? <==> credit != 0 && customer.None?)
      && (outcome.InsufficientBalance? <==>
            credit != 0 && customer.Some? && Balance(rows, Key(company, customer.value, currency)) < credit)
      && forall key :: Balance(Applied(rows, outcome), key) == Balance(rows, key) -
           if customer == Some(key.customer) && key.company == company && key.currency == currency
              && !outcome.InsufficientBalance? then credit else 0
  {
    CreditIsTwoMethods(payments);
    forall key {
      AppliedBalance(rows, Spend(rows, company, customer, currency, payments), key);
    }
  }

  /** The legacy refund gives back the same sum, where it is positive. */
  lemma LegacyRefundGives(rows: seq<Row>, company: string, customer: Option<string>, currency: string,
                          payments: seq<Payment>)
    ensures var credit := PaidBy(payments, StoreCredit) + PaidBy(payments, GiftCard);
      var outcome := LegacyRefund(company, customer, currency, payments);
      && (outcome.MissingCustomer? <==> credit > 0 && customer.None?)
      && forall key :: Balance(Applied(rows, outcome), key) == Balance(rows, key) +
           if customer == Some(key.customer) && key.company == company && key.currency == currency && credit > 0
           then credit else 0
  {
    CreditIsTwoMethods(payments);
    forall key {
      AppliedBalance(rows, LegacyRefund(company, customer, currency, payments), key);
    }
  }

  /** A sale that was not refused, refunded in full, gives every balance back exactly when
      the sale's credit payments do not sum below zero: the spend stops only at zero, the
      refund at anything not positive. */
  lemma RefundUndoesSpendIff(rows: seq<Row>, company: string, customer: Option<string>, currency: string,
                             payments: seq<Payment>)
    requires !Spend(rows, company, customer, currency, payments).MissingCustomer?
    requires !Spend(rows, company, customer, currency, payments).InsufficientBalance?
    ensures (forall key ::
               Balance(Applied(Applied(rows, Spend(rows, company, customer, currency, payments)),
                               LegacyRefund(company, customer, currency, payments)), key) == Balance(rows, key))
       <==> CreditAmount(payments) >= 0
  {
    var spent := Spend(rows, company, customer, currency, payments);
    var refund := LegacyRefund(company, customer, currency, payments);
    var after := Applied(Applied(rows, spent), refund);
    forall key
      ensures Balance(after, key) == Balance(rows, key)
                + (if spent.Written? && spent.row.key == key then -spent.row.amount else 0)
                + (if refund.Written? && refund.row.key == key then refund.row.amount else 0)
    {
      if spent.Written? {
        assert Applied(rows, spent)[..|rows|] == rows;
      }
      if refund.Written? {
        assert after[..|after| - 1] == Applied(rows, spent);
      }
    }
    if CreditAmount(payments) < 0 {
      assert Balance(after, spent.row.key) == Balance(rows, spent.row.key) - CreditAmount(payments);
    }
  }
}
