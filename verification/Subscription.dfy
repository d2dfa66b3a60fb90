/**
 One company's subscription row under concurrent users, cron jobs and webhooks.

 Every service command is a READ COMMITTED transaction: it reads the row, checks its guard,
 and writes with a compare-and-swap on rowVersion, which waits for any other writer's row
 lock.  Recurring invoicing also reads and inserts invoices in the same transaction.  Some
 writes skip the version: provider references and payment retry counters.
 */
module Subscription {
  import opened Wrappers

  const PERIOD_MS := 30 * 24 * 60 * 60 * 1000

  datatype Status = New | Trial | Active | PastDue | Suspended | Cancelled | Expired | Free

  /** VALID_TRANSITIONS */
  function Targets(from: Status): set<Status> {
    match from
    case New => {Trial, Free}
    case Trial => {Active, Free}
    case Active => {PastDue, Cancelled, Free}
    case PastDue => {Active, Suspended}
    case Suspended => {Active, Expired}
    case Cancelled => {Active, Expired}
    case Expired => {Active, Free}
    case Free => {Active}
  }

  /** The fields that only versioned writes change. */
  datatype Core = Core(status: Status, periodEnd: Option<int>, plan: string)

  datatype Sub = Sub(core: Core, version: nat, provider: string, retries: nat)

  datatype Command =
    | Transition(to: Status)
    | Cancel
    | Resume
    | Downgrade(freePlan: string)
    | ChangePlan(plan: string)
    | Renew
    | BillByHand

  /** The status check each command makes on the row it has read. */
  predicate Accepts(command: Command, status: Status) {
    match command
    case Transition(to) => to in Targets(status)
    case Cancel => !status.Cancelled? && !status.Expired?
    case Resume => status.Cancelled?
    case Downgrade(_) => status.Trial?
    case ChangePlan(_) => true
    case Renew => true
    case BillByHand => true
  }

  predicate ChangesStatus(command: Command) {
    !command.ChangePlan? && !command.Renew? && !command.BillByHand?
  }

  function Target(command: Command): Status
    requires ChangesStatus(command)
  {
    match command
    case Transition(to) => to
    case Cancel => Cancelled
    case Resume => Active
    case Downgrade(_) => Free
  }

  function Written(command: Command, core: Core, newEnd: int): Core {
    match command
    case Downgrade(freePlan) => core.(status := Free, plan := freePlan)
    case ChangePlan(plan) => core.(plan := plan)
    case Renew => core.(periodEnd := Some(newEnd))
    case BillByHand => core
    case _ => core.(status := Target(command))
  }

  datatype Audit = Audit(command: Command, from: Status, to: Status)

  datatype InvoiceStatus = Pending | Paid | Void

  datatype Invoice = Invoice(due: int, status: InvoiceStatus)

  type TxId = nat

  /** Where a transaction is.  Only Renew goes through Guarding, Inserting and Aiming; billing by
      hand reads, inserts without a guard and never writes the row. */
  datatype Phase =
    | Reading
    | Guarding(seen: Sub)
    | Inserting(seen: Sub)
    | Aiming(seen: Sub, due: int)
    | Swapping(seen: Sub, due: int, newEnd: int)
    | Holding(seen: Sub, due: int, newEnd: int, row: Sub)
    | Rereading
    | Billing(due: int)

  /** A webhook's transition expects some end states and is content to find one of them; other
      callers expect none.  since: how many statuses there had been when it began. */
  datatype Tx = Tx(command: Command, expected: set<Status>, since: nat, phase: Phase)

  /** A webhook transition reported as handled: statuses number since - 1 to until - 1 were
      current at some time while it ran. */
  datatype Handled = Handled(expected: set<Status>, since: nat, until: nat)

  /** One committed versioned write. */
  datatype Entry = Entry(command: Command, newEnd: int)

  /** The row, the open transactions, and everything committed so far: audit rows of status
      changes, recurring and manual invoices, the versioned writes in commit order, and the
      statuses and period ends the row went through. */
  datatype State = State(
    row: Sub,
    clock: int,
    open: map<TxId, Tx>,
    audits: seq<Audit>,
    recurring: seq<Invoice>,
    manual: seq<Invoice>,
    log: seq<Entry>,
    statuses: seq<Status>,
    periods: seq<Option<int>>,
    handled: seq<Handled>)

  datatype Event =
    | Begin(t: TxId, command: Command, expected: set<Status>)
    | Read(t: TxId)
    | Guard(t: TxId)
    | Insert(t: TxId)
    | Aim(t: TxId)
    | Swap(t: TxId)
    | Commit(t: TxId)
    | Reread(t: TxId)
    | Abort(t: TxId)
    | Touch(provider: string, retries: nat)
    | Settle(ofRecurring: bool, i: nat, status: InvoiceStatus)
    | Tick(ms: nat)

  /** What a deployment fixes: the row as created, and whether anyone also bills by hand. */
  datatype Setup = Setup(created: Core, manualBilling: bool)

  predicate IsSetup(c: Setup) {
    c.created.status.Trial?
  }

  function Initial(c: Setup): State {
    State(Sub(c.created, 0, "", 0), 0, map[], [], [], [], [], [c.created.status], [c.created.periodEnd], [])
  }

  predicate LiveIn(invoices: seq<Invoice>, due: int) {
    exists i | 0 <= i < |invoices| :: invoices[i].due == due && !invoices[i].status.Void?
  }

  predicate RowLocked(s: State, t: TxId) {
    exists u | u in s.open :: u != t && s.open[u].phase.Holding?
  }

  function Goto(s: State, t: TxId, tx: Tx, phase: Phase): State {
    s.(open := s.open[t := tx.(phase := phase)])
  }

  function Close(s: State, t: TxId): State {
    s.(open := s.open - {t})
  }

  /** Webhooks only ask for transitions whose target they expect. */
  predicate CanExpect(command: Command, expected: set<Status>) {
    expected == {} || (ChangesStatus(command) && Target(command) in expected)
  }

  function Starts(c: Setup, s: State, t: TxId, command: Command, expected: set<Status>): State {
    if t in s.open || !CanExpect(command, expected) || (command.BillByHand? && !c.manualBilling) then s
    else s.(open := s.open[t := Tx(command, expected, |s.statuses|, Reading)])
  }

  /** BadRequest or Conflict: a webhook looks again, other callers give up. */
  function Refuse(s: State, t: TxId, tx: Tx): State {
    if tx.expected != {} then Goto(s, t, tx, Rereading) else Close(s, t)
  }

  function Report(s: State, tx: Tx): State {
    if tx.expected == {} then s
    else s.(handled := s.handled + [Handled(tx.expected, tx.since, |s.statuses|)])
  }

  /** transitionSubscriptionConverged after a failure: handled if an expected state is there
      anyway, and failed, to be sent again, if not. */
  function Rereads(s: State, t: TxId, tx: Tx): State {
    if !tx.phase.Rereading? then s
    else if s.row.core.status in tx.expected then Close(Report(s, tx), t)
    else Close(s, t)
  }

  /** findByCompany and the guard; a refused command ends here. */
  function Reads(s: State, t: TxId, tx: Tx): State {
    if !tx.phase.Reading? then s
    else if !Accepts(tx.command, s.row.core.status) then Refuse(s, t, tx)
    else if tx.command.Renew? then Goto(s, t, tx, Guarding(s.row))
    else if tx.command.BillByHand? then Goto(s, t, tx, Inserting(s.row))
    else Goto(s, t, tx, Swapping(s.row, 0, 0))
  }

  /** A period that already has a live invoice is skipped; without a period end nothing is
      looked up. */
  function Guards(s: State, t: TxId, tx: Tx): State {
    if !tx.phase.Guarding? then s
    else
      var end := tx.phase.seen.core.periodEnd;
      if end.Some? && (LiveIn(s.recurring, end.value) || LiveIn(s.manual, end.value)) then Close(s, t)
      else Goto(s, t, tx, Inserting(tx.phase.seen))
  }

  /** The due date both kinds of invoicing give: the period end, or 30 days from now. */
  function DueDate(end: Option<int>, now: int): int {
    if end.Some? then end.value else now + PERIOD_MS
  }

  function Inserts(s: State, t: TxId, tx: Tx): State {
    if !tx.phase.Inserting? then s
    else
      var due := DueDate(tx.phase.seen.core.periodEnd, s.clock);
      Goto(s, t, tx, if tx.command.Renew? then Aiming(tx.phase.seen, due) else Billing(due))
  }

  function Aims(s: State, t: TxId, tx: Tx): State {
    if !tx.phase.Aiming? then s
    else Goto(s, t, tx, Swapping(tx.phase.seen, tx.phase.due, s.clock + PERIOD_MS))
  }

  /** UPDATE ... WHERE rowVersion = seen: waits for the row lock, then writes or conflicts. */
  function Swaps(s: State, t: TxId, tx: Tx): State {
    if !tx.phase.Swapping? || RowLocked(s, t) then s
    else if tx.phase.seen.version != s.row.version then Refuse(s, t, tx)
    else
      var row := s.row.(core := Written(tx.command, s.row.core, tx.phase.newEnd), version := s.row.version + 1);
      Goto(s, t, tx, Holding(tx.phase.seen, tx.phase.due, tx.phase.newEnd, row))
  }

  /** The audit row carries the status the command read, not the one it replaced. */
  function Commits(s: State, t: TxId, tx: Tx): State {
    if tx.phase.Billing? then Close(s, t).(manual := s.manual + [Invoice(tx.phase.due, Pending)])
    else if !tx.phase.Holding? then s
    else
      var row := tx.phase.row;
      var s' := Close(s, t).(row := row, log := s.log + [Entry(tx.command, tx.phase.newEnd)]);
      if tx.command.Renew? then
        s'.(recurring := s.recurring + [Invoice(tx.phase.due, Pending)], periods := s.periods + [row.core.periodEnd])
      else if ChangesStatus(tx.command) then
        Report(s'.(audits := s.audits + [Audit(tx.command, tx.phase.seen.core.status, Target(tx.command))],
                   statuses := s.statuses + [row.core.status]), tx)
      else s'
  }

  /** Payment or voiding of a pending invoice, as its commit shows it to others. */
  function Settled(invoices: seq<Invoice>, i: nat, status: InvoiceStatus): seq<Invoice> {
    if i < |invoices| && invoices[i].status.Pending? then invoices[i := invoices[i].(status := status)] else invoices
  }

  /** One atomic step; an event that is not enabled changes nothing. */
  function Next(c: Setup, s: State, e: Event): State {
    match e
    case Begin(t, command, expected) => Starts(c, s, t, command, expected)
    case Read(t) => if t in s.open then Reads(s, t, s.open[t]) else s
    case Guard(t) => if t in s.open then Guards(s, t, s.open[t]) else s
    case Insert(t) => if t in s.open then Inserts(s, t, s.open[t]) else s
    case Aim(t) => if t in s.open then Aims(s, t, s.open[t]) else s
    case Swap(t) => if t in s.open then Swaps(s, t, s.open[t]) else s
    case Commit(t) => if t in s.open then Commits(s, t, s.open[t]) else s
    case Reread(t) => if t in s.open then Rereads(s, t, s.open[t]) else s
    case Abort(t) => Close(s, t)
    case Touch(provider, retries) =>
      if exists u | u in s.open :: s.open[u].phase.Holding? then s
      else s.(row := s.row.(provider := provider, retries := retries))
    case Settle(ofRecurring, i, status) =>
      if ofRecurring then s.(recurring := Settled(s.recurring, i, status))
      else s.(manual := Settled(s.manual, i, status))
    case Tick(ms) => s.(clock := s.clock + ms)
  }

  function Run(c: Setup, events: seq<Event>): State {
    if events == [] then Initial(c) else Next(c, Run(c, events[..|events| - 1]), events[|events| - 1])
  }

  // ---------------------------------------------------------------------------------
  // The serial subscription it has to look like
  // ---------------------------------------------------------------------------------

  /** One command after another, each checked against the status at that very moment. */
  function Replay(created: Core, log: seq<Entry>): Option<Core> {
    if log == [] then Some(created)
    else
      var last := log[|log| - 1];
      match Replay(created, log[..|log| - 1])
      case None => None
      case Some(core) =>
        if Accepts(last.command, core.status) then Some(Written(last.command, core, last.newEnd)) else None
  }

  // ---------------------------------------------------------------------------------
  // The invariant of every reachable state
  // ---------------------------------------------------------------------------------

  predicate AuditsFollow(audits: seq<Audit>, statuses: seq<Status>) {
    && |statuses| == |audits| + 1
    && forall i | 0 <= i < |audits| ::
         && audits[i].from == statuses[i] && audits[i].to == statuses[i + 1]
         && ChangesStatus(audits[i].command) && Target(audits[i].command) == audits[i].to
         && Accepts(audits[i].command, statuses[i])
  }

  /** The k-th recurring invoice is for the k-th period; only a subscription created without
      a period end has a first invoice with a due date of its own. */
  predicate InvoicesFollow(recurring: seq<Invoice>, periods: seq<Option<int>>) {
    && |periods| == |recurring| + 1
    && forall k | 0 <= k < |recurring| :: periods[k] == Some(recurring[k].due) || (k == 0 && periods[0].None?)
  }

  predicate SomeAfterFirst(periods: seq<Option<int>>) {
    forall k | 0 < k < |periods| :: periods[k].Some?
  }

  predicate OneLive(invoices: seq<Invoice>) {
    forall i, j | 0 <= i < j < |invoices| && !invoices[i].status.Void? && !invoices[j].status.Void? ::
      invoices[i].due != invoices[j].due
  }

  predicate LogOk(c: Setup, s: State) {
    s.row.version == |s.log| && Replay(c.created, s.log) == Some(s.row.core)
  }

  predicate AuditsOk(s: State) {
    && AuditsFollow(s.audits, s.statuses)
    && s.statuses[0].Trial? && s.statuses[|s.statuses| - 1] == s.row.core.status
  }

  predicate BillsOk(c: Setup, s: State) {
    && InvoicesFollow(s.recurring, s.periods) && SomeAfterFirst(s.periods)
    && s.periods[0] == c.created.periodEnd && s.periods[|s.periods| - 1] == s.row.core.periodEnd
    && OneLive(s.recurring)
  }

  predicate NoneByHand(s: State) {
    forall t | t in s.open :: !s.open[t].command.BillByHand?
  }

  predicate ByHandOk(c: Setup, s: State) {
    c.manualBilling || (s.manual == [] && NoneByHand(s))
  }

  predicate History(c: Setup, s: State) {
    LogOk(c, s) && AuditsOk(s) && BillsOk(c, s)
  }

  predicate Passed(phase: Phase) {
    phase.Inserting? || Billed(phase)
  }

  predicate Among(expected: set<Status>, statuses: seq<Status>, since: nat, until: nat) {
    && 0 < since <= until <= |statuses|
    && exists i | since - 1 <= i < until :: statuses[i] in expected
  }

  predicate HandledOk(s: State) {
    forall i | 0 <= i < |s.handled| ::
      Among(s.handled[i].expected, s.statuses, s.handled[i].since, s.handled[i].until)
  }

  /** Which commands get to which phases. */
  predicate PhaseFits(tx: Tx) {
    && (tx.phase.Guarding? || tx.phase.Aiming? ==> tx.command.Renew?)
    && (tx.phase.Inserting? ==> tx.command.Renew? || tx.command.BillByHand?)
    && (tx.phase.Billing? ==> tx.command.BillByHand?)
    && (tx.phase.Swapping? || tx.phase.Holding? ==> !tx.command.BillByHand?)
  }

  predicate ExpectsOk(s: State, tx: Tx) {
    0 < tx.since <= |s.statuses| && CanExpect(tx.command, tx.expected)
  }

  predicate Billed(phase: Phase) {
    phase.Aiming? || phase.Swapping? || phase.Holding?
  }

  /** Same version, same status: what a transaction has read is current or its
      compare-and-swap will fail; and while it is current, nobody else can have billed the
      period it found free. */
  predicate TxOk(s: State, tx: Tx) {
    ExpectsOk(s, tx) && PhaseFits(tx) &&
    (tx.phase.Reading? || tx.phase.Rereading? || tx.phase.Billing? ||
    (var seen := tx.phase.seen;
     && Accepts(tx.command, seen.core.status)
     && seen.version <= s.row.version
     && (seen.version == s.row.version ==> seen.core == s.row.core)
     && (tx.command.Renew? && Billed(tx.phase) && seen.core.periodEnd.Some? ==>
           tx.phase.due == seen.core.periodEnd.value)
     && (tx.command.Renew? && Passed(tx.phase) && seen.version == s.row.version && seen.core.periodEnd.Some? ==>
           !LiveIn(s.recurring, seen.core.periodEnd.value))
     && (tx.phase.Holding? ==>
           && seen.version == s.row.version
           && tx.phase.row == s.row.(core := Written(tx.command, s.row.core, tx.phase.newEnd),
                                     version := s.row.version + 1))))
  }

  predicate OneHolder(s: State) {
    forall t, u | t in s.open && u in s.open && s.open[t].phase.Holding? && s.open[u].phase.Holding? :: t == u
  }

  predicate TxsOk(s: State) {
    forall t | t in s.open :: TxOk(s, s.open[t])
  }

  predicate Inv(c: Setup, s: State) {
    History(c, s) && HandledOk(s) && ByHandOk(c, s) && TxsOk(s) && OneHolder(s)
  }

  /** A step of one transaction that leaves everything committed alone. */
  lemma LocalStep(c: Setup, s: State, t: TxId, tx: Tx)
    requires Inv(c, s) && TxOk(s, tx)
    requires c.manualBilling || !tx.command.BillByHand?
    requires tx.phase.Holding? ==> !RowLocked(s, t)
    ensures Inv(c, s.(open := s.open[t := tx]))
  {
    var s' := s.(open := s.open[t := tx]);
    forall u | u in s'.open
      ensures TxOk(s', s'.open[u])
    {
      assert u != t ==> TxOk(s, s.open[u]);
    }
    forall u, v | u in s'.open && v in s'.open && s'.open[u].phase.Holding? && s'.open[v].phase.Holding?
      ensures u == v
    {
      assert u != t ==> s.open[u].phase.Holding?;
      assert v != t ==> s.open[v].phase.Holding?;
    }
  }

  lemma CloseKeeps(c: Setup, s: State, t: TxId)
    requires Inv(c, s)
    ensures Inv(c, Close(s, t))
  {
    forall u | u in Close(s, t).open
      ensures TxOk(Close(s, t), s.open[u])
    {
      assert TxOk(s, s.open[u]);
    }
  }

  lemma RefuseKeeps(c: Setup, s: State, t: TxId)
    requires Inv(c, s) && t in s.open
    ensures Inv(c, Refuse(s, t, s.open[t]))
  {
    assert TxOk(s, s.open[t]);
    CloseKeeps(c, s, t);
    LocalStep(c, s, t, s.open[t].(phase := Rereading));
  }

  lemma AmongMore(expected: set<Status>, statuses: seq<Status>, status: Status, since: nat, until: nat)
    requires Among(expected, statuses, since, until)
    ensures Among(expected, statuses + [status], since, until)
  {
    var i :| since - 1 <= i < until && statuses[i] in expected;
    assert (statuses + [status])[i] in expected;
  }

  lemma ReportKeeps(s: State, tx: Tx)
    requires HandledOk(s) && ExpectsOk(s, tx)
    requires tx.expected != {} ==> s.statuses[|s.statuses| - 1] in tx.expected
    ensures HandledOk(Report(s, tx))
  {
  }

  lemma RereadKeeps(c: Setup, s: State, t: TxId)
    requires Inv(c, s) && t in s.open
    ensures Inv(c, Rereads(s, t, s.open[t]))
  {
    var tx := s.open[t];
    assert TxOk(s, tx);
    CloseKeeps(c, s, t);
    if tx.phase.Rereading? && s.row.core.status in tx.expected {
      ReportKeeps(s, tx);
      var s' := Close(Report(s, tx), t);
      forall u | u in s'.open
        ensures TxOk(s', s'.open[u])
      {
        assert TxOk(s, s.open[u]);
      }
    }
  }

  lemma SwapKeeps(c: Setup, s: State, t: TxId)
    requires Inv(c, s) && t in s.open
    ensures Inv(c, Swaps(s, t, s.open[t]))
  {
    var tx := s.open[t];
    assert TxOk(s, tx);
    if tx.phase.Swapping? && !RowLocked(s, t) {
      if tx.phase.seen.version != s.row.version {
        RefuseKeeps(c, s, t);
      } else {
        var row := s.row.(core := Written(tx.command, s.row.core, tx.phase.newEnd), version := s.row.version + 1);
        LocalStep(c, s, t, tx.(phase := Holding(tx.phase.seen, tx.phase.due, tx.phase.newEnd, row)));
      }
    }
  }

  lemma RenewalFollows(recurring: seq<Invoice>, periods: seq<Option<int>>, due: int, end: int)
    requires InvoicesFollow(recurring, periods) && SomeAfterFirst(periods) && OneLive(recurring)
    requires periods[|periods| - 1].Some? ==> due == periods[|periods| - 1].value && !LiveIn(recurring, due)
    ensures InvoicesFollow(recurring + [Invoice(due, Pending)], periods + [Some(end)])
    ensures SomeAfterFirst(periods + [Some(end)])
    ensures OneLive(recurring + [Invoice(due, Pending)])
  {
    var more := recurring + [Invoice(due, Pending)];
    forall k | 0 <= k < |more|
      ensures (periods + [Some(end)])[k] == Some(more[k].due) || (k == 0 && periods[0].None?)
    {
      if k == |recurring| && k > 0 {
        assert periods[k].Some?;
      }
    }
    forall i, j | 0 <= i < j < |more| && !more[i].status.Void? && !more[j].status.Void?
      ensures more[i].due != more[j].due
    {
      if j == |recurring| {
        assert periods[|periods| - 1].Some?;
        assert !LiveIn(recurring, due);
      }
    }
  }

  lemma CommitKeepsLog(c: Setup, s: State, t: TxId)
    requires LogOk(c, s) && t in s.open && s.open[t].phase.Holding? && TxOk(s, s.open[t])
    ensures LogOk(c, Commits(s, t, s.open[t]))
  {
    var log := Commits(s, t, s.open[t]).log;
    assert log[..|log| - 1] == s.log;
  }

  lemma CommitKeepsAudits(s: State, t: TxId)
    requires AuditsOk(s) && t in s.open && s.open[t].phase.Holding? && TxOk(s, s.open[t])
    ensures AuditsOk(Commits(s, t, s.open[t]))
  {
  }

  lemma CommitKeepsBills(c: Setup, s: State, t: TxId)
    requires BillsOk(c, s) && t in s.open && s.open[t].phase.Holding? && TxOk(s, s.open[t])
    ensures BillsOk(c, Commits(s, t, s.open[t]))
  {
    var tx := s.open[t];
    if tx.command.Renew? {
      RenewalFollows(s.recurring, s.periods, tx.phase.due, tx.phase.newEnd);
    }
  }

  lemma CommitKeepsHandled(s: State, t: TxId)
    requires HandledOk(s) && t in s.open && s.open[t].phase.Holding? && TxOk(s, s.open[t])
    ensures HandledOk(Commits(s, t, s.open[t]))
  {
    var tx := s.open[t];
    if ChangesStatus(tx.command) {
      var s1 := s.(statuses := s.statuses + [tx.phase.row.core.status]);
      forall i | 0 <= i < |s.handled|
        ensures Among(s1.handled[i].expected, s1.statuses, s1.handled[i].since, s1.handled[i].until)
      {
        AmongMore(s.handled[i].expected, s.statuses, tx.phase.row.core.status, s.handled[i].since, s.handled[i].until);
      }
      ReportKeeps(s1, tx);
    }
  }

  /** The others read an older version now, so none of what they rely on is needed. */
  lemma CommitKeepsTxs(c: Setup, s: State, t: TxId)
    requires Inv(c, s) && t in s.open && s.open[t].phase.Holding?
    ensures TxsOk(Commits(s, t, s.open[t]))
  {
    var s' := Commits(s, t, s.open[t]);
    assert TxOk(s, s.open[t]);
    forall u | u in s'.open
      ensures TxOk(s', s'.open[u])
    {
      assert TxOk(s, s.open[u]);
      assert !s.open[u].phase.Holding?;
    }
  }

  lemma SettledFollows(invoices: seq<Invoice>, periods: seq<Option<int>>, i: nat, status: InvoiceStatus)
    ensures InvoicesFollow(invoices, periods) ==> InvoicesFollow(Settled(invoices, i, status), periods)
    ensures OneLive(invoices) ==> OneLive(Settled(invoices, i, status))
    ensures forall due :: LiveIn(Settled(invoices, i, status), due) ==> LiveIn(invoices, due)
  {
    var after := Settled(invoices, i, status);
    forall due | LiveIn(after, due)
      ensures LiveIn(invoices, due)
    {
      var k :| 0 <= k < |after| && after[k].due == due && !after[k].status.Void?;
      assert invoices[k].due == due && !invoices[k].status.Void?;
    }
  }

  lemma SettleKeeps(c: Setup, s: State, i: nat, status: InvoiceStatus)
    requires Inv(c, s)
    ensures Inv(c, s.(recurring := Settled(s.recurring, i, status)))
    ensures Inv(c, s.(manual := Settled(s.manual, i, status)))
  {
    SettledFollows(s.recurring, s.periods, i, status);
    var s' := s.(recurring := Settled(s.recurring, i, status));
    var s'' := s.(manual := Settled(s.manual, i, status));
    forall t | t in s.open
      ensures TxOk(s', s.open[t]) && TxOk(s'', s.open[t])
    {
      assert TxOk(s, s.open[t]);
    }
  }

  lemma TouchKeeps(c: Setup, s: State, provider: string, retries: nat)
    requires Inv(c, s) && forall u | u in s.open :: !s.open[u].phase.Holding?
    ensures Inv(c, s.(row := s.row.(provider := provider, retries := retries)))
  {
    var s' := s.(row := s.row.(provider := provider, retries := retries));
    forall t | t in s'.open
      ensures TxOk(s', s'.open[t])
    {
      assert TxOk(s, s.open[t]);
    }
  }

  lemma ReadKeeps(c: Setup, s: State, t: TxId)
    requires Inv(c, s) && t in s.open
    ensures Inv(c, Reads(s, t, s.open[t]))
  {
    var tx := s.open[t];
    RefuseKeeps(c, s, t);
    if tx.phase.Reading? && Accepts(tx.command, s.row.core.status) {
      LocalStep(c, s, t, Reads(s, t, tx).open[t]);
    }
  }

  lemma GuardKeeps(c: Setup, s: State, t: TxId)
    requires Inv(c, s) && t in s.open
    ensures Inv(c, Guards(s, t, s.open[t]))
  {
    var tx := s.open[t];
    assert TxOk(s, tx);
    CloseKeeps(c, s, t);
    if tx.phase.Guarding? {
      var end := tx.phase.seen.core.periodEnd;
      if !(end.Some? && (LiveIn(s.recurring, end.value) || LiveIn(s.manual, end.value))) {
        LocalStep(c, s, t, tx.(phase := Inserting(tx.phase.seen)));
      }
    }
  }

  lemma InsertKeeps(c: Setup, s: State, t: TxId)
    requires Inv(c, s) && t in s.open
    ensures Inv(c, Inserts(s, t, s.open[t]))
  {
    var tx := s.open[t];
    assert TxOk(s, tx);
    if tx.phase.Inserting? {
      LocalStep(c, s, t, Inserts(s, t, tx).open[t]);
    }
  }

  lemma AimKeeps(c: Setup, s: State, t: TxId)
    requires Inv(c, s) && t in s.open
    ensures Inv(c, Aims(s, t, s.open[t]))
  {
    var tx := s.open[t];
    assert TxOk(s, tx);
    if tx.phase.Aiming? {
      LocalStep(c, s, t, Aims(s, t, tx).open[t]);
    }
  }

  lemma BillKeeps(c: Setup, s: State, t: TxId)
    requires Inv(c, s) && t in s.open && s.open[t].phase.Billing?
    ensures Inv(c, Commits(s, t, s.open[t]))
  {
    CloseKeeps(c, s, t);
    var s' := Commits(s, t, s.open[t]);
    forall u | u in s'.open
      ensures TxOk(s', s'.open[u])
    {
      assert TxOk(Close(s, t), s.open[u]);
    }
  }

  lemma TickKeeps(c: Setup, s: State, ms: nat)
    requires Inv(c, s)
    ensures Inv(c, s.(clock := s.clock + ms))
  {
    var s' := s.(clock := s.clock + ms);
    forall t | t in s.open
      ensures TxOk(s', s.open[t])
    {
      assert TxOk(s, s.open[t]);
    }
  }

  lemma TxStepKeeps(c: Setup, s: State, e: Event, t: TxId)
    requires Inv(c, s) && t in s.open
    requires e == Read(t) || e == Guard(t) || e == Insert(t) || e == Aim(t) || e == Swap(t) || e == Commit(t)
             || e == Reread(t)
    ensures Inv(c, Next(c, s, e))
  {
    assert TxOk(s, s.open[t]);
    if e.Swap? {
      SwapKeeps(c, s, t);
    } else if e.Read? {
      ReadKeeps(c, s, t);
    } else if e.Reread? {
      RereadKeeps(c, s, t);
    } else if e.Guard? {
      GuardKeeps(c, s, t);
    } else if e.Insert? {
      InsertKeeps(c, s, t);
    } else if e.Aim? {
      AimKeeps(c, s, t);
    } else if s.open[t].phase.Billing? {
      BillKeeps(c, s, t);
    } else if s.open[t].phase.Holding? {
      CommitKeepsLog(c, s, t);
      CommitKeepsAudits(s, t);
      CommitKeepsBills(c, s, t);
      CommitKeepsHandled(s, t);
      CommitKeepsTxs(c, s, t);
    }
  }

  lemma StepKeepsInv(c: Setup, s: State, e: Event)
    requires Inv(c, s)
    ensures Inv(c, Next(c, s, e))
  {
    match e {
      case Begin(t, command, expected) =>
        if t !in s.open && CanExpect(command, expected) && (command.BillByHand? ==> c.manualBilling) {
          LocalStep(c, s, t, Tx(command, expected, |s.statuses|, Reading));
        }
      case Abort(t) => CloseKeeps(c, s, t);
      case Touch(provider, retries) =>
        if forall u | u in s.open :: !s.open[u].phase.Holding? {
          TouchKeeps(c, s, provider, retries);
        }
      case Settle(_, i, status) => SettleKeeps(c, s, i, status);
      case Tick(ms) => TickKeeps(c, s, ms);
      case _ =>
        if e.t in s.open {
          TxStepKeeps(c, s, e, e.t);
        }
    }
  }

  lemma {:induction false} Reachable(c: Setup, events: seq<Event>)
    requires IsSetup(c)
    ensures Inv(c, Run(c, events))
  {
    if events != [] {
      Reachable(c, events[..|events| - 1]);
      StepKeepsInv(c, Run(c, events[..|events| - 1]), events[|events| - 1]);
    }
  }

  // ---------------------------------------------------------------------------------
  // Main results
  // ---------------------------------------------------------------------------------

  /** The committed commands, run one at a time in commit order, are all accepted and end at
      the committed row: no update is lost and no guard was passed on stale data. */
  lemma RefinesSerialSubscription(c: Setup, events: seq<Event>)
    requires IsSetup(c)
    ensures var s := Run(c, events); Replay(c.created, s.log) == Some(s.row.core) && s.row.version == |s.log|
  {
    Reachable(c, events);
  }

  /** What a command may do to the row it replaces: each changes its own fields and no other. */
  predicate Effect(command: Command, newEnd: int, before: Core, after: Core) {
    && after.periodEnd == (if command.Renew? then Some(newEnd) else before.periodEnd)
    && after.plan == (match command
                      case Downgrade(freePlan) => freePlan
                      case ChangePlan(plan) => plan
                      case _ => before.plan)
    && match command
       case Transition(to) => after.status == to && to in Targets(before.status)
       case Cancel => after.status.Cancelled? && !before.status.Cancelled? && !before.status.Expired?
       case Resume => after.status.Active? && before.status.Cancelled?
       case Downgrade(_) => after.status.Free? && before.status.Trial?
       case _ => after.status == before.status
  }

  /** In every run a commit does that to the committed row, counts one version, and audits the
      status it replaces and the one it leaves. */
  lemma CommitEffect(c: Setup, events: seq<Event>, t: TxId)
    requires IsSetup(c) && t in Run(c, events).open && Run(c, events).open[t].phase.Holding?
    ensures var s, s' := Run(c, events), Run(c, events + [Commit(t)]);
      var command := s.open[t].command;
      && Effect(command, s.open[t].phase.newEnd, s.row.core, s'.row.core)
      && s'.row == s.row.(core := s'.row.core, version := s.row.version + 1)
      && s'.audits == s.audits +
           if command.ChangePlan? || command.Renew? then []
           else [Audit(command, s.row.core.status, s'.row.core.status)]
  {
    Reachable(c, events);
    var s := Run(c, events);
    assert TxOk(s, s.open[t]);
    assert (events + [Commit(t)])[..|events|] == events;
  }

  /** The audit rows are the committed status history: they start at TRIAL, each begins with
      the status committed just before it, and the last ends at the current status. */
  lemma AuditsAreTheHistory(c: Setup, events: seq<Event>)
    requires IsSetup(c)
    ensures var s := Run(c, events);
      && AuditsFollow(s.audits, s.statuses)
      && s.statuses[0].Trial? && s.statuses[|s.statuses| - 1] == s.row.core.status
  {
    Reachable(c, events);
  }

  /** Every committed change is an edge of the transition table, or a cancellation of a
      subscription that is neither cancelled nor expired. */
  lemma EdgesAllowed(c: Setup, events: seq<Event>, i: nat)
    requires IsSetup(c) && i + 1 < |Run(c, events).statuses|
    ensures var from, to := Run(c, events).statuses[i], Run(c, events).statuses[i + 1];
      to in Targets(from) || (to.Cancelled? && !from.Cancelled? && !from.Expired?)
  {
    Reachable(c, events);
    var s := Run(c, events);
    assert Accepts(s.audits[i].command, s.statuses[i]) && Target(s.audits[i].command) == s.statuses[i + 1];
  }

  /** Of the service's own commands only cancellation leaves the table, and it does so from
      every status it accepts but ACTIVE. */
  lemma CommandInTableIff(command: Command, status: Status)
    requires ChangesStatus(command) && Accepts(command, status)
    ensures Target(command) in Targets(status) <==> (command.Cancel? ==> status.Active?)
  {
  }

  lemma Do(c: Setup, before: seq<Event>, e: Event) returns (after: seq<Event>)
    ensures after == before + [e] && Run(c, after) == Next(c, Run(c, before), e)
  {
    after := before + [e];
    assert after[..|before|] == before;
  }

  /** Of the committed changes exactly those are outside the table that cancel a subscription
      which is not active. */
  lemma EdgeInTableIff(c: Setup, events: seq<Event>, i: nat)
    requires IsSetup(c) && i < |Run(c, events).audits|
    ensures i + 1 < |Run(c, events).statuses|
    ensures var s := Run(c, events);
      s.statuses[i + 1] in Targets(s.statuses[i]) <==> (s.audits[i].command.Cancel? ==> s.statuses[i].Active?)
  {
    Reachable(c, events);
    var s := Run(c, events);
    assert Accepts(s.audits[i].command, s.statuses[i]) && Target(s.audits[i].command) == s.statuses[i + 1];
    CommandInTableIff(s.audits[i].command, s.statuses[i]);
  }

  /** There are such: a trial can be cancelled. */
  lemma TrialCancelled(c: Setup) returns (events: seq<Event>)
    requires IsSetup(c)
    ensures Run(c, events).statuses == [Trial, Cancelled] && Cancelled !in Targets(Trial)
  {
    events := Do(c, [], Begin(0, Cancel, {}));
    events := Do(c, events, Read(0));
    assert Run(c, events).open[0].phase.Swapping?;
    events := Do(c, events, Swap(0));
    assert Run(c, events).open[0].phase.Holding?;
    events := Do(c, events, Commit(0));
  }

  /** No company is ever suspended without having been active and past due just before. */
  lemma SuspendedOnlyAfterPastDue(c: Setup, events: seq<Event>, i: nat)
    requires IsSetup(c) && i < |Run(c, events).statuses| && Run(c, events).statuses[i].Suspended?
    ensures i >= 2 && Run(c, events).statuses[i - 1].PastDue? && Run(c, events).statuses[i - 2].Active?
  {
    Reachable(c, events);
    EdgesAllowed(c, events, i - 1);
    EdgesAllowed(c, events, i - 2);
  }

  /** A webhook's transition is reported as handled only if, at some time between its start and
      its report, the subscription was in one of the states it expects. */
  lemma HandledMeansExpected(c: Setup, events: seq<Event>, i: nat)
    requires IsSetup(c) && i < |Run(c, events).handled|
    ensures var s := Run(c, events); Among(s.handled[i].expected, s.statuses, s.handled[i].since, s.handled[i].until)
  {
    Reachable(c, events);
  }

  /** Committed period advances and committed recurring invoices are one to one: invoice k
      is for the period end that advance k replaced. */
  lemma OneInvoicePerAdvance(c: Setup, events: seq<Event>)
    requires IsSetup(c)
    ensures var s := Run(c, events);
      && InvoicesFollow(s.recurring, s.periods)
      && s.periods[0] == c.created.periodEnd && s.periods[|s.periods| - 1] == s.row.core.periodEnd
  {
    Reachable(c, events);
  }

  /** At most one recurring invoice that is not void per due date. */
  lemma OneLivePerPeriod(c: Setup, events: seq<Event>)
    requires IsSetup(c)
    ensures OneLive(Run(c, events).recurring)
  {
    Reachable(c, events);
  }

  function AllInvoices(s: State): seq<Invoice> {
    s.recurring + s.manual
  }

  function Steps(c: Setup, s: State, events: seq<Event>): State
    decreases |events|
  {
    if events == [] then s else Steps(c, Next(c, s, events[0]), events[1..])
  }

  lemma TwoSteps(c: Setup, s: State, events: seq<Event>)
    requires |events| >= 2
    ensures Steps(c, s, events) == Steps(c, Next(c, Next(c, s, events[0]), events[1]), events[2..])
  {
    assert events[1..][1..] == events[2..];
  }

  /** Two invoices made by hand in a row get the same due date. */
  lemma TwoByHand(c: Setup) returns (events: seq<Event>)
    requires IsSetup(c) && c.manualBilling
    ensures !OneLive(AllInvoices(Run(c, events)))
  {
    var due := DueDate(c.created.periodEnd, 0);
    events := OneByHand(c, [], due);
    events := OneByHand(c, events, due);
    var all := AllInvoices(Run(c, events));
    assert all == [Invoice(due, Pending), Invoice(due, Pending)];
    assert all[0].due == all[1].due;
  }

  lemma OneByHand(c: Setup, before: seq<Event>, due: int) returns (events: seq<Event>)
    requires c.manualBilling && 0 !in Run(c, before).open
    requires DueDate(Run(c, before).row.core.periodEnd, Run(c, before).clock) == due
    ensures var s := Run(c, before);
      Run(c, events) == s.(manual := s.manual + [Invoice(due, Pending)])
  {
    var s := Run(c, before);
    events := Do(c, before, Begin(0, BillByHand, {}));
    events := Do(c, events, Read(0));
    events := Do(c, events, Insert(0));
    assert Run(c, events).open == s.open[0 := Tx(BillByHand, {}, |s.statuses|, Billing(due))];
    events := Do(c, events, Commit(0));
    assert Run(c, events).open == s.open;
  }

  /** Over whole runs, counting the invoices made by hand, that holds exactly where there are
      none: making one by hand checks nothing. */
  lemma OneLiveIffNoManualBilling(c: Setup)
    requires IsSetup(c)
    ensures (forall events :: OneLive(AllInvoices(Run(c, events)))) <==> !c.manualBilling
  {
    if c.manualBilling {
      var events := TwoByHand(c);
      assert !OneLive(AllInvoices(Run(c, events)));
    } else {
      forall events
        ensures OneLive(AllInvoices(Run(c, events)))
      {
        Reachable(c, events);
        assert Run(c, events).recurring + [] == Run(c, events).recurring;
      }
    }
  }

  // ---------------------------------------------------------------------------------
  // When one invoice made by hand does no harm
  // ---------------------------------------------------------------------------------

  /** A renewal for this due date has passed its guard and can still commit. */
  predicate RenewalPast(s: State, due: int) {
    exists u | u in s.open :: PastFor(s, s.open[u], due)
  }

  predicate PastFor(s: State, tx: Tx, due: int) {
    tx.command.Renew? && Passed(tx.phase)
    && tx.phase.seen.version == s.row.version && tx.phase.seen.core.periodEnd == Some(due)
  }

  predicate AnyLive(s: State, due: int) {
    LiveIn(s.recurring, due) || LiveIn(s.manual, due)
  }

  /** One live invoice per due date, and no renewal about to add a second. */
  ghost predicate Tidy(s: State) {
    OneLive(AllInvoices(s)) && forall due :: RenewalPast(s, due) ==> !AnyLive(s, due)
  }

  predicate NobodyBills(events: seq<Event>) {
    forall i | 0 <= i < |events| && events[i].Begin? :: !events[i].command.BillByHand?
  }

  lemma OneLiveWith(recurring: seq<Invoice>, manual: seq<Invoice>, due: int)
    requires OneLive(recurring + manual)
    ensures !LiveIn(recurring, due) && !LiveIn(manual, due) <==>
              OneLive(recurring + [Invoice(due, Pending)] + manual)
    ensures !LiveIn(recurring, due) && !LiveIn(manual, due) <==>
              OneLive(recurring + (manual + [Invoice(due, Pending)]))
  {
    var all := recurring + manual;
    var first := recurring + [Invoice(due, Pending)] + manual;
    var second := recurring + (manual + [Invoice(due, Pending)]);
    var m := |recurring|;
    LiveInBoth(recurring, manual, due);
    forall i | 0 <= i < |all|
      ensures all[i] == second[i] && all[i] == first[if i < m then i else i + 1]
    {
    }
    if i :| 0 <= i < |all| && all[i].due == due && !all[i].status.Void? {
      assert second[i].due == second[|all|].due;
      assert first[if i < m then i else i + 1].due == first[m].due;
    }
    if !LiveIn(all, due) {
      WithoutOne(all, first, m);
      WithoutOne(all, second, |all|);
    }
  }

  /** Adding an invoice anywhere keeps the rest apart. */
  lemma WithoutOne(all: seq<Invoice>, longer: seq<Invoice>, k: nat)
    requires OneLive(all) && |longer| == |all| + 1 && k <= |all|
    requires forall i | 0 <= i < |all| :: all[i] == longer[if i < k then i else i + 1]
    requires !LiveIn(all, longer[k].due)
    ensures OneLive(longer)
  {
    forall i, j | 0 <= i < j < |longer| && !longer[i].status.Void? && !longer[j].status.Void?
      ensures longer[i].due != longer[j].due
    {
      var a, b := if i < k then i else i - 1, if j < k then j else j - 1;
      assert i != k ==> longer[i] == all[a];
      assert j != k ==> longer[j] == all[b];
    }
  }

  lemma LiveInBoth(a: seq<Invoice>, b: seq<Invoice>, due: int)
    ensures LiveIn(a + b, due) <==> LiveIn(a, due) || LiveIn(b, due)
  {
    if i :| 0 <= i < |a| && a[i].due == due && !a[i].status.Void? {
      assert (a + b)[i] == a[i];
    }
    if i :| 0 <= i < |b| && b[i].due == due && !b[i].status.Void? {
      assert (a + b)[|a| + i] == b[i];
    }
  }

  lemma SettledLive(a: seq<Invoice>, b: seq<Invoice>, i: nat, status: InvoiceStatus)
    requires OneLive(a + b)
    ensures OneLive(Settled(a, i, status) + b) && OneLive(a + Settled(b, i, status))
  {
    SettledFollows(a + b, [], i, status);
    SettledFollows(a + b, [], |a| + i, status);
    assert i < |a| ==> Settled(a + b, i, status) == Settled(a, i, status) + b;
    assert Settled(a + b, |a| + i, status) == a + Settled(b, i, status);
  }

  lemma NoneByHandStep(c: Setup, s: State, e: Event)
    requires NoneByHand(s) && (e.Begin? ==> !e.command.BillByHand?)
    ensures NoneByHand(Next(c, s, e))
  {
    var s' := Next(c, s, e);
    forall t | t in s'.open
      ensures !s'.open[t].command.BillByHand?
    {
      assert t in s.open ==> s'.open[t].command == s.open[t].command;
    }
  }

  lemma PeriodEndStays(c: Setup, s: State, e: Event)
    requires TxsOk(s) && s.row.core.periodEnd.Some?
    ensures Next(c, s, e).row.core.periodEnd.Some?
  {
    if e.Commit? && e.t in s.open {
      assert TxOk(s, s.open[e.t]);
    }
  }

  lemma TidySettle(c: Setup, s: State, e: Event)
    requires Tidy(s) && e.Settle?
    ensures Tidy(Next(c, s, e))
  {
    SettledLive(s.recurring, s.manual, e.i, e.status);
    SettledFollows(s.recurring, s.periods, e.i, e.status);
    SettledFollows(s.manual, s.periods, e.i, e.status);
    StillPast(s, Next(c, s, e));
  }

  /** Everything but billing by hand keeps it so. */
  lemma TidyStep(c: Setup, s: State, e: Event)
    requires Inv(c, s) && Tidy(s) && NoneByHand(s) && s.row.core.periodEnd.Some?
    requires e.Begin? ==> !e.command.BillByHand?
    ensures Tidy(Next(c, s, e))
  {
    if e.Settle? {
      TidySettle(c, s, e);
    } else if e.Begin? || e.Abort? || e.Touch? || e.Tick? {
      StillPast(s, Next(c, s, e));
    } else if e.t in s.open {
      assert TxOk(s, s.open[e.t]);
      if e.Commit? {
        if s.open[e.t].phase.Holding? {
          TidyCommit(s, e.t);
        }
      } else if e.Guard? {
        TidyGuard(s, e.t);
      } else {
        TidyMove(c, s, e, e.t);
      }
    }
  }

  /** Renewals that were past their guard before. */
  lemma StillPast(s: State, s': State)
    requires Tidy(s) && s'.row.version == s.row.version && OneLive(AllInvoices(s'))
    requires forall due :: AnyLive(s', due) ==> AnyLive(s, due)
    requires forall u | u in s'.open && s'.open[u].command.Renew? && Passed(s'.open[u].phase) ::
               u in s.open && s.open[u] == s'.open[u]
    ensures Tidy(s')
  {
    forall due | RenewalPast(s', due)
      ensures !AnyLive(s', due)
    {
      var u :| u in s'.open && PastFor(s', s'.open[u], due);
      assert PastFor(s, s.open[u], due);
    }
  }

  /** A commit makes every other reading out of date. */
  lemma TidyCommit(s: State, t: TxId)
    requires Tidy(s) && TxsOk(s) && t in s.open && s.open[t].phase.Holding? && s.row.core.periodEnd.Some?
    ensures Tidy(Commits(s, t, s.open[t]))
  {
    var tx := s.open[t];
    var s' := Commits(s, t, tx);
    assert TxOk(s, tx);
    if tx.command.Renew? {
      assert PastFor(s, tx, tx.phase.due) && RenewalPast(s, tx.phase.due);
      OneLiveWith(s.recurring, s.manual, tx.phase.due);
      assert AllInvoices(s') == s.recurring + [Invoice(tx.phase.due, Pending)] + s.manual;
    } else {
      assert AllInvoices(s') == AllInvoices(s);
    }
    forall due
      ensures !RenewalPast(s', due)
    {
      NonePast(s, t, due);
    }
  }

  lemma NonePast(s: State, t: TxId, due: int)
    requires TxsOk(s) && t in s.open && s.open[t].phase.Holding?
    ensures !RenewalPast(Commits(s, t, s.open[t]), due)
  {
    var s' := Commits(s, t, s.open[t]);
    assert TxOk(s, s.open[t]);
    forall u | u in s'.open
      ensures !PastFor(s', s'.open[u], due)
    {
      assert TxOk(s, s.open[u]);
    }
  }

  /** A renewal gets past its guard only where nothing is live. */
  lemma TidyGuard(s: State, t: TxId)
    requires Tidy(s) && t in s.open
    ensures Tidy(Guards(s, t, s.open[t]))
  {
    var s' := Guards(s, t, s.open[t]);
    forall due | RenewalPast(s', due)
      ensures !AnyLive(s', due)
    {
      var u :| u in s'.open && PastFor(s', s'.open[u], due);
      if u != t || !s.open[t].phase.Guarding? {
        assert u in s.open && PastFor(s, s.open[u], due);
        assert RenewalPast(s, due);
      }
    }
  }

  /** What is past the guard after another move was so before. */
  lemma PastBefore(c: Setup, s: State, e: Event, t: TxId, u: TxId, due: int)
    requires TxsOk(s) && t in s.open && u in Next(c, s, e).open
    requires e == Insert(t) || e == Aim(t) || e == Swap(t) || e == Read(t) || e == Reread(t)
    requires PastFor(Next(c, s, e), Next(c, s, e).open[u], due)
    ensures u in s.open && PastFor(s, s.open[u], due)
  {
    assert TxOk(s, s.open[t]);
  }

  lemma TidyMove(c: Setup, s: State, e: Event, t: TxId)
    requires TxsOk(s) && Tidy(s) && NoneByHand(s) && t in s.open
    requires e == Insert(t) || e == Aim(t) || e == Swap(t) || e == Read(t) || e == Reread(t)
    ensures Tidy(Next(c, s, e))
  {
    var s' := Next(c, s, e);
    forall due | RenewalPast(s', due)
      ensures !AnyLive(s', due)
    {
      var u :| u in s'.open && PastFor(s', s'.open[u], due);
      PastBefore(c, s, e, t, u, due);
      assert RenewalPast(s, due);
    }
  }

  lemma {:induction false} TidySteps(c: Setup, s: State, more: seq<Event>)
    requires Inv(c, s) && Tidy(s) && NoneByHand(s) && s.row.core.periodEnd.Some? && NobodyBills(more)
    ensures Tidy(Steps(c, s, more))
    decreases |more|
  {
    if more != [] {
      assert more[0].Begin? ==> !more[0].command.BillByHand?;
      TidyStep(c, s, more[0]);
      NoneByHandStep(c, s, more[0]);
      PeriodEndStays(c, s, more[0]);
      StepKeepsInv(c, s, more[0]);
      TidySteps(c, Next(c, s, more[0]), more[1..]);
    }
  }

  /** A renewal past its guard gets ready to write; nothing committed changes. */
  lemma RenewalAims(c: Setup, s: State, u: TxId, due: int)
    requires Inv(c, s) && u in s.open && PastFor(s, s.open[u], due) && !RowLocked(s, u)
    ensures var aimed := Next(c, Next(c, s, Insert(u)), Aim(u));
      && Inv(c, aimed) && u in aimed.open && PastFor(aimed, aimed.open[u], due) && !RowLocked(aimed, u)
      && (aimed.open[u].phase.Swapping? || aimed.open[u].phase.Holding?)
      && aimed.recurring == s.recurring && aimed.manual == s.manual
  {
    assert TxOk(s, s.open[u]);
    var inserted := Next(c, s, Insert(u));
    var aimed := Next(c, inserted, Aim(u));
    StepKeepsInv(c, s, Insert(u));
    StepKeepsInv(c, inserted, Aim(u));
    assert forall v | v in aimed.open && v != u :: v in s.open && aimed.open[v] == s.open[v];
  }

  /** The rest of a renewal that is past its guard and not held up. */
  lemma RenewalCommits(c: Setup, s: State, u: TxId, due: int)
    requires Inv(c, s) && u in s.open && PastFor(s, s.open[u], due) && !RowLocked(s, u)
    ensures var s' := Steps(c, s, [Insert(u), Aim(u), Swap(u), Commit(u)]);
      s'.recurring == s.recurring + [Invoice(due, Pending)] && s'.manual == s.manual
  {
    RenewalAims(c, s, u, due);
    var aimed := Next(c, Next(c, s, Insert(u)), Aim(u));
    SwapCommits(c, aimed, u, due);
    var events := [Insert(u), Aim(u), Swap(u), Commit(u)];
    TwoSteps(c, s, events);
    assert events[2..] == [Swap(u), Commit(u)];
    TwoSteps(c, aimed, events[2..]);
  }

  lemma SwapCommits(c: Setup, s: State, u: TxId, due: int)
    requires Inv(c, s) && u in s.open && PastFor(s, s.open[u], due) && !RowLocked(s, u)
    requires s.open[u].phase.Swapping? || s.open[u].phase.Holding?
    ensures var s' := Next(c, Next(c, s, Swap(u)), Commit(u));
      s'.recurring == s.recurring + [Invoice(due, Pending)] && s'.manual == s.manual
  {
    assert TxOk(s, s.open[u]);
  }

  /** There is one holder of the row at most. */
  lemma FreedIsFree(c: Setup, s: State, u: TxId, v: TxId)
    requires Inv(c, s) && v in s.open && v != u && s.open[v].phase.Holding?
    ensures !RowLocked(Next(c, s, Abort(v)), u)
  {
  }

  lemma SecondInvoice(c: Setup, s: State, u: TxId, due: int) returns (more: seq<Event>)
    requires Inv(c, s) && u in s.open && PastFor(s, s.open[u], due) && !RowLocked(s, u)
    requires OneLive(AllInvoices(s)) && AnyLive(s, due)
    ensures NobodyBills(more) && !OneLive(AllInvoices(Steps(c, s, more)))
  {
    more := [Insert(u), Aim(u), Swap(u), Commit(u)];
    RenewalCommits(c, s, u, due);
    OneLiveWith(s.recurring, s.manual, due);
  }

  /** A second invoice, if need be after whoever holds the row gives up. */
  lemma SecondInvoiceAnyway(c: Setup, s: State, u: TxId, due: int) returns (more: seq<Event>)
    requires Inv(c, s) && u in s.open && PastFor(s, s.open[u], due)
    requires OneLive(AllInvoices(s)) && AnyLive(s, due)
    ensures NobodyBills(more) && !OneLive(AllInvoices(Steps(c, s, more)))
  {
    if v :| v in s.open && v != u && s.open[v].phase.Holding? {
      var freed := Next(c, s, Abort(v));
      StepKeepsInv(c, s, Abort(v));
      FreedIsFree(c, s, u, v);
      more := SecondInvoice(c, freed, u, due);
      assert ([Abort(v)] + more)[1..] == more;
      more := [Abort(v)] + more;
    } else {
      more := SecondInvoice(c, s, u, due);
    }
  }

  /** From a state that is not tidy some continuation makes a second live invoice. */
  lemma UntidyEnds(c: Setup, s: State) returns (more: seq<Event>)
    requires Inv(c, s) && !Tidy(s)
    ensures NobodyBills(more) && !OneLive(AllInvoices(Steps(c, s, more)))
  {
    if !OneLive(AllInvoices(s)) {
      more := [];
    } else {
      var due :| RenewalPast(s, due) && AnyLive(s, due);
      var u :| u in s.open && PastFor(s, s.open[u], due);
      more := SecondInvoiceAnyway(c, s, u, due);
    }
  }

  /** However a run goes on without billing by hand, one live invoice per due date is kept
      exactly from the tidy states. */
  lemma KeptFromTidyIff(c: Setup, s: State)
    requires Inv(c, s) && NoneByHand(s) && s.row.core.periodEnd.Some?
    ensures (forall more | NobodyBills(more) :: OneLive(AllInvoices(Steps(c, s, more)))) <==> Tidy(s)
  {
    if Tidy(s) {
      forall more | NobodyBills(more)
        ensures OneLive(AllInvoices(Steps(c, s, more)))
      {
        TidySteps(c, s, more);
      }
    } else {
      var more := UntidyEnds(c, s);
      assert !OneLive(AllInvoices(Steps(c, s, more)));
    }
  }

  /** One invoice made by hand does no harm, then or later, exactly when at its commit no other
      invoice for its due date is live and no renewal for that date is past its guard. */
  lemma ByHandHarmlessIff(c: Setup, s: State, t: TxId)
    requires Inv(c, s) && Tidy(s) && s.row.core.periodEnd.Some?
    requires t in s.open && s.open[t].phase.Billing? && NoneByHand(Close(s, t))
    ensures var billed, due := Next(c, s, Commit(t)), s.open[t].phase.due;
      (forall more | NobodyBills(more) :: OneLive(AllInvoices(Steps(c, billed, more))))
      <==> !AnyLive(s, due) && !RenewalPast(s, due)
  {
    var billed, due := Next(c, s, Commit(t)), s.open[t].phase.due;
    StepKeepsInv(c, s, Commit(t));
    KeptFromTidyIff(c, billed);
    OneLiveWith(s.recurring, s.manual, due);
    LiveInBoth(s.manual, [Invoice(due, Pending)], due);
    assert [Invoice(due, Pending)][0].due == due;
    forall other
      ensures RenewalPast(billed, other) <==> RenewalPast(s, other)
      ensures AnyLive(billed, other) <==> AnyLive(s, other) || other == due
    {
      if u :| u in s.open && PastFor(s, s.open[u], other) {
        assert u != t && PastFor(billed, billed.open[u], other);
      }
      if u :| u in billed.open && PastFor(billed, billed.open[u], other) {
        assert PastFor(s, s.open[u], other);
      }
      LiveInBoth(s.manual, [Invoice(due, Pending)], other);
    }
  }

  /** Where nobody bills by hand every reachable state is tidy. */
  lemma TidyWithoutBilling(c: Setup, events: seq<Event>)
    requires IsSetup(c) && !c.manualBilling
    ensures Tidy(Run(c, events))
  {
    Reachable(c, events);
    var s := Run(c, events);
    assert s.recurring + [] == s.recurring;
    forall due | RenewalPast(s, due)
      ensures !AnyLive(s, due)
    {
      var u :| u in s.open && PastFor(s, s.open[u], due);
      assert TxOk(s, s.open[u]);
    }
  }
}
