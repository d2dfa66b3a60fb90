/**
 Invoices and their payments under concurrent markPaid and voidInvoice transactions and any
 number of duplicated, interleaved or crashed invoice.paid deliveries.

 Amounts are integers in units of 1/10000.  An update of an invoice is a compare-and-swap on
 its rowVersion that waits for the row lock; the payment row commits with it.
 */
module InvoicePayments {
  import opened Wrappers

  type InvoiceId = nat

  type TxId = nat

  datatype Status = Pending | Paid | Cancelled

  datatype Invoice = Invoice(status: Status, total: int, version: nat, provider: Option<string>)

  /** A SUCCEEDED payment transaction. */
  datatype Payment = Payment(invoice: InvoiceId, amount: int)

  /** The id an event's object carries: none, null, or text.  Nothing checks that there is one. */
  datatype Reference = Missing | Null | Named(id: string)

  /** What the lookup by provider id matches: a missing id drops the filter, null selects the
      invoices without one. */
  predicate Matches(reference: Reference, provider: Option<string>) {
    match reference
    case Missing => true
    case Null => provider.None?
    case Named(id) => provider == Some(id)
  }

  /** A manual payment (None for text that is no decimal), a voiding, or one webhook delivery. */
  datatype Job =
    | Pay(id: InvoiceId, paid: Option<int>, provider: Option<string>)
    | Cancel(id: InvoiceId)
    | Webhook(key: string, invoice: Reference, cents: int)

  datatype Phase =
    | Checking
    | Finding
    | Reading(id: InvoiceId)
    | Swapping(id: InvoiceId, seen: Invoice)
    | Holding(id: InvoiceId, seen: Invoice)
    | Rereading(id: InvoiceId)
    | Marking(found: Option<InvoiceId>)

  datatype Tx = Tx(job: Job, phase: Phase)

  /** A delivery answered as handled: by its mark alone, or after looking for its invoice, with
      the one it found, if any. */
  datatype Handled = Handled(key: string, found: Option<InvoiceId>, duplicate: bool)

  datatype State = State(
    invoices: map<InvoiceId, Invoice>,
    payments: seq<Payment>,
    open: map<TxId, Tx>,
    processed: set<string>,
    handled: seq<Handled>)

  datatype Event =
    | Create(id: InvoiceId, total: int, provider: Option<string>)
    | Begin(t: TxId, job: Job)
    | Check(t: TxId, readable: bool)
    | Find(t: TxId, found: Option<InvoiceId>)
    | Read(t: TxId)
    | Swap(t: TxId)
    | Commit(t: TxId)
    | Reread(t: TxId)
    | Mark(t: TxId, stored: bool)
    | Crash(t: TxId)
    | Forget(key: string)

  const INITIAL := State(map[], [], map[], {}, [])

  /** amount_paid / 100 in units of 1/10000 */
  function AmountOf(job: Job): Option<int> {
    match job
    case Pay(_, paid, _) => paid
    case Webhook(_, _, cents) => Some(100 * cents)
    case Cancel(_) => None
  }

  /** markPaid's checks: a positive decimal, equal to the whole total. */
  predicate Covers(amount: Option<int>, total: int) {
    amount.Some? && amount.value > 0 && amount.value == total
  }

  /** What the job's own checks say about the invoice it has read. */
  predicate Accepts(job: Job, invoice: Invoice) {
    invoice.status.Pending? && (job.Cancel? || Covers(AmountOf(job), invoice.total))
  }

  function ProviderOf(job: Job): Option<string> {
    match job
    case Pay(_, _, provider) => provider
    case Webhook(_, invoice, _) => if invoice.Named? then Some(invoice.id) else None
    case Cancel(_) => None
  }

  function Written(job: Job, invoice: Invoice): Invoice {
    var next := invoice.(version := invoice.version + 1);
    if job.Cancel? then next.(status := Cancelled)
    else next.(status := Paid, provider := if ProviderOf(job).Some? then ProviderOf(job) else invoice.provider)
  }

  predicate RowLocked(s: State, t: TxId, id: InvoiceId) {
    exists u | u in s.open :: u != t && s.open[u].phase.Holding? && s.open[u].phase.id == id
  }

  function Goto(s: State, t: TxId, tx: Tx, phase: Phase): State {
    s.(open := s.open[t := tx.(phase := phase)])
  }

  function Close(s: State, t: TxId): State {
    s.(open := s.open - {t})
  }

  function Handle(s: State, t: TxId, tx: Tx, found: Option<InvoiceId>, duplicate: bool): State {
    if tx.job.Webhook? then Close(s, t).(handled := s.handled + [Handled(tx.job.key, found, duplicate)])
    else Close(s, t)
  }

  /** BadRequest or Conflict: a webhook looks at the invoice again, other callers give up. */
  function Refuse(s: State, t: TxId, tx: Tx, id: InvoiceId): State {
    if tx.job.Webhook? then Goto(s, t, tx, Rereading(id)) else Close(s, t)
  }

  function Starts(s: State, t: TxId, job: Job): State {
    if t in s.open then s
    else s.(open := s.open[t := Tx(job, match job
      case Webhook(_, _, _) => Checking
      case Pay(id, _, _) => Reading(id)
      case Cancel(id) => Reading(id))])
  }

  /** A failed lookup of the processed marks counts as not processed. */
  function Checks(s: State, t: TxId, tx: Tx, readable: bool): State {
    if !tx.phase.Checking? || !tx.job.Webhook? then s
    else if readable && tx.job.key in s.processed then Handle(s, t, tx, None, true)
    else Goto(s, t, tx, Finding)
  }

  /** findFirst by providerInvoiceId: any match will do, and no match means nothing to do. */
  function Finds(s: State, t: TxId, tx: Tx, found: Option<InvoiceId>): State {
    if !tx.phase.Finding? || !tx.job.Webhook? then s
    else if found.Some? && found.value in s.invoices && Matches(tx.job.invoice, s.invoices[found.value].provider)
    then Goto(s, t, tx, Reading(found.value))
    else if found.None? && forall id | id in s.invoices :: !Matches(tx.job.invoice, s.invoices[id].provider)
    then Goto(s, t, tx, Marking(None))
    else s
  }

  function Reads(s: State, t: TxId, tx: Tx): State {
    if !tx.phase.Reading? then s
    else
      var id := tx.phase.id;
      if id !in s.invoices then Close(s, t)
      else if !Accepts(tx.job, s.invoices[id]) then Refuse(s, t, tx, id)
      else Goto(s, t, tx, Swapping(id, s.invoices[id]))
  }

  function Swaps(s: State, t: TxId, tx: Tx): State {
    if !tx.phase.Swapping? || tx.phase.id !in s.invoices || RowLocked(s, t, tx.phase.id) then s
    else if tx.phase.seen.version != s.invoices[tx.phase.id].version then Refuse(s, t, tx, tx.phase.id)
    else Goto(s, t, tx, Holding(tx.phase.id, tx.phase.seen))
  }

  /** The invoice and, for a payment, its payment row become visible together. */
  function Commits(s: State, t: TxId, tx: Tx): State {
    if !tx.phase.Holding? || tx.phase.id !in s.invoices then s
    else
      var id, amount := tx.phase.id, AmountOf(tx.job);
      var s' := s.(
        invoices := s.invoices[id := Written(tx.job, s.invoices[id])],
        payments := s.payments + if amount.Some? then [Payment(id, amount.value)] else []);
      if tx.job.Webhook? then Goto(s', t, tx, Marking(Some(id))) else Close(s', t)
  }

  /** Converge only on PAID; anything else fails the delivery, to be sent again. */
  function Rereads(s: State, t: TxId, tx: Tx): State {
    if !tx.phase.Rereading? then s
    else if tx.phase.id in s.invoices && s.invoices[tx.phase.id].status.Paid?
    then Goto(s, t, tx, Marking(Some(tx.phase.id)))
    else Close(s, t)
  }

  function Marks(s: State, t: TxId, tx: Tx, stored: bool): State {
    if !tx.phase.Marking? || !tx.job.Webhook? then s
    else Handle(s.(processed := if stored then s.processed + {tx.job.key} else s.processed), t, tx, tx.phase.found, false)
  }

  /** One atomic step; an event that is not enabled changes nothing. */
  function Next(s: State, e: Event): State {
    match e
    case Create(id, total, provider) =>
      if id in s.invoices then s else s.(invoices := s.invoices[id := Invoice(Pending, total, 0, provider)])
    case Begin(t, job) => Starts(s, t, job)
    case Check(t, readable) => if t in s.open then Checks(s, t, s.open[t], readable) else s
    case Find(t, found) => if t in s.open then Finds(s, t, s.open[t], found) else s
    case Read(t) => if t in s.open then Reads(s, t, s.open[t]) else s
    case Swap(t) => if t in s.open then Swaps(s, t, s.open[t]) else s
    case Commit(t) => if t in s.open then Commits(s, t, s.open[t]) else s
    case Reread(t) => if t in s.open then Rereads(s, t, s.open[t]) else s
    case Mark(t, stored) => if t in s.open then Marks(s, t, s.open[t], stored) else s
    case Crash(t) => Close(s, t)
    case Forget(key) => s.(processed := s.processed - {key})
  }

  function Run(events: seq<Event>): State {
    if events == [] then INITIAL else Next(Run(events[..|events| - 1]), events[|events| - 1])
  }

  // ---------------------------------------------------------------------------------
  // The invariant of every reachable state
  // ---------------------------------------------------------------------------------

  /** The amounts of one invoice's succeeded payments. */
  function AmountsFor(payments: seq<Payment>, id: InvoiceId): seq<int> {
    if payments == [] then []
    else
      var last := payments[|payments| - 1];
      AmountsFor(payments[..|payments| - 1], id) + if last.invoice == id then [last.amount] else []
  }

  lemma AmountsForMore(payments: seq<Payment>, payment: Payment, id: InvoiceId)
    ensures AmountsFor(payments + [payment], id)
         == AmountsFor(payments, id) + if payment.invoice == id then [payment.amount] else []
  {
    assert (payments + [payment])[..|payments|] == payments;
  }

  /** The books of one invoice: one payment of the whole total when paid, none otherwise. */
  predicate Balanced(s: State, id: InvoiceId) {
    AmountsFor(s.payments, id) ==
      if id in s.invoices && s.invoices[id].status.Paid? then [s.invoices[id].total] else []
  }

  ghost predicate AllBalanced(s: State) {
    && (forall id :: Balanced(s, id))
    && forall id | id in s.invoices && s.invoices[id].status.Paid? :: s.invoices[id].total > 0
  }

  predicate IsPaid(s: State, id: InvoiceId) {
    id in s.invoices && s.invoices[id].status.Paid?
  }

  predicate PhaseOk(s: State, tx: Tx) {
    match tx.phase
    case Swapping(id, seen) =>
      && id in s.invoices && Accepts(tx.job, seen) && seen.version <= s.invoices[id].version
      && (seen.version == s.invoices[id].version ==> seen == s.invoices[id])
    case Holding(id, seen) => id in s.invoices && Accepts(tx.job, seen) && seen == s.invoices[id]
    case Marking(found) => found.Some? ==> IsPaid(s, found.value)
    case _ => true
  }

  predicate OneHolder(s: State) {
    forall t, u | t in s.open && u in s.open && s.open[t].phase.Holding? && s.open[u].phase.Holding?
                  && s.open[t].phase.id == s.open[u].phase.id :: t == u
  }

  predicate PhasesOk(s: State) {
    forall t | t in s.open :: PhaseOk(s, s.open[t])
  }

  predicate HandledPaid(s: State) {
    forall i | 0 <= i < |s.handled| && s.handled[i].found.Some? :: IsPaid(s, s.handled[i].found.value)
  }

  /** Some delivery under this key, among the first so many, looked for its invoice. */
  predicate Looked(handled: seq<Handled>, key: string, n: nat) {
    exists j | 0 <= j < n && j < |handled| :: handled[j].key == key && !handled[j].duplicate
  }

  predicate MarksOk(s: State) {
    && (forall key | key in s.processed :: Looked(s.handled, key, |s.handled|))
    && forall i | 0 <= i < |s.handled| && s.handled[i].duplicate :: Looked(s.handled, s.handled[i].key, i)
  }

  ghost predicate Inv(s: State) {
    AllBalanced(s) && PhasesOk(s) && OneHolder(s) && HandledPaid(s) && MarksOk(s)
  }

  lemma LookedStill(handled: seq<Handled>, more: Handled, key: string, n: nat)
    requires Looked(handled, key, n) && n <= |handled|
    ensures Looked(handled + [more], key, n)
  {
    var j :| 0 <= j < n && handled[j].key == key && !handled[j].duplicate;
    assert (handled + [more])[j] == handled[j];
  }

  /** One more handled delivery, and perhaps its mark. */
  lemma HandleKeepsMarks(s: State, s': State, h: Handled)
    requires MarksOk(s) && s'.handled == s.handled + [h]
    requires h.duplicate ==> Looked(s.handled, h.key, |s.handled|) && s'.processed == s.processed
    requires s'.processed <= s.processed + {h.key}
    ensures MarksOk(s')
  {
    var n := |s.handled|;
    assert s'.handled[n] == h;
    forall key | key in s'.processed
      ensures Looked(s'.handled, key, n + 1)
    {
      if key in s.processed {
        LookedStill(s.handled, h, key, n);
      }
    }
    forall i | 0 <= i < n + 1 && s'.handled[i].duplicate
      ensures Looked(s'.handled, s'.handled[i].key, i)
    {
      LookedStill(s.handled, h, s'.handled[i].key, i);
    }
  }

  lemma GotoKeeps(s: State, t: TxId, tx: Tx)
    requires Inv(s) && PhaseOk(s, tx) && (tx.phase.Holding? ==> !RowLocked(s, t, tx.phase.id))
    ensures Inv(s.(open := s.open[t := tx]))
  {
    var s' := s.(open := s.open[t := tx]);
    forall u | u in s'.open
      ensures PhaseOk(s', s'.open[u])
    {
      assert u != t ==> PhaseOk(s, s.open[u]);
    }
    forall id
      ensures Balanced(s', id)
    {
      assert Balanced(s, id);
    }
  }

  lemma CloseKeeps(s: State, t: TxId)
    requires Inv(s)
    ensures Inv(Close(s, t))
  {
    forall u | u in Close(s, t).open
      ensures PhaseOk(Close(s, t), s.open[u])
    {
      assert PhaseOk(s, s.open[u]);
    }
    forall id
      ensures Balanced(Close(s, t), id)
    {
      assert Balanced(s, id);
    }
  }

  lemma HandleKeeps(s: State, t: TxId, tx: Tx, found: Option<InvoiceId>, duplicate: bool, processed: set<string>)
    requires Inv(s) && (found.Some? ==> IsPaid(s, found.value)) && tx.job.Webhook?
    requires duplicate ==> tx.job.key in s.processed && processed == s.processed
    requires processed <= s.processed + {tx.job.key}
    ensures Inv(Handle(s.(processed := processed), t, tx, found, duplicate))
  {
    var s' := Handle(s.(processed := processed), t, tx, found, duplicate);
    HandleKeepsMarks(s, s', Handled(tx.job.key, found, duplicate));
    forall u | u in s'.open
      ensures PhaseOk(s', s'.open[u])
    {
      assert PhaseOk(s, s.open[u]);
    }
    forall id
      ensures Balanced(s', id)
    {
      assert Balanced(s, id);
    }
  }

  lemma CommitBalances(s: State, t: TxId)
    requires Inv(s) && t in s.open && s.open[t].phase.Holding?
    ensures AllBalanced(Commits(s, t, s.open[t]))
  {
    var tx := s.open[t];
    assert PhaseOk(s, tx);
    var s', id, amount := Commits(s, t, tx), tx.phase.id, AmountOf(tx.job);
    forall other
      ensures Balanced(s', other)
    {
      assert Balanced(s, other);
      if amount.Some? {
        AmountsForMore(s.payments, Payment(id, amount.value), other);
      } else {
        assert s'.payments == s.payments;
      }
    }
  }

  /** What other transactions have read of the written invoice is out of date now. */
  lemma CommitKeepsPhases(s: State, t: TxId)
    requires Inv(s) && t in s.open && s.open[t].phase.Holding?
    ensures PhasesOk(Commits(s, t, s.open[t]))
  {
    var tx := s.open[t];
    var s' := Commits(s, t, tx);
    assert PhaseOk(s, tx);
    forall u | u in s'.open
      ensures PhaseOk(s', s'.open[u])
    {
      assert PhaseOk(s, s.open[u]);
      assert u != t && s.open[u].phase.Holding? ==> s.open[u].phase.id != tx.phase.id;
    }
  }

  lemma CommitKeeps(s: State, t: TxId)
    requires Inv(s) && t in s.open && s.open[t].phase.Holding?
    ensures Inv(Commits(s, t, s.open[t]))
  {
    assert PhaseOk(s, s.open[t]);
    CommitBalances(s, t);
    CommitKeepsPhases(s, t);
  }

  lemma CreateKeeps(s: State, id: InvoiceId, total: int, provider: Option<string>)
    requires Inv(s) && id !in s.invoices
    ensures Inv(s.(invoices := s.invoices[id := Invoice(Pending, total, 0, provider)]))
  {
    var s' := s.(invoices := s.invoices[id := Invoice(Pending, total, 0, provider)]);
    forall u | u in s'.open
      ensures PhaseOk(s', s'.open[u])
    {
      assert PhaseOk(s, s.open[u]);
    }
    forall other
      ensures Balanced(s', other)
    {
      assert Balanced(s, other);
    }
  }

  lemma ReadOrSwapKeeps(s: State, t: TxId)
    requires Inv(s) && t in s.open
    ensures Inv(Reads(s, t, s.open[t])) && Inv(Swaps(s, t, s.open[t]))
  {
    var tx := s.open[t];
    assert PhaseOk(s, tx);
    CloseKeeps(s, t);
    if tx.phase.Reading? && tx.phase.id in s.invoices {
      GotoKeeps(s, t, tx.(phase := Rereading(tx.phase.id)));
      if Accepts(tx.job, s.invoices[tx.phase.id]) {
        GotoKeeps(s, t, tx.(phase := Swapping(tx.phase.id, s.invoices[tx.phase.id])));
      }
    } else if tx.phase.Swapping? && !RowLocked(s, t, tx.phase.id) {
      if tx.phase.seen.version != s.invoices[tx.phase.id].version {
        GotoKeeps(s, t, tx.(phase := Rereading(tx.phase.id)));
      } else {
        GotoKeeps(s, t, tx.(phase := Holding(tx.phase.id, tx.phase.seen)));
      }
    }
  }

  lemma WebhookStepKeeps(s: State, t: TxId, flag: bool, found: Option<InvoiceId>)
    requires Inv(s) && t in s.open
    ensures Inv(Checks(s, t, s.open[t], flag)) && Inv(Finds(s, t, s.open[t], found))
    ensures Inv(Rereads(s, t, s.open[t])) && Inv(Marks(s, t, s.open[t], flag))
  {
    var tx := s.open[t];
    assert PhaseOk(s, tx);
    CloseKeeps(s, t);
    match tx.phase {
      case Checking =>
        if tx.job.Webhook? && tx.job.key in s.processed {
          HandleKeeps(s, t, tx, None, true, s.processed);
        }
        GotoKeeps(s, t, tx.(phase := Finding));
      case Finding =>
        GotoKeeps(s, t, tx.(phase := Marking(None)));
        if found.Some? {
          GotoKeeps(s, t, tx.(phase := Reading(found.value)));
        }
      case Rereading(id) =>
        if IsPaid(s, id) {
          GotoKeeps(s, t, tx.(phase := Marking(Some(id))));
        }
      case Marking(about) =>
        if tx.job.Webhook? {
          HandleKeeps(s, t, tx, about, false, if flag then s.processed + {tx.job.key} else s.processed);
        }
      case _ =>
    }
  }

  lemma StartKeeps(s: State, t: TxId, job: Job)
    requires Inv(s)
    ensures Inv(Starts(s, t, job))
  {
    if t !in s.open {
      GotoKeeps(s, t, Starts(s, t, job).open[t]);
    }
  }

  lemma ForgetKeeps(s: State, key: string)
    requires Inv(s)
    ensures Inv(s.(processed := s.processed - {key}))
  {
    var s' := s.(processed := s.processed - {key});
    forall id
      ensures Balanced(s', id)
    {
      assert Balanced(s, id);
    }
    forall u | u in s'.open
      ensures PhaseOk(s', s'.open[u])
    {
      assert PhaseOk(s, s.open[u]);
    }
  }

  lemma StepKeepsInv(s: State, e: Event)
    requires Inv(s)
    ensures Inv(Next(s, e))
  {
    match e {
      case Create(id, total, provider) => if id !in s.invoices { CreateKeeps(s, id, total, provider); }
      case Begin(t, job) => StartKeeps(s, t, job);
      case Check(t, readable) => if t in s.open { WebhookStepKeeps(s, t, readable, None); }
      case Find(t, found) => if t in s.open { WebhookStepKeeps(s, t, true, found); }
      case Read(t) => if t in s.open { ReadOrSwapKeeps(s, t); }
      case Swap(t) => if t in s.open { ReadOrSwapKeeps(s, t); }
      case Commit(t) => if t in s.open && s.open[t].phase.Holding? { CommitKeeps(s, t); }
      case Reread(t) => if t in s.open { WebhookStepKeeps(s, t, true, None); }
      case Mark(t, stored) => if t in s.open { WebhookStepKeeps(s, t, stored, None); }
      case Crash(t) => CloseKeeps(s, t);
      case Forget(key) => ForgetKeeps(s, key);
    }
  }

  lemma {:induction false} Reachable(events: seq<Event>)
    ensures Inv(Run(events))
  {
    if events == [] {
      assert forall id :: Balanced(INITIAL, id);
    } else {
      Reachable(events[..|events| - 1]);
      StepKeepsInv(Run(events[..|events| - 1]), events[|events| - 1]);
    }
  }

  // ---------------------------------------------------------------------------------
  // Main results
  // ---------------------------------------------------------------------------------

  /** An invoice is paid exactly when it has one succeeded payment, of its whole total; in
      any other status it has none. */
  lemma PaidIffPaidOnceInFull(events: seq<Event>, id: InvoiceId)
    requires id in Run(events).invoices
    ensures var s := Run(events);
      && (s.invoices[id].status.Paid? <==> AmountsFor(s.payments, id) == [s.invoices[id].total])
      && (!s.invoices[id].status.Paid? <==> AmountsFor(s.payments, id) == [])
  {
    Reachable(events);
    assert Balanced(Run(events), id);
  }

  lemma SettledStays(s: State, e: Event, id: InvoiceId)
    requires Inv(s) && id in s.invoices
    ensures id in Next(s, e).invoices && Next(s, e).invoices[id].total == s.invoices[id].total
    ensures !s.invoices[id].status.Pending? ==> Next(s, e).invoices[id].status == s.invoices[id].status
  {
    if e.Commit? && e.t in s.open {
      assert PhaseOk(s, s.open[e.t]);
    }
  }

  /** Paid and cancelled are final, however a run goes on. */
  lemma {:induction false} SettledIsFinal(events: seq<Event>, more: seq<Event>, id: InvoiceId)
    requires id in Run(events).invoices
    ensures id in Run(events + more).invoices
    ensures Run(events + more).invoices[id].total == Run(events).invoices[id].total
    ensures !Run(events).invoices[id].status.Pending? ==>
              Run(events + more).invoices[id].status == Run(events).invoices[id].status
  {
    if more == [] {
      assert events + more == events;
    } else {
      var init := more[..|more| - 1];
      SettledIsFinal(events, init, id);
      assert (events + more)[..|events + more| - 1] == events + init;
      Reachable(events + init);
      SettledStays(Run(events + init), more[|more| - 1], id);
    }
  }

  /** A delivery that found an invoice is answered as handled only when that invoice is paid,
      and so is paid once and in full, from then on. */
  lemma HandledMeansPaid(events: seq<Event>, more: seq<Event>, i: nat, id: InvoiceId)
    requires i < |Run(events).handled| && Run(events).handled[i].found == Some(id)
    ensures IsPaid(Run(events + more), id) && id in Run(events).invoices
    ensures AmountsFor(Run(events + more).payments, id) == [Run(events).invoices[id].total]
  {
    Reachable(events);
    SettledIsFinal(events, more, id);
    PaidIffPaidOnceInFull(events + more, id);
  }

  /** A delivery answered by its mark alone repeats one under the same key that looked for its
      invoice, and found none or one that is paid, then and later. */
  lemma DuplicateMeansPaid(events: seq<Event>, more: seq<Event>, i: nat) returns (j: nat)
    requires i < |Run(events).handled| && Run(events).handled[i].duplicate
    ensures j < i && Run(events).handled[j].key == Run(events).handled[i].key && !Run(events).handled[j].duplicate
    ensures var found := Run(events).handled[j].found; found.Some? ==> IsPaid(Run(events + more), found.value)
  {
    Reachable(events);
    var handled := Run(events).handled;
    j :| 0 <= j < i && handled[j].key == handled[i].key && !handled[j].duplicate;
    if handled[j].found.Some? {
      SettledIsFinal(events, more, handled[j].found.value);
    }
  }

  /** What a job that went through has done: a voiding leaves the invoice cancelled with all else
      as it was; a payment leaves it paid, under the provider id given with it, if any. */
  predicate Settles(job: Job, before: Invoice, after: Invoice) {
    && before.status.Pending? && after.total == before.total && after.version == before.version + 1
    && match job
       case Cancel(_) => after.status.Cancelled? && after.provider == before.provider
       case Pay(_, _, Some(provider)) => after.status.Paid? && after.provider == Some(provider)
       case Pay(_, _, None) => after.status.Paid? && after.provider == before.provider
       case Webhook(_, Named(provider), _) => after.status.Paid? && after.provider == Some(provider)
       case Webhook(_, _, _) => after.status.Paid? && after.provider == before.provider
  }

  /** In every run a commit does this to its own invoice and nothing to any other, and adds the
      payment of the whole total exactly when it is a payment. */
  lemma CommitSettles(events: seq<Event>, t: TxId)
    requires t in Run(events).open && Run(events).open[t].phase.Holding?
    ensures var s, s' := Run(events), Run(events + [Commit(t)]);
      var id, job := s.open[t].phase.id, s.open[t].job;
      && id in s.invoices && s'.invoices.Keys == s.invoices.Keys
      && Settles(job, s.invoices[id], s'.invoices[id])
      && (forall other | other in s.invoices && other != id :: s'.invoices[other] == s.invoices[other])
      && s'.payments == s.payments + if job.Cancel? then [] else [Payment(id, s.invoices[id].total)]
  {
    Reachable(events);
    assert PhaseOk(Run(events), Run(events).open[t]);
    assert (events + [Commit(t)])[..|events|] == events;
  }

  /** Once a voiding has committed, no continuation ever makes that invoice paid or adds a
      payment for it. */
  lemma VoidedNeverPaid(events: seq<Event>, t: TxId, more: seq<Event>)
    requires t in Run(events).open && Run(events).open[t].phase.Holding? && Run(events).open[t].job.Cancel?
    ensures var id, s := Run(events).open[t].phase.id, Run(events + [Commit(t)] + more);
      id in s.invoices && s.invoices[id].status.Cancelled? && AmountsFor(s.payments, id) == []
  {
    CommitSettles(events, t);
    SettledIsFinal(events + [Commit(t)], more, Run(events).open[t].phase.id);
    PaidIffPaidOnceInFull(events + [Commit(t)] + more, Run(events).open[t].phase.id);
  }

  /** Once a payment has committed, no continuation ever voids that invoice or pays it again. */
  lemma PaidNeverVoided(events: seq<Event>, t: TxId, more: seq<Event>)
    requires t in Run(events).open && Run(events).open[t].phase.Holding? && !Run(events).open[t].job.Cancel?
    ensures var id, s := Run(events).open[t].phase.id, Run(events + [Commit(t)] + more);
      id in Run(events).invoices && IsPaid(s, id) && AmountsFor(s.payments, id) == [Run(events).invoices[id].total]
  {
    CommitSettles(events, t);
    SettledIsFinal(events + [Commit(t)], more, Run(events).open[t].phase.id);
    PaidIffPaidOnceInFull(events + [Commit(t)] + more, Run(events).open[t].phase.id);
  }

  /** No delivery is ever answered as handled for an invoice that has been voided. */
  lemma VoidedNeverHandled(events: seq<Event>, id: InvoiceId, i: nat)
    requires id in Run(events).invoices && Run(events).invoices[id].status.Cancelled?
    requires i < |Run(events).handled|
    ensures Run(events).handled[i].found != Some(id)
  {
    Reachable(events);
  }

  // ---------------------------------------------------------------------------------
  // One job, when nothing interferes
  // ---------------------------------------------------------------------------------

  predicate Idle(s: State, t: TxId) {
    t !in s.open && forall u | u in s.open :: !s.open[u].phase.Holding?
  }

  function Alone(s: State, t: TxId, job: Job): State {
    Next(Next(Next(Next(s, Begin(t, job)), Read(t)), Swap(t)), Commit(t))
  }

  /** A manual job alone either does all of its work or none. */
  lemma JobAlone(s: State, t: TxId, job: Job)
    requires Idle(s, t) && !job.Webhook? && job.id in s.invoices
    ensures var s' := Alone(s, t, job);
      if Accepts(job, s.invoices[job.id]) then
        && s'.invoices == s.invoices[job.id := Written(job, s.invoices[job.id])]
        && Settles(job, s.invoices[job.id], s'.invoices[job.id])
        && s'.payments == s.payments + (if job.Pay? then [Payment(job.id, s.invoices[job.id].total)] else [])
        && s'.open == s.open
      else s' == s
  {
    var started := Next(s, Begin(t, job));
    assert started.open == s.open[t := Tx(job, Reading(job.id))];
    assert started.open - {t} == s.open;
    if Accepts(job, s.invoices[job.id]) {
      var swapped := Next(Next(started, Read(t)), Swap(t));
      assert swapped.open[t] == Tx(job, Holding(job.id, s.invoices[job.id]));
      assert swapped.open - {t} == s.open;
    }
  }

  /** A pending invoice can be paid at all exactly when its total is positive: the invoice of
      a plan that costs nothing stays pending until it is voided. */
  lemma PayableIffPositive(s: State, t: TxId, id: InvoiceId)
    requires Inv(s) && Idle(s, t) && id in s.invoices && s.invoices[id].status.Pending?
    ensures (exists paid :: IsPaid(Alone(s, t, Pay(id, paid, None)), id)) <==> s.invoices[id].total > 0
  {
    var total := s.invoices[id].total;
    forall paid
      ensures IsPaid(Alone(s, t, Pay(id, paid, None)), id) <==> Covers(paid, total)
    {
      JobAlone(s, t, Pay(id, paid, None));
    }
    if total > 0 {
      assert Covers(Some(total), total);
      assert IsPaid(Alone(s, t, Pay(id, Some(total), None)), id);
    }
  }

  /** In no run is an invoice paid whose total is not positive. */
  lemma NonPositiveNeverPaid(events: seq<Event>, id: InvoiceId)
    requires id in Run(events).invoices && Run(events).invoices[id].total <= 0
    ensures !Run(events).invoices[id].status.Paid?
  {
    Reachable(events);
  }

  /** The steps of one delivery, up to its payment. */
  function Delivered(s: State, t: TxId, job: Job, readable: bool, found: Option<InvoiceId>): State {
    var looked := Next(Next(Next(s, Begin(t, job)), Check(t, readable)), Find(t, found));
    Next(Next(Next(looked, Read(t)), Swap(t)), Commit(t))
  }

  /** A delivery alone pays the invoice its lookup gives it, if that accepts its whole cents; it
      pays nothing else. */
  lemma DeliveryAlone(s: State, t: TxId, job: Job, readable: bool, found: Option<InvoiceId>)
    requires Idle(s, t) && job.Webhook?
    ensures var s' := Delivered(s, t, job, readable, found);
      if (readable ==> job.key !in s.processed) && found.Some? && found.value in s.invoices
         && Matches(job.invoice, s.invoices[found.value].provider) && Accepts(job, s.invoices[found.value])
      then s'.invoices == s.invoices[found.value := Written(job, s.invoices[found.value])]
      else s'.invoices == s.invoices && s'.payments == s.payments
  {
    var checked := Next(Next(s, Begin(t, job)), Check(t, readable));
    if !(readable && job.key in s.processed) {
      assert checked.open == s.open[t := Tx(job, Finding)];
      var looked := Next(checked, Find(t, found));
      if looked.open[t].phase.Reading? && Accepts(job, s.invoices[found.value]) {
        var swapped := Next(Next(looked, Read(t)), Swap(t));
        assert swapped.open[t] == Tx(job, Holding(found.value, s.invoices[found.value]));
      }
    }
  }

  /** Some delivery with this key and this reference pays a pending invoice exactly when its
      mark is not there or cannot be read, the lookup matches the invoice, and the total is
      positive and of whole cents. */
  lemma DeliveryPaysIff(s: State, t: TxId, id: InvoiceId, key: string, reference: Reference, readable: bool)
    requires Idle(s, t) && id in s.invoices && s.invoices[id].status.Pending?
    ensures (exists cents, found :: IsPaid(Delivered(s, t, Webhook(key, reference, cents), readable, found), id))
       <==> (readable ==> key !in s.processed)
            && (reference.Missing? || s.invoices[id].provider == if reference.Named? then Some(reference.id) else None)
            && s.invoices[id].total > 0 && s.invoices[id].total % 100 == 0
  {
    var invoice := s.invoices[id];
    forall cents, found
      ensures IsPaid(Delivered(s, t, Webhook(key, reference, cents), readable, found), id) <==>
        (readable ==> key !in s.processed) && found == Some(id) && Matches(reference, invoice.provider)
        && Accepts(Webhook(key, reference, cents), invoice)
    {
      DeliveryAlone(s, t, Webhook(key, reference, cents), readable, found);
    }
    if (readable ==> key !in s.processed) && Matches(reference, invoice.provider)
       && invoice.total > 0 && invoice.total % 100 == 0 {
      var cents := invoice.total / 100;
      assert Accepts(Webhook(key, reference, cents), invoice);
      assert IsPaid(Delivered(s, t, Webhook(key, reference, cents), readable, Some(id)), id);
    }
  }

  /** Invoices are created without a provider id, as both of the service's inserts do. */
  predicate Unlinked(events: seq<Event>) {
    forall i | 0 <= i < |events| && events[i].Create? :: events[i].provider.None?
  }

  /** Every delivery's object carries an id. */
  predicate AllNamed(events: seq<Event>) {
    forall i | 0 <= i < |events| && events[i].Begin? && events[i].job.Webhook? :: events[i].job.invoice.Named?
  }

  predicate Ordinary(e: Event) {
    (e.Create? ==> e.provider.None?) && (e.Begin? && e.job.Webhook? ==> e.job.invoice.Named?)
  }

  /** A delivery has found an invoice that will accept its payment, or is paying it. */
  predicate Paying(s: State, t: TxId) {
    t in s.open && s.open[t].job.Webhook? && (s.open[t].phase.Swapping? || s.open[t].phase.Holding?)
  }

  predicate NonePaying(s: State) {
    forall t | t in s.open :: !Paying(s, t)
  }

  predicate LinkedArePaid(s: State) {
    && (forall id | id in s.invoices && s.invoices[id].provider.Some? :: s.invoices[id].status.Paid?)
    && (forall t | t in s.open :: NamedTx(s, s.open[t]))
    && NonePaying(s)
  }

  predicate NamedTx(s: State, tx: Tx) {
    tx.job.Webhook? ==> tx.job.invoice.Named? && (tx.phase.Reading? ==> IsPaid(s, tx.phase.id))
  }

  lemma CommitKeepsLinked(s: State, t: TxId)
    requires Inv(s) && LinkedArePaid(s) && t in s.open
    ensures LinkedArePaid(Commits(s, t, s.open[t]))
  {
    if s.open[t].phase.Holding? {
      var s' := Commits(s, t, s.open[t]);
      assert PhaseOk(s, s.open[t]);
      assert !Paying(s, t);
      forall u | u in s'.open
        ensures !Paying(s', u) && NamedTx(s', s'.open[u])
      {
        assert !Paying(s, u) && NamedTx(s, s.open[u]);
      }
    }
  }

  /** Only a commit writes an invoice that exists. */
  lemma LinksKept(s: State, e: Event)
    requires LinkedArePaid(s) && !e.Commit? && Ordinary(e)
    ensures forall id | id in Next(s, e).invoices && Next(s, e).invoices[id].provider.Some? :: IsPaid(Next(s, e), id)
    ensures forall id | IsPaid(s, id) :: IsPaid(Next(s, e), id)
  {
  }

  lemma TxStaysNamed(s: State, e: Event, t: TxId)
    requires LinkedArePaid(s) && !e.Commit? && Ordinary(e) && t in Next(s, e).open
    ensures !Paying(Next(s, e), t) && NamedTx(Next(s, e), Next(s, e).open[t])
  {
    LinksKept(s, e);
    assert t in s.open ==> !Paying(s, t) && NamedTx(s, s.open[t]);
  }

  lemma StepKeepsLinked(s: State, e: Event)
    requires Inv(s) && LinkedArePaid(s) && Ordinary(e)
    ensures LinkedArePaid(Next(s, e))
  {
    if e.Commit? {
      if e.t in s.open {
        CommitKeepsLinked(s, e.t);
      }
    } else {
      LinksKept(s, e);
      forall t | t in Next(s, e).open
        ensures !Paying(Next(s, e), t) && NamedTx(Next(s, e), Next(s, e).open[t])
      {
        TxStaysNamed(s, e, t);
      }
    }
  }

  lemma {:induction false} UnlinkedReachable(events: seq<Event>)
    requires Unlinked(events) && AllNamed(events)
    ensures LinkedArePaid(Run(events))
  {
    if events != [] {
      var init := events[..|events| - 1];
      UnlinkedReachable(init);
      Reachable(init);
      assert Ordinary(events[|events| - 1]);
      StepKeepsLinked(Run(init), events[|events| - 1]);
    }
  }

  lemma Do(before: seq<Event>, e: Event) returns (after: seq<Event>)
    ensures after == before + [e] && Run(after) == Next(Run(before), e)
  {
    after := before + [e];
    assert after[..|before|] == before;
  }

  lemma MatchingDeliveryFinds(provider: Option<string>, reference: Reference) returns (events: seq<Event>)
    requires Matches(reference, provider)
    ensures Run(events).invoices == map[0 := Invoice(Pending, 100, 0, provider)]
    ensures Run(events).open == map[0 := Tx(Webhook("k", reference, 1), Reading(0))]
    ensures provider.None? ==> Unlinked(events)
    ensures reference.Named? ==> AllNamed(events)
  {
    var job := Webhook("k", reference, 1);
    events := Do([], Create(0, 100, provider));
    events := Do(events, Begin(0, job));
    events := Do(events, Check(0, true));
    assert Run(events).open == map[0 := Tx(job, Finding)];
    events := Do(events, Find(0, Some(0)));
  }

  /** A delivery whose lookup matches a new invoice gets through to paying it. */
  lemma MatchingDeliveryPays(provider: Option<string>, reference: Reference) returns (events: seq<Event>)
    requires Matches(reference, provider)
    ensures Paying(Run(events), 0) && IsPaid(Run(events + [Swap(0), Commit(0)]), 0)
    ensures provider.None? ==> Unlinked(events)
    ensures reference.Named? ==> AllNamed(events)
  {
    var job, invoice := Webhook("k", reference, 1), Invoice(Pending, 100, 0, provider);
    var before := MatchingDeliveryFinds(provider, reference);
    events := Do(before, Read(0));
    assert Run(events).open == map[0 := Tx(job, Swapping(0, invoice))];
    var paid := Do(events, Swap(0));
    assert Run(paid).open[0] == Tx(job, Holding(0, invoice));
    paid := Do(paid, Commit(0));
    assert paid == events + [Swap(0), Commit(0)];
  }

  /** A provider id gets onto an invoice only together with its payment, so a delivery that
      names one never finds an invoice it could pay.  Some run has a delivery that pays,
      exactly if invoices could be created with a provider id, or deliveries come without. */
  lemma DeliveriesNeverPayIff(linked: bool, unnamed: bool)
    ensures (forall events | (linked || Unlinked(events)) && (unnamed || AllNamed(events)) :: NonePaying(Run(events)))
       <==> !linked && !unnamed
  {
    if linked {
      var events := MatchingDeliveryPays(Some("in"), Named("in"));
      assert !NonePaying(Run(events));
    }
    if unnamed {
      var events := MatchingDeliveryPays(None, Missing);
      assert !NonePaying(Run(events));
    }
    if !linked && !unnamed {
      forall events | Unlinked(events) && AllNamed(events)
        ensures NonePaying(Run(events))
      {
        UnlinkedReachable(events);
      }
    }
  }

  /** In runs with neither, no step of any delivery changes an invoice or adds a payment. */
  lemma DeliveriesChangeNothing(events: seq<Event>, t: TxId, e: Event)
    requires Unlinked(events) && AllNamed(events) && t in Run(events).open && Run(events).open[t].job.Webhook?
    requires e == Read(t) || e == Swap(t) || e == Commit(t) || e == Reread(t) || e == Crash(t)
             || (e.Check? && e.t == t) || (e.Find? && e.t == t) || (e.Mark? && e.t == t)
    ensures Next(Run(events), e).invoices == Run(events).invoices
    ensures Next(Run(events), e).payments == Run(events).payments
  {
    UnlinkedReachable(events);
    assert !Paying(Run(events), t);
  }

  /** A retry after a crash between the payment and its mark: handled, and nothing is paid
      again. */
  lemma RetryConverges(s: State, t: TxId, job: Job, id: InvoiceId)
    requires IsPaid(s, id) && t !in s.open
    requires job.Webhook? && job.key !in s.processed && Matches(job.invoice, s.invoices[id].provider)
    ensures var found := Next(Next(Next(s, Begin(t, job)), Check(t, true)), Find(t, Some(id)));
      Next(Next(Next(found, Read(t)), Reread(t)), Mark(t, true))
        == s.(processed := s.processed + {job.key}, handled := s.handled + [Handled(job.key, Some(id), false)])
  {
    var found := Next(Next(Next(s, Begin(t, job)), Check(t, true)), Find(t, Some(id)));
    assert found.open == s.open[t := Tx(job, Reading(id))];
    var reread := Next(Next(found, Read(t)), Reread(t));
    assert reread.open == s.open[t := Tx(job, Marking(Some(id)))];
    assert reread.open - {t} == s.open;
  }

  /** A mark that is lost does no harm: the delivery is looked at again, and nothing is paid
      again. */
  lemma ForgottenConverges(s: State, t: TxId, job: Job, id: InvoiceId)
    requires IsPaid(s, id) && t !in s.open && job.Webhook? && Matches(job.invoice, s.invoices[id].provider)
    ensures var lost := Next(s, Forget(job.key));
      var found := Next(Next(Next(lost, Begin(t, job)), Check(t, true)), Find(t, Some(id)));
      Next(Next(Next(found, Read(t)), Reread(t)), Mark(t, true))
        == s.(processed := s.processed + {job.key}, handled := s.handled + [Handled(job.key, Some(id), false)])
  {
    RetryConverges(Next(s, Forget(job.key)), t, job, id);
    assert s.processed - {job.key} + {job.key} == s.processed + {job.key};
  }

  /** A delivery that crashes after its payment and before its mark, and comes again: one
      payment, and answered as handled. */
  lemma CrashedPaymentConverges(s: State, t: TxId, job: Job, id: InvoiceId)
    requires Idle(s, t) && job.Webhook? && job.key !in s.processed && id in s.invoices
    requires Matches(job.invoice, s.invoices[id].provider) && Accepts(job, s.invoices[id])
    ensures var crashed := Next(Delivered(s, t, job, true, Some(id)), Crash(t));
      var found := Next(Next(Next(crashed, Begin(t, job)), Check(t, true)), Find(t, Some(id)));
      var s' := Next(Next(Next(found, Read(t)), Reread(t)), Mark(t, true));
      && IsPaid(s', id) && s'.payments == s.payments + [Payment(id, s.invoices[id].total)]
      && s'.handled == s.handled + [Handled(job.key, Some(id), false)] && s'.open == s.open
  {
    DeliveredPays(s, t, job, id);
    RetryConverges(Next(Delivered(s, t, job, true, Some(id)), Crash(t)), t, job, id);
  }

  lemma DeliveredPays(s: State, t: TxId, job: Job, id: InvoiceId)
    requires Idle(s, t) && job.Webhook? && job.key !in s.processed && id in s.invoices
    requires Matches(job.invoice, s.invoices[id].provider) && Accepts(job, s.invoices[id])
    ensures var crashed := Next(Delivered(s, t, job, true, Some(id)), Crash(t));
      && IsPaid(crashed, id) && crashed.payments == s.payments + [Payment(id, s.invoices[id].total)]
      && Matches(job.invoice, crashed.invoices[id].provider)
      && crashed.handled == s.handled && crashed.processed == s.processed && crashed.open == s.open
  {
    var looked := Next(Next(Next(s, Begin(t, job)), Check(t, true)), Find(t, Some(id)));
    assert looked.open == s.open[t := Tx(job, Reading(id))];
    var swapped := Next(Next(looked, Read(t)), Swap(t));
    assert swapped.open == s.open[t := Tx(job, Holding(id, s.invoices[id]))];
    assert Next(swapped, Commit(t)).open - {t} == s.open;
  }

  /** A delivery is handled without an invoice exactly if no invoice has the id it names; and then
      nothing is written but its mark. */
  lemma NotFoundIff(s: State, t: TxId, job: Job)
    requires t !in s.open && job.Webhook? && job.key !in s.processed
    ensures var s' := Next(Next(Next(Next(s, Begin(t, job)), Check(t, true)), Find(t, None)), Mark(t, true));
      && s'.invoices == s.invoices && s'.payments == s.payments
      && (s'.handled == s.handled + [Handled(job.key, None, false)] <==>
            forall id | id in s.invoices :: !Matches(job.invoice, s.invoices[id].provider))
      && (s'.processed == s.processed <==>
            exists id | id in s.invoices :: Matches(job.invoice, s.invoices[id].provider))
  {
    var checked := Next(Next(s, Begin(t, job)), Check(t, true));
    assert checked.open == s.open[t := Tx(job, Finding)];
    if forall id | id in s.invoices :: !Matches(job.invoice, s.invoices[id].provider) {
      assert job.key in s.processed + {job.key};
    }
  }
}
