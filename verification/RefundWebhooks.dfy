/**
 charge.refunded deliveries: any multiset of them, in any order and interleaving, with
 crashes anywhere, invoices that become known late, and processed marks that are lost.

 A refund row is inserted under a composed key with a unique index; a lost insert is a
 no-op.  Text is a sequence of UTF-16 code units.
 */
module RefundWebhooks {
  import opened JsonText
  import opened Wrappers

  type EventKey = string

  type TxId = nat

  /** "stripe-refund:" */
  const PREFIX: Str := [115, 116, 114, 105, 112, 101, 45, 114, 101, 102, 117, 110, 100, 58]
  const COLON: Unit := 58

  /** What one provider event says; it says the same whenever it is sent again. */
  datatype Charge = Charge(id: Str, invoice: Option<Str>, refunded: Num)

  /** A refund operation: the charge and its cumulative refunded amount. */
  datatype Refund = Refund(charge: Str, amount: Num)

  datatype Row = Row(key: Str, refund: Refund)

  /** Linked: the delivery named a charge and found the charge's invoice. */
  datatype Phase = Checking | Looking | Inserting | Marking(linked: bool)

  datatype Tx = Tx(event: EventKey, phase: Phase)

  datatype Completion = Completion(event: EventKey, linked: bool)

  datatype State = State(
    known: set<Str>,
    rows: seq<Row>,
    open: map<TxId, Tx>,
    processed: set<EventKey>,
    begun: set<EventKey>,
    completed: seq<Completion>)

  datatype Event =
    | Begin(t: TxId, event: EventKey)
    | Check(t: TxId, readable: bool)
    | Look(t: TxId)
    | Insert(t: TxId)
    | Mark(t: TxId, stored: bool)
    | Crash(t: TxId)
    | Learn(invoice: Str)
    | Lose(invoice: Str)
    | Forget(event: EventKey)

  const INITIAL := State({}, [], map[], {}, {}, [])

  function RefundKey(r: Refund): Str {
    PREFIX + (r.charge + ([COLON] + NumText(r.amount)))
  }

  function RefundOf(charge: Charge): Refund {
    Refund(charge.id, charge.refunded)
  }

  predicate Linkable(known: set<Str>, charge: Charge) {
    charge.id != [] && charge.invoice.Some? && charge.invoice.value != [] && charge.invoice.value in known
  }

  predicate KeyTaken(rows: seq<Row>, key: Str) {
    exists i | 0 <= i < |rows| :: rows[i].key == key
  }

  predicate Recorded(rows: seq<Row>, refund: Refund) {
    exists i | 0 <= i < |rows| :: rows[i].refund == refund
  }

  function Goto(s: State, t: TxId, phase: Phase): State
    requires t in s.open
  {
    s.(open := s.open[t := s.open[t].(phase := phase)])
  }

  function Close(s: State, t: TxId): State {
    s.(open := s.open - {t})
  }

  function Inserts(s: State, t: TxId, refund: Refund): State
    requires t in s.open
  {
    if KeyTaken(s.rows, RefundKey(refund)) then Goto(s, t, Marking(true))
    else Goto(s, t, Marking(true)).(rows := s.rows + [Row(RefundKey(refund), refund)])
  }

  function Marks(s: State, t: TxId, tx: Tx, stored: bool): State
    requires tx.phase.Marking?
  {
    Close(s, t).(
      processed := if stored then s.processed + {tx.event} else s.processed,
      completed := s.completed + [Completion(tx.event, tx.phase.linked)])
  }

  function TxStep(payload: EventKey -> Charge, s: State, e: Event, t: TxId): State
    requires t in s.open
  {
    var tx := s.open[t];
    var charge := payload(tx.event);
    match tx.phase
    case Checking =>
      if !e.Check? then s
      else if e.readable && tx.event in s.processed then Close(s, t)
      else Goto(s, t, Looking)
    case Looking =>
      if !e.Look? then s
      else if Linkable(s.known, charge) then Goto(s, t, Inserting)
      else Goto(s, t, Marking(false))
    case Inserting => if e.Insert? then Inserts(s, t, RefundOf(charge)) else s
    case Marking(_) => if e.Mark? then Marks(s, t, tx, e.stored) else s
  }

  /** One atomic step; an event that is not enabled changes nothing. */
  function Next(payload: EventKey -> Charge, s: State, e: Event): State {
    match e
    case Begin(t, event) =>
      if t in s.open then s else s.(open := s.open[t := Tx(event, Checking)], begun := s.begun + {event})
    case Crash(t) => Close(s, t)
    case Learn(invoice) => s.(known := s.known + {invoice})
    case Lose(invoice) => s.(known := s.known - {invoice})
    case Forget(event) => s.(processed := s.processed - {event})
    case _ => if e.t in s.open then TxStep(payload, s, e, e.t) else s
  }

  function Run(payload: EventKey -> Charge, events: seq<Event>): State {
    if events == [] then INITIAL
    else Next(payload, Run(payload, events[..|events| - 1]), events[|events| - 1])
  }

  // ---------------------------------------------------------------------------------
  // The composed key
  // ---------------------------------------------------------------------------------

  lemma NoColon(n: Num)
    ensures COLON !in NumText(n)
  {
    NumUnits(n);
  }

  lemma LastColon(a: Str, b: Str, s: Str, t: Str)
    requires COLON !in t && |s| < |t|
    ensures a + ([COLON] + s) != b + ([COLON] + t)
  {
    var x, y := a + ([COLON] + s), b + ([COLON] + t);
    if |x| == |y| {
      assert x[|a|] == COLON && y[|a|] == t[|a| - |b| - 1];
    }
  }

  lemma SplitsAtLastColon(a: Str, b: Str, s: Str, t: Str)
    requires COLON !in s && COLON !in t && a + ([COLON] + s) == b + ([COLON] + t)
    ensures a == b && s == t
  {
    if |s| < |t| {
      LastColon(a, b, s, t);
    } else if |t| < |s| {
      LastColon(b, a, t, s);
    }
    var x, y := a + ([COLON] + s), b + ([COLON] + t);
    assert x[..|a|] == a && y[..|a|] == b;
    assert x[|a| + 1..] == s && y[|a| + 1..] == t;
  }

  /** The key says which refund it is, whatever the charge id contains. */
  lemma RefundKeyInjective(a: Refund, b: Refund)
    ensures RefundKey(a) == RefundKey(b) <==> a == b
  {
    if RefundKey(a) == RefundKey(b) {
      assert RefundKey(a)[|PREFIX|..] == a.charge + ([COLON] + NumText(a.amount));
      assert RefundKey(b)[|PREFIX|..] == b.charge + ([COLON] + NumText(b.amount));
      NoColon(a.amount);
      NoColon(b.amount);
      SplitsAtLastColon(a.charge, b.charge, NumText(a.amount), NumText(b.amount));
      NumTextInjective(a.amount, b.amount);
    }
  }

  // ---------------------------------------------------------------------------------
  // The invariant of every reachable state
  // ---------------------------------------------------------------------------------

  predicate RowsOk(rows: seq<Row>) {
    && (forall i | 0 <= i < |rows| :: rows[i].key == RefundKey(rows[i].refund))
    && forall i, j | 0 <= i < j < |rows| :: rows[i].key != rows[j].key
  }

  ghost predicate Asked(payload: EventKey -> Charge, s: State, refund: Refund) {
    exists event | event in s.begun :: RefundOf(payload(event)) == refund
  }

  ghost predicate RowsAsked(payload: EventKey -> Charge, s: State) {
    forall i | 0 <= i < |s.rows| :: Asked(payload, s, s.rows[i].refund)
  }

  predicate TxOk(payload: EventKey -> Charge, s: State, tx: Tx) {
    tx.event in s.begun &&
    (tx.phase.Marking? && tx.phase.linked ==> Recorded(s.rows, RefundOf(payload(tx.event))))
  }

  predicate TxsOk(payload: EventKey -> Charge, s: State) {
    forall t | t in s.open :: TxOk(payload, s, s.open[t])
  }

  predicate CompletionsOk(payload: EventKey -> Charge, s: State) {
    forall i | 0 <= i < |s.completed| ::
      s.completed[i].linked ==> Recorded(s.rows, RefundOf(payload(s.completed[i].event)))
  }

  predicate Completed(s: State, event: EventKey) {
    exists i | 0 <= i < |s.completed| :: s.completed[i].event == event
  }

  predicate ProcessedOk(s: State) {
    forall event | event in s.processed :: Completed(s, event)
  }

  ghost predicate Inv(payload: EventKey -> Charge, s: State) {
    RowsOk(s.rows) && RowsAsked(payload, s) && TxsOk(payload, s) && CompletionsOk(payload, s) && ProcessedOk(s)
  }

  lemma KeyTakenIffRecorded(rows: seq<Row>, refund: Refund)
    requires RowsOk(rows)
    ensures KeyTaken(rows, RefundKey(refund)) <==> Recorded(rows, refund)
  {
    forall i | 0 <= i < |rows|
      ensures rows[i].key == RefundKey(refund) <==> rows[i].refund == refund
    {
      RefundKeyInjective(rows[i].refund, refund);
    }
  }

  /** Rows are only added, so whatever was recorded still is. */
  lemma GrowthKeeps(payload: EventKey -> Charge, s: State, s': State)
    requires Inv(payload, s)
    requires s.rows <= s'.rows && s.begun <= s'.begun
    requires s'.completed == s.completed && s'.processed <= s.processed
    requires RowsOk(s'.rows) && RowsAsked(payload, s')
    requires forall t | t in s'.open :: (t in s.open && s'.open[t] == s.open[t]) || TxOk(payload, s', s'.open[t])
    ensures Inv(payload, s')
  {
    forall refund | Recorded(s.rows, refund)
      ensures Recorded(s'.rows, refund)
    {
      var i :| 0 <= i < |s.rows| && s.rows[i].refund == refund;
      assert s'.rows[i].refund == refund;
    }
    forall t | t in s'.open
      ensures TxOk(payload, s', s'.open[t])
    {
      assert t in s.open && s'.open[t] == s.open[t] ==> TxOk(payload, s, s.open[t]);
    }
    forall event | event in s'.processed
      ensures Completed(s', event)
    {
      assert Completed(s, event);
    }
  }

  lemma AskedStill(payload: EventKey -> Charge, s: State, s': State)
    requires RowsAsked(payload, s) && s'.rows == s.rows && s.begun <= s'.begun
    ensures RowsAsked(payload, s')
  {
    forall i | 0 <= i < |s'.rows|
      ensures Asked(payload, s', s'.rows[i].refund)
    {
      assert Asked(payload, s, s.rows[i].refund);
    }
  }

  lemma InsertKeeps(payload: EventKey -> Charge, s: State, t: TxId)
    requires Inv(payload, s) && t in s.open
    ensures Inv(payload, Inserts(s, t, RefundOf(payload(s.open[t].event))))
  {
    var refund := RefundOf(payload(s.open[t].event));
    var s' := Inserts(s, t, refund);
    assert TxOk(payload, s, s.open[t]);
    KeyTakenIffRecorded(s.rows, refund);
    if Recorded(s.rows, refund) {
      AskedStill(payload, s, s');
    } else {
      var last := |s.rows|;
      assert s'.rows[last].refund == refund;
      assert Asked(payload, s', refund);
      forall i | 0 <= i < |s'.rows|
        ensures Asked(payload, s', s'.rows[i].refund)
      {
        assert i < last ==> Asked(payload, s, s.rows[i].refund);
      }
    }
    GrowthKeeps(payload, s, s');
  }

  lemma MarkKeeps(payload: EventKey -> Charge, s: State, t: TxId, stored: bool)
    requires Inv(payload, s) && t in s.open && s.open[t].phase.Marking?
    ensures Inv(payload, Marks(s, t, s.open[t], stored))
  {
    var tx := s.open[t];
    var s' := Marks(s, t, tx, stored);
    assert TxOk(payload, s, tx);
    AskedStill(payload, s, s');
    forall u | u in s'.open
      ensures TxOk(payload, s', s'.open[u])
    {
      assert TxOk(payload, s, s.open[u]);
    }
    forall event | event in s'.processed
      ensures Completed(s', event)
    {
      if event in s.processed {
        assert Completed(s, event);
        var i :| 0 <= i < |s.completed| && s.completed[i].event == event;
        assert s'.completed[i].event == event;
      } else {
        assert s'.completed[|s.completed|].event == event;
      }
    }
  }

  lemma StepKeepsInv(payload: EventKey -> Charge, s: State, e: Event)
    requires Inv(payload, s)
    ensures Inv(payload, Next(payload, s, e))
  {
    var s' := Next(payload, s, e);
    if (e.Check? || e.Look? || e.Insert? || e.Mark?) && e.t in s.open {
      assert TxOk(payload, s, s.open[e.t]);
    }
    if e.Insert? && e.t in s.open && s.open[e.t].phase.Inserting? {
      InsertKeeps(payload, s, e.t);
    } else if e.Mark? && e.t in s.open && s.open[e.t].phase.Marking? {
      MarkKeeps(payload, s, e.t, e.stored);
    } else {
      AskedStill(payload, s, s');
      GrowthKeeps(payload, s, s');
    }
  }

  lemma {:induction false} Reachable(payload: EventKey -> Charge, events: seq<Event>)
    ensures Inv(payload, Run(payload, events))
  {
    if events != [] {
      Reachable(payload, events[..|events| - 1]);
      StepKeepsInv(payload, Run(payload, events[..|events| - 1]), events[|events| - 1]);
    }
  }

  // ---------------------------------------------------------------------------------
  // Main results
  // ---------------------------------------------------------------------------------

  /** At most one row for each charge and cumulative amount. */
  lemma AtMostOnce(payload: EventKey -> Charge, events: seq<Event>, i: nat, j: nat)
    requires i < j < |Run(payload, events).rows|
    ensures Run(payload, events).rows[i].refund != Run(payload, events).rows[j].refund
  {
    Reachable(payload, events);
  }

  /** A completed delivery that found its invoice has its row, exactly one. */
  lemma CompletedIsRecorded(payload: EventKey -> Charge, events: seq<Event>, i: nat)
    requires i < |Run(payload, events).completed| && Run(payload, events).completed[i].linked
    ensures var s := Run(payload, events);
      var charge := payload(s.completed[i].event);
      var refund := Refund(charge.id, charge.refunded);
      exists k | 0 <= k < |s.rows| :: s.rows[k].refund == refund
                                      && forall m | 0 <= m < |s.rows| && s.rows[m].refund == refund :: m == k
  {
    Reachable(payload, events);
    var s := Run(payload, events);
    var refund := RefundOf(payload(s.completed[i].event));
    assert Recorded(s.rows, refund);
    var k :| 0 <= k < |s.rows| && s.rows[k].refund == refund;
    assert forall m | 0 <= m < |s.rows| && s.rows[m].refund == refund :: m == k;
  }

  ghost predicate AllCompletedLinked(s: State) {
    forall event | event in s.begun :: exists i | 0 <= i < |s.completed| :: s.completed[i] == Completion(event, true)
  }

  /** Set semantics: once every event has completed with its invoice, the table holds exactly
      the refunds the events speak of, however often and in whatever order they came. */
  lemma SetSemantics(payload: EventKey -> Charge, events: seq<Event>)
    requires AllCompletedLinked(Run(payload, events))
    ensures var s := Run(payload, events);
      (set i | 0 <= i < |s.rows| :: s.rows[i].refund)
        == (set event | event in s.begun :: Refund(payload(event).id, payload(event).refunded))
  {
    Reachable(payload, events);
    var s := Run(payload, events);
    var rows := set i | 0 <= i < |s.rows| :: s.rows[i].refund;
    var asked := set event | event in s.begun :: Refund(payload(event).id, payload(event).refunded);
    forall refund | refund in rows
      ensures refund in asked
    {
      var i :| 0 <= i < |s.rows| && s.rows[i].refund == refund;
      assert Asked(payload, s, s.rows[i].refund);
    }
    forall refund | refund in asked
      ensures refund in rows
    {
      var event :| event in s.begun && RefundOf(payload(event)) == refund;
      var i :| 0 <= i < |s.completed| && s.completed[i] == Completion(event, true);
      assert s.completed[i].linked;
      assert Recorded(s.rows, refund);
    }
  }

  function Delivered(payload: EventKey -> Charge, s: State, t: TxId, event: EventKey): State {
    var looked := Next(payload, Next(payload, Next(payload, s, Begin(t, event)), Check(t, true)), Look(t));
    Next(payload, Next(payload, looked, Insert(t)), Mark(t, true))
  }

  /** A delivery on its own leaves its refund recorded exactly when it was recorded already,
      or the invoice is known and the event is not marked yet: an event that came before its
      invoice was known is marked all the same, and its refund is never recorded. */
  lemma DeliveredIsRecordedIff(payload: EventKey -> Charge, s: State, t: TxId, event: EventKey)
    requires Inv(payload, s) && t !in s.open
    ensures var charge := payload(event); var refund := Refund(charge.id, charge.refunded);
      Recorded(Delivered(payload, s, t, event).rows, refund) <==>
        Recorded(s.rows, refund)
        || (charge.id != [] && charge.invoice.Some? && charge.invoice.value != [] && charge.invoice.value in s.known
            && event !in s.processed)
  {
    var refund := RefundOf(payload(event));
    var begun := Next(payload, s, Begin(t, event));
    KeyTakenIffRecorded(s.rows, refund);
    if event in s.processed {
      assert Next(payload, begun, Check(t, true)) == Close(begun, t);
    } else if Linkable(s.known, payload(event)) {
      var looked := Next(payload, Next(payload, begun, Check(t, true)), Look(t));
      assert looked.open[t] == Tx(event, Inserting) && looked.rows == s.rows;
      var inserted := Next(payload, looked, Insert(t));
      assert !Recorded(s.rows, refund) ==> inserted.rows[|s.rows|].refund == refund;
      assert Recorded(inserted.rows, refund);
    }
  }

  /** That loss happens: the event arrives, its invoice becomes known, the event arrives
      again. */
  lemma EarlyRefundIsLost(payload: EventKey -> Charge, event: EventKey)
    requires payload(event).invoice.Some? && Linkable({payload(event).invoice.value}, payload(event))
    ensures var known := Next(payload, Delivered(payload, INITIAL, 0, event), Learn(payload(event).invoice.value));
      Linkable(known.known, payload(event)) && Delivered(payload, known, 0, event).rows == []
  {
    var early := Delivered(payload, INITIAL, 0, event);
    assert early.rows == [] && event in early.processed && early.open == map[];
  }

  /** The other way to lose a refund: the invoice's provider id is gone before the event comes,
      and back before it comes again. */
  lemma LostInvoiceLosesRefund(payload: EventKey -> Charge, s: State, t: TxId, event: EventKey)
    requires Inv(payload, s) && t !in s.open && event !in s.processed && payload(event).invoice.Some?
    ensures var invoice, refund := payload(event).invoice.value, Refund(payload(event).id, payload(event).refunded);
      var early := Delivered(payload, Next(payload, s, Lose(invoice)), t, event);
      var again := Delivered(payload, Next(payload, early, Learn(invoice)), t, event);
      Recorded(again.rows, refund) <==> Recorded(s.rows, refund)
  {
    var invoice := payload(event).invoice.value;
    var lost := Next(payload, s, Lose(invoice));
    var begun := Next(payload, lost, Begin(t, event));
    var looked := Next(payload, Next(payload, begun, Check(t, true)), Look(t));
    assert looked.open[t] == Tx(event, Marking(false)) && looked.rows == s.rows;
    var early := Delivered(payload, lost, t, event);
    assert early.rows == s.rows && event in early.processed && t !in early.open;
    var known := Next(payload, early, Learn(invoice));
    var rebegun := Next(payload, known, Begin(t, event));
    assert Next(payload, rebegun, Check(t, true)) == Close(rebegun, t);
  }

  lemma RecordedAgain(payload: EventKey -> Charge, s: State, t: TxId, event: EventKey)
    requires Inv(payload, s) && t !in s.open && event !in s.processed && Linkable(s.known, payload(event))
    requires Recorded(s.rows, RefundOf(payload(event)))
    ensures var s' := Delivered(payload, s, t, event);
      && s'.rows == s.rows && s'.open == s.open && s'.processed == s.processed + {event}
      && s'.completed == s.completed + [Completion(event, true)]
  {
    KeyTakenIffRecorded(s.rows, RefundOf(payload(event)));
    var begun := Next(payload, s, Begin(t, event));
    var looked := Next(payload, Next(payload, begun, Check(t, true)), Look(t));
    assert looked.open == s.open[t := Tx(event, Inserting)];
    var inserted := Next(payload, looked, Insert(t));
    assert inserted.open == s.open[t := Tx(event, Marking(true))];
    assert inserted.open - {t} == s.open;
  }

  /** A mark that is lost does no harm: the event completes again and the table stays. */
  lemma ForgottenConverges(payload: EventKey -> Charge, s: State, t: TxId, event: EventKey)
    requires Inv(payload, s) && t !in s.open && Linkable(s.known, payload(event))
    requires Recorded(s.rows, Refund(payload(event).id, payload(event).refunded))
    ensures var s' := Delivered(payload, Next(payload, s, Forget(event)), t, event);
      s'.rows == s.rows && event in s'.processed && s'.completed == s.completed + [Completion(event, true)]
  {
    StepKeepsInv(payload, s, Forget(event));
    RecordedAgain(payload, Next(payload, s, Forget(event)), t, event);
  }

  /** Nor does a crash after the insert and before the mark: the refund is recorded once. */
  lemma CrashedInsertConverges(payload: EventKey -> Charge, s: State, t: TxId, event: EventKey)
    requires Inv(payload, s) && t !in s.open && event !in s.processed && Linkable(s.known, payload(event))
    requires !Recorded(s.rows, Refund(payload(event).id, payload(event).refunded))
    ensures var looked := Next(payload, Next(payload, Next(payload, s, Begin(t, event)), Check(t, true)), Look(t));
      var crashed := Next(payload, Next(payload, looked, Insert(t)), Crash(t));
      var s' := Delivered(payload, crashed, t, event);
      && |s'.rows| == |s.rows| + 1 && s'.rows[..|s.rows|] == s.rows
      && s'.rows[|s.rows|].refund == Refund(payload(event).id, payload(event).refunded)
      && s'.completed == s.completed + [Completion(event, true)] && event in s'.processed
  {
    var refund := RefundOf(payload(event));
    KeyTakenIffRecorded(s.rows, refund);
    var begun := Next(payload, s, Begin(t, event));
    var checked := Next(payload, begun, Check(t, true));
    var looked := Next(payload, checked, Look(t));
    assert looked.open == s.open[t := Tx(event, Inserting)] && looked.rows == s.rows;
    var inserted := Next(payload, looked, Insert(t));
    var crashed := Next(payload, inserted, Crash(t));
    assert inserted.rows == s.rows + [Row(RefundKey(refund), refund)] && crashed.rows == inserted.rows;
    StepKeepsInv(payload, s, Begin(t, event));
    StepKeepsInv(payload, begun, Check(t, true));
    StepKeepsInv(payload, checked, Look(t));
    StepKeepsInv(payload, looked, Insert(t));
    StepKeepsInv(payload, inserted, Crash(t));
    assert crashed.rows[|s.rows|].refund == refund;
    RecordedAgain(payload, crashed, t, event);
  }
}
