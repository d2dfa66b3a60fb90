/**
 The subscription service and its repository as methods on one company's stored rows, and
 the proof that a command served alone by the concurrent protocol does what they do.
 */
module SubscriptionService {
  import opened Wrappers
  import opened Subscription

  datatype Result = Done | Unchanged | NotFound | BadRequest | Conflict

  /** One entry of an update's data: a scalar column, or the relation to a plan. */
  datatype Field =
    | SetStatus(status: Status)
    | SetPeriodEnd(end: int)
    | SetProvider(id: string)
    | ConnectPlan(plan: string)

  function Put(sub: Sub, field: Field): Sub {
    match field
    case SetStatus(status) => sub.(core := sub.core.(status := status))
    case SetPeriodEnd(end) => sub.(core := sub.core.(periodEnd := Some(end)))
    case SetProvider(id) => sub.(provider := id)
    case ConnectPlan(plan) => sub.(core := sub.core.(plan := plan))
  }

  function PutAll(sub: Sub, data: seq<Field>): Sub {
    if data == [] then sub else Put(PutAll(sub, data[..|data| - 1]), data[|data| - 1])
  }

  function Scalars(data: seq<Field>): seq<Field> {
    if data == [] then []
    else
      var last := data[|data| - 1];
      Scalars(data[..|data| - 1]) + if last.ConnectPlan? then [] else [last]
  }

  function Relations(data: seq<Field>): seq<Field> {
    if data == [] then []
    else
      var last := data[|data| - 1];
      Relations(data[..|data| - 1]) + if last.ConnectPlan? then [last] else []
  }

  lemma PutAllMore(sub: Sub, data: seq<Field>, field: Field)
    ensures PutAll(sub, data + [field]) == Put(PutAll(sub, data), field)
  {
    assert (data + [field])[..|data|] == data;
  }

  /** A scalar write and earlier relation writes do not touch each other. */
  lemma {:induction false} PutBefore(sub: Sub, data: seq<Field>, field: Field)
    requires !field.ConnectPlan?
    ensures PutAll(Put(sub, field), Relations(data)) == Put(PutAll(sub, Relations(data)), field)
  {
    if data != [] {
      var init, last := data[..|data| - 1], data[|data| - 1];
      PutBefore(sub, init, field);
      if last.ConnectPlan? {
        PutAllMore(sub, Relations(init), last);
        PutAllMore(Put(sub, field), Relations(init), last);
      } else {
        assert Relations(data) == Relations(init);
      }
    }
  }

  /** Splitting an update into its scalar part and then its relation part loses nothing. */
  lemma {:induction false} SplitIsWhole(sub: Sub, data: seq<Field>)
    ensures PutAll(PutAll(sub, Scalars(data)), Relations(data)) == PutAll(sub, data)
  {
    if data != [] {
      var init, last := data[..|data| - 1], data[|data| - 1];
      SplitIsWhole(sub, init);
      if last.ConnectPlan? {
        PutAllMore(PutAll(sub, Scalars(init)), Relations(init), last);
        assert Scalars(data) == Scalars(init);
      } else {
        assert Relations(data) == Relations(init);
        PutAllMore(sub, Scalars(init), last);
        PutBefore(PutAll(sub, Scalars(init)), init, last);
      }
    }
  }

  method Split(data: seq<Field>) returns (scalarData: seq<Field>, relationData: seq<Field>)
    ensures scalarData == Scalars(data) && relationData == Relations(data)
  {
    scalarData, relationData := [], [];
    for i := 0 to |data|
      invariant scalarData == Scalars(data[..i]) && relationData == Relations(data[..i])
    {
      assert data[..i + 1][..i] == data[..i];
      if data[i].ConnectPlan? {
        relationData := relationData + [data[i]];
      } else {
        scalarData := scalarData + [data[i]];
      }
    }
    assert data[..|data|] == data;
  }

  /** What one command does to the row when no other transaction is around. */
  function Served(command: Command, row: Option<Sub>, newEnd: int): Option<Sub> {
    if row.None? || !Accepts(command, row.value.core.status) then row
    else Some(row.value.(core := Written(command, row.value.core, newEnd), version := row.value.version + 1))
  }

  function Trail(command: Command, row: Option<Sub>): seq<Audit> {
    if row.Some? && ChangesStatus(command) && Accepts(command, row.value.core.status)
    then [Audit(command, row.value.core.status, Target(command))] else []
  }

  function Reply(command: Command, row: Option<Sub>): Result {
    if row.None? then NotFound
    else if Accepts(command, row.value.core.status) then Done
    else if command.Downgrade? then Unchanged
    else BadRequest
  }

  /** One version on, and nothing changed but what the command may change. */
  predicate Effected(command: Command, newEnd: int, before: Option<Sub>, after: Option<Sub>) {
    && before.Some? && after.Some? && Effect(command, newEnd, before.value.core, after.value.core)
    && after.value == before.value.(core := after.value.core, version := before.value.version + 1)
  }

  /** The newest invoice is due when the period ends, or in 30 days where there is no period. */
  predicate NewestDue(invoices: seq<Invoice>, end: Option<int>, now: int) {
    invoices != [] && match end
      case Some(date) => invoices[|invoices| - 1].due == date
      case None => invoices[|invoices| - 1].due == now + 30 * 24 * 60 * 60 * 1000
  }

  class Company {
    var row: Option<Sub>
    var audits: seq<Audit>
    var invoices: seq<Invoice>

    constructor (created: Core)
      ensures row == Some(Sub(created, 0, "", 0)) && audits == [] && invoices == []
    {
      row, audits, invoices := Some(Sub(created, 0, "", 0)), [], [];
    }

    /** The compare-and-swap when a version is given, a plain update when not. */
    method UpdateByCompany(data: seq<Field>, rowVersion: Option<nat>) returns (r: Result)
      modifies `row
      ensures r.NotFound? <==> old(row).None?
      ensures r.Conflict? <==> old(row).Some? && rowVersion.Some? && rowVersion.value != old(row).value.version
      ensures r.NotFound? || r.Conflict? || r.Done?
      ensures r.Done? ==>
        var sub := PutAll(old(row).value, data);
        row == Some(if rowVersion.Some? then sub.(version := sub.version + 1) else sub)
      ensures !r.Done? ==> row == old(row)
    {
      if rowVersion.Some? {
        var scalarData, relationData := Split(data);
        if row.None? {
          return NotFound;
        }
        if row.value.version != rowVersion.value {
          return Conflict;
        }
        ghost var before := row.value;
        row := Some(PutAll(row.value, scalarData));
        SplitIsWhole(before, data);
        VersionApart(row.value, relationData);
        row := Some(row.value.(version := row.value.version + 1));
        if relationData != [] {
          row := Some(PutAll(row.value, relationData));
        }
        return Done;
      }
      if row.None? {
        return NotFound;
      }
      row := Some(PutAll(row.value, data));
      return Done;
    }

    method ChangePlan(plans: set<string>, newPlanCode: string) returns (r: Result)
      modifies `row
      ensures row == if newPlanCode in plans then Served(Command.ChangePlan(newPlanCode), old(row), 0) else old(row)
      ensures r == if newPlanCode in plans then Reply(Command.ChangePlan(newPlanCode), old(row)) else NotFound
      ensures r.Done? <==> old(row).Some? && newPlanCode in plans
      ensures r.Done? ==> Effected(Command.ChangePlan(newPlanCode), 0, old(row), row)
    {
      if row.None? || newPlanCode !in plans {
        return NotFound;
      }
      WrittenIsPut(Command.ChangePlan(newPlanCode), row.value, 0);
      r := UpdateByCompany([ConnectPlan(newPlanCode)], Some(row.value.version));
    }

    method Cancel() returns (r: Result)
      modifies `row, `audits
      ensures row == Served(Command.Cancel, old(row), 0) && audits == old(audits) + Trail(Command.Cancel, old(row))
      ensures r == Reply(Command.Cancel, old(row))
      ensures r.Done? <==> old(row).Some? && !old(row).value.core.status.Cancelled? && !old(row).value.core.status.Expired?
      ensures r.Done? ==> Effected(Command.Cancel, 0, old(row), row) && row.value.core.status.Cancelled?
      ensures r.Done? ==> audits == old(audits) + [Audit(Command.Cancel, old(row).value.core.status, Cancelled)]
    {
      if row.None? {
        return NotFound;
      }
      var status := row.value.core.status;
      if status == Cancelled || status == Expired {
        return BadRequest;
      }
      WrittenIsPut(Command.Cancel, row.value, 0);
      r := UpdateByCompany([SetStatus(Cancelled)], Some(row.value.version));
      audits := audits + [Audit(Command.Cancel, status, Cancelled)];
    }

    method Resume() returns (r: Result)
      modifies `row, `audits
      ensures row == Served(Command.Resume, old(row), 0) && audits == old(audits) + Trail(Command.Resume, old(row))
      ensures r == Reply(Command.Resume, old(row))
      ensures r.Done? <==> old(row).Some? && old(row).value.core.status.Cancelled?
      ensures r.Done? ==> Effected(Command.Resume, 0, old(row), row) && row.value.core.status.Active?
      ensures r.Done? ==> audits == old(audits) + [Audit(Command.Resume, Cancelled, Active)]
    {
      if row.None? {
        return NotFound;
      }
      var status := row.value.core.status;
      if status != Cancelled {
        return BadRequest;
      }
      WrittenIsPut(Command.Resume, row.value, 0);
      r := UpdateByCompany([SetStatus(Active)], Some(row.value.version));
      audits := audits + [Audit(Command.Resume, status, Active)];
    }

    method TransitionStatus(target: Status) returns (r: Result)
      modifies `row, `audits
      ensures row == Served(Transition(target), old(row), 0)
      ensures audits == old(audits) + Trail(Transition(target), old(row))
      ensures r == Reply(Transition(target), old(row))
      ensures r.Done? <==> old(row).Some? && target in Targets(old(row).value.core.status)
      ensures r.Done? ==> Effected(Transition(target), 0, old(row), row) && row.value.core.status == target
      ensures r.Done? ==> audits == old(audits) + [Audit(Transition(target), old(row).value.core.status, target)]
    {
      if row.None? {
        return NotFound;
      }
      var status := row.value.core.status;
      if target !in Targets(status) {
        return BadRequest;
      }
      WrittenIsPut(Transition(target), row.value, 0);
      r := UpdateByCompany([SetStatus(target)], Some(row.value.version));
      audits := audits + [Audit(Transition(target), status, target)];
    }

    /** The trial job's command: a subscription that is no longer on trial is left alone. */
    method DowngradeToFree(plans: set<string>, freePlan: string) returns (r: Result)
      modifies `row, `audits
      ensures row == if freePlan in plans then Served(Downgrade(freePlan), old(row), 0) else old(row)
      ensures audits == old(audits) + if freePlan in plans then Trail(Downgrade(freePlan), old(row)) else []
      ensures r == if freePlan in plans then Reply(Downgrade(freePlan), old(row)) else NotFound
      ensures r.Done? <==> freePlan in plans && old(row).Some? && old(row).value.core.status.Trial?
      ensures r.Done? ==> Effected(Downgrade(freePlan), 0, old(row), row)
      ensures r.Done? ==> row.value.core.status.Free? && row.value.core.plan == freePlan
      ensures r.Done? ==> audits == old(audits) + [Audit(Downgrade(freePlan), Trial, Free)]
    {
      if freePlan !in plans || row.None? {
        return NotFound;
      }
      var status := row.value.core.status;
      if status != Trial {
        return Unchanged;
      }
      WrittenIsPut(Downgrade(freePlan), row.value, 0);
      r := UpdateByCompany([SetStatus(Free), ConnectPlan(freePlan)], Some(row.value.version));
      audits := audits + [Audit(Downgrade(freePlan), status, Free)];
    }

    /** The invoice and the new period end together, or neither. */
    method GenerateRecurringInvoice(insertedAt: int, advancedAt: int) returns (r: Result)
      modifies `row, `invoices
      ensures r.NotFound? <==> old(row).None?
      ensures r.Unchanged? <==> old(row).Some? && Covered(old(invoices), old(row).value.core.periodEnd)
      ensures r.NotFound? || r.Unchanged? || r.Done?
      ensures row == if r.Done? then Served(Renew, old(row), advancedAt + PERIOD_MS) else old(row)
      ensures r.Done? ==> Effected(Renew, advancedAt + 30 * 24 * 60 * 60 * 1000, old(row), row)
      ensures invoices == old(invoices) + if r.Done?
        then [Invoice(DueDate(old(row).value.core.periodEnd, insertedAt), Pending)] else []
      ensures r.Done? ==> NewestDue(invoices, old(row).value.core.periodEnd, insertedAt)
    {
      if row.None? {
        return NotFound;
      }
      var end := row.value.core.periodEnd;
      if end.Some? && LiveIn(invoices, end.value) {
        return Unchanged;
      }
      invoices := invoices + [Invoice(DueDate(end, insertedAt), Pending)];
      WrittenIsPut(Renew, row.value, advancedAt + PERIOD_MS);
      r := UpdateByCompany([SetPeriodEnd(advancedAt + PERIOD_MS)], Some(row.value.version));
    }

    /** Billing by hand: one more invoice for the same due date, whatever is there already, and
        the period stays. */
    method GenerateInvoice(insertedAt: int) returns (r: Result)
      modifies `invoices
      ensures r == if row.None? then NotFound else Done
      ensures invoices == old(invoices) + if r.Done?
        then [Invoice(DueDate(row.value.core.periodEnd, insertedAt), Pending)] else []
      ensures r.Done? ==> NewestDue(invoices, row.value.core.periodEnd, insertedAt)
    {
      if row.None? {
        return NotFound;
      }
      invoices := invoices + [Invoice(DueDate(row.value.core.periodEnd, insertedAt), Pending)];
      r := Done;
    }
  }

  predicate Covered(invoices: seq<Invoice>, end: Option<int>) {
    end.Some? && LiveIn(invoices, end.value)
  }

  lemma {:induction false} VersionApart(sub: Sub, data: seq<Field>)
    ensures PutAll(sub, data).version == sub.version
    ensures PutAll(sub.(version := sub.version + 1), data) == PutAll(sub, data).(version := sub.version + 1)
  {
    if data != [] {
      VersionApart(sub, data[..|data| - 1]);
    }
  }

  function Data(command: Command, newEnd: int): seq<Field> {
    match command
    case Downgrade(freePlan) => [SetStatus(Free), ConnectPlan(freePlan)]
    case ChangePlan(plan) => [ConnectPlan(plan)]
    case Renew => [SetPeriodEnd(newEnd)]
    case BillByHand => []
    case _ => [SetStatus(Target(command))]
  }

  lemma WrittenIsPut(command: Command, sub: Sub, newEnd: int)
    ensures PutAll(sub, Data(command, newEnd)) == sub.(core := Written(command, sub.core, newEnd))
  {
    var data := Data(command, newEnd);
    if data == [] {
      return;
    }
    assert PutAll(sub, data[..1]) == Put(sub, data[0]) by {
      assert data[..1][..0] == [];
    }
    if command.Downgrade? {
      assert data[..2] == data;
      assert PutAll(sub, data) == Put(PutAll(sub, data[..1]), data[1]);
    } else {
      assert data[..1] == data;
    }
  }

  // ---------------------------------------------------------------------------------
  // The protocol, when nothing interferes
  // ---------------------------------------------------------------------------------

  /** The statements of one command, one after the other. */
  function Statements(t: TxId, command: Command): seq<Event> {
    if command.Renew? then [Begin(t, command, {}), Read(t), Guard(t), Insert(t), Aim(t), Swap(t), Commit(t)]
    else [Begin(t, command, {}), Read(t), Swap(t), Commit(t)]
  }

  predicate Idle(s: State, t: TxId) {
    t !in s.open && forall u | u in s.open :: !s.open[u].phase.Holding?
  }

  lemma CommandSteps(c: Setup, s: State, t: TxId, command: Command)
    requires !command.Renew?
    ensures Steps(c, s, Statements(t, command))
         == Next(c, Next(c, Next(c, Next(c, s, Begin(t, command, {})), Read(t)), Swap(t)), Commit(t))
  {
    var events := Statements(t, command);
    TwoSteps(c, s, events);
    assert events[2..] == [Swap(t), Commit(t)];
    TwoSteps(c, Next(c, Next(c, s, Begin(t, command, {})), Read(t)), events[2..]);
  }

  /** A status or plan command does what the service method does. */
  lemma CommandAlone(c: Setup, s: State, t: TxId, command: Command)
    requires Idle(s, t) && !command.Renew? && !command.BillByHand?
    ensures var s' := Steps(c, s, Statements(t, command));
      && Some(s'.row) == Served(command, Some(s.row), 0)
      && s'.audits == s.audits + Trail(command, Some(s.row))
      && s'.recurring == s.recurring && s'.open == s.open
  {
    CommandSteps(c, s, t, command);
    var read := Next(c, Next(c, s, Begin(t, command, {})), Read(t));
    if Accepts(command, s.row.core.status) {
      assert read.open == s.open[t := Tx(command, {}, |s.statuses|, Swapping(s.row, 0, 0))];
      assert s.open[t := Tx(command, {}, |s.statuses|, Swapping(s.row, 0, 0))] - {t} == s.open;
    } else {
      assert read.open == s.open;
    }
  }

  /** A cancelled subscription that is resumed is ACTIVE, whatever it was before, with all else
      as it was: a subscription comes back as it was exactly if it was ACTIVE. */
  lemma CancelThenResume(c: Setup, s: State, t: TxId)
    requires Idle(s, t) && !s.row.core.status.Cancelled? && !s.row.core.status.Expired?
    ensures var s' := Steps(c, Steps(c, s, Statements(t, Command.Cancel)), Statements(t, Command.Resume));
      && s'.row == s.row.(core := s.row.core.(status := Active), version := s.row.version + 2)
      && (s'.row.core == s.row.core <==> s.row.core.status.Active?)
      && s'.audits == s.audits + [Audit(Command.Cancel, s.row.core.status, Cancelled)]
                               + [Audit(Command.Resume, Cancelled, Active)]
  {
    CommandAlone(c, s, t, Command.Cancel);
    CommandAlone(c, Steps(c, s, Statements(t, Command.Cancel)), t, Command.Resume);
  }

  // ---------------------------------------------------------------------------------
  // Which changes of status there can be
  // ---------------------------------------------------------------------------------

  /** Where a subscription can come from, by where it gets to. */
  predicate Possible(from: Status, to: Status) {
    match to
    case New => false
    case Trial => false
    case Active => !from.New? && !from.Active?
    case PastDue => from.Active?
    case Suspended => from.PastDue?
    case Cancelled => !from.New? && !from.Cancelled? && !from.Expired?
    case Expired => from.Suspended? || from.Cancelled?
    case Free => from.Trial? || from.Active? || from.Expired?
  }

  lemma {:induction false} RunSteps(c: Setup, before: seq<Event>, more: seq<Event>)
    ensures Run(c, before + more) == Steps(c, Run(c, before), more)
    decreases |more|
  {
    if more == [] {
      assert before + more == before;
    } else {
      var first := Do(c, before, more[0]);
      assert before + more == first + more[1..];
      RunSteps(c, first, more[1..]);
    }
  }

  /** One more command, alone. */
  lemma Moves(c: Setup, before: seq<Event>, command: Command) returns (after: seq<Event>)
    requires Run(c, before).open == map[] && ChangesStatus(command) && Accepts(command, Run(c, before).row.core.status)
    ensures var s, s' := Run(c, before), Run(c, after);
      && s'.open == map[] && s'.row.core.status == Target(command)
      && s'.audits == s.audits + [Audit(command, s.row.core.status, Target(command))]
  {
    after := before + Statements(0, command);
    RunSteps(c, before, Statements(0, command));
    CommandAlone(c, Run(c, before), 0, command);
  }

  lemma Reaches(c: Setup, status: Status) returns (events: seq<Event>)
    requires IsSetup(c) && !status.New?
    ensures Run(c, events).open == map[] && Run(c, events).row.core.status == status
    decreases match status
              case Trial => 0
              case Active => 1
              case Cancelled => 1
              case Free => 1
              case PastDue => 2
              case _ => 3
  {
    match status {
      case Trial => events := [];
      case Active => events := Reaches(c, Trial); events := Moves(c, events, Transition(Active));
      case PastDue => events := Reaches(c, Active); events := Moves(c, events, Transition(PastDue));
      case Suspended => events := Reaches(c, PastDue); events := Moves(c, events, Transition(Suspended));
      case Cancelled => events := Reaches(c, Trial); events := Moves(c, events, Command.Cancel);
      case Expired => events := Reaches(c, Cancelled); events := Moves(c, events, Transition(Expired));
      case Free => events := Reaches(c, Trial); events := Moves(c, events, Transition(Free));
    }
  }

  lemma {:induction false} NeverNew(c: Setup, events: seq<Event>, i: nat)
    requires IsSetup(c) && i < |Run(c, events).statuses|
    ensures !Run(c, events).statuses[i].New?
  {
    if i == 0 {
      AuditsAreTheHistory(c, events);
    } else {
      EdgesAllowed(c, events, i - 1);
    }
  }

  lemma AuditedIsPossible(c: Setup, events: seq<Event>, i: nat)
    requires IsSetup(c) && i < |Run(c, events).audits|
    ensures Possible(Run(c, events).audits[i].from, Run(c, events).audits[i].to)
  {
    AuditsAreTheHistory(c, events);
    NeverNew(c, events, i);
    EdgesAllowed(c, events, i);
  }

  ghost predicate Audited(c: Setup, events: seq<Event>, from: Status, to: Status) {
    exists i | 0 <= i < |Run(c, events).audits| ::
      Run(c, events).audits[i].from == from && Run(c, events).audits[i].to == to
  }

  /** Over all runs of all transactions, exactly these changes of status are ever committed. */
  lemma ChangeOccursIff(c: Setup, from: Status, to: Status)
    requires IsSetup(c)
    ensures (exists events :: Audited(c, events, from, to)) <==> Possible(from, to)
  {
    if events :| Audited(c, events, from, to) {
      var i :| 0 <= i < |Run(c, events).audits| && Run(c, events).audits[i].from == from
               && Run(c, events).audits[i].to == to;
      AuditedIsPossible(c, events, i);
    }
    if Possible(from, to) {
      var before := Reaches(c, from);
      var after := Moves(c, before, if to.Cancelled? then Command.Cancel else Transition(to));
      var last := |Run(c, before).audits|;
      assert Run(c, after).audits[last].from == from && Run(c, after).audits[last].to == to;
      assert Audited(c, after, from, to);
    }
  }

  /** A webhook's transition that the table refuses is handled all the same exactly when the
      subscription is in a state it expects; if not, it fails and will be sent again.  Either
      way it writes nothing. */
  lemma ConvergesIff(c: Setup, s: State, t: TxId, to: Status, expected: set<Status>)
    requires t !in s.open && to in expected && to !in Targets(s.row.core.status)
    ensures var s' := Next(c, Next(c, Next(c, s, Begin(t, Transition(to), expected)), Read(t)), Reread(t));
      s' == s.(handled := s.handled + if s.row.core.status in expected
        then [Handled(expected, |s.statuses|, |s.statuses|)] else [])
  {
    var tx := Tx(Transition(to), expected, |s.statuses|, Reading);
    var read := Next(c, Next(c, s, Begin(t, Transition(to), expected)), Read(t));
    assert read.open == s.open[t := tx.(phase := Rereading)];
    assert read.open - {t} == s.open;
    assert s.handled + [] == s.handled;
  }

  lemma RenewReads(c: Setup, s: State, t: TxId, rest: seq<Event>)
    requires t !in s.open
    ensures Steps(c, s, [Begin(t, Renew, {}), Read(t)] + rest)
         == Steps(c, s.(open := s.open[t := Tx(Renew, {}, |s.statuses|, Guarding(s.row))]), rest)
  {
    var events := [Begin(t, Renew, {}), Read(t)] + rest;
    TwoSteps(c, s, events);
    assert events[2..] == rest;
    assert Next(c, Next(c, s, events[0]), events[1]).open == s.open[t := Tx(Renew, {}, |s.statuses|, Guarding(s.row))];
  }

  lemma RenewInserts(c: Setup, s: State, t: TxId, rest: seq<Event>)
    requires t in s.open && s.open[t] == Tx(Renew, {}, |s.statuses|, Guarding(s.row))
    ensures var end := s.row.core.periodEnd;
      Steps(c, s, [Guard(t), Insert(t)] + rest) ==
        if Covered(s.recurring, end) || Covered(s.manual, end) then Steps(c, Close(s, t), rest)
        else Steps(c, s.(open := s.open[t := Tx(Renew, {}, |s.statuses|, Aiming(s.row, DueDate(end, s.clock)))]), rest)
  {
    var events := [Guard(t), Insert(t)] + rest;
    TwoSteps(c, s, events);
    assert events[2..] == rest;
    var end, s' := s.row.core.periodEnd, Next(c, Next(c, s, events[0]), events[1]);
    if Covered(s.recurring, end) || Covered(s.manual, end) {
      assert s' == Close(s, t);
    } else {
      assert s'.open == s.open[t := Tx(Renew, {}, |s.statuses|, Aiming(s.row, DueDate(end, s.clock)))];
    }
  }

  lemma SkippedSteps(c: Setup, s: State, t: TxId)
    requires t !in s.open
    ensures Steps(c, s, [Aim(t), Swap(t), Commit(t)]) == s
  {
    TwoSteps(c, s, [Aim(t), Swap(t), Commit(t)]);
    assert [Aim(t), Swap(t), Commit(t)][2..] == [Commit(t)];
  }

  /** The write of a renewal whose reading is still current, and its commit. */
  lemma RenewCommits(c: Setup, s: State, t: TxId)
    requires t in s.open && s.open[t].command.Renew? && s.open[t].expected == {}
    requires s.open[t].phase.Aiming? && s.open[t].phase.seen == s.row
    requires !RowLocked(s, t)
    ensures var s' := Steps(c, s, [Aim(t), Swap(t), Commit(t)]);
      && s'.row == s.row.(core := Written(Renew, s.row.core, s.clock + PERIOD_MS), version := s.row.version + 1)
      && s'.recurring == s.recurring + [Invoice(s.open[t].phase.due, Pending)]
      && s'.audits == s.audits && s'.open == s.open - {t}
  {
    TwoSteps(c, s, [Aim(t), Swap(t), Commit(t)]);
    assert [Aim(t), Swap(t), Commit(t)][2..] == [Commit(t)];
    var aimed := Next(c, s, Aim(t));
    assert !RowLocked(aimed, t);
    assert Next(c, aimed, Swap(t)).open - {t} == s.open - {t};
  }

  lemma UncoveredRenewal(c: Setup, s: State, t: TxId, due: int)
    requires Idle(s, t)
    ensures var inserted := s.(open := s.open[t := Tx(Renew, {}, |s.statuses|, Aiming(s.row, due))]);
      var s' := Steps(c, inserted, [Aim(t), Swap(t), Commit(t)]);
      && Some(s'.row) == Served(Renew, Some(s.row), s.clock + PERIOD_MS)
      && s'.recurring == s.recurring + [Invoice(due, Pending)]
      && s'.audits == s.audits && s'.open == s.open
  {
    var inserted := s.(open := s.open[t := Tx(Renew, {}, |s.statuses|, Aiming(s.row, due))]);
    RenewCommits(c, inserted, t);
    assert inserted.open - {t} == s.open;
  }

  lemma RenewedEffect(row: Sub, after: Option<Sub>, before: seq<Invoice>, now: int)
    requires after == Served(Renew, Some(row), now + PERIOD_MS)
    ensures Effected(Renew, now + 30 * 24 * 60 * 60 * 1000, Some(row), after)
    ensures NewestDue(before + [Invoice(DueDate(row.core.periodEnd, now), Pending)], row.core.periodEnd, now)
  {
  }

  /** Invoicing alone: skipped when the period is covered, and otherwise the invoice and the
      advance are both there. */
  lemma RenewAlone(c: Setup, s: State, t: TxId)
    requires Idle(s, t)
    ensures var s' := Steps(c, s, Statements(t, Renew));
      var end := s.row.core.periodEnd;
      if Covered(s.recurring, end) || Covered(s.manual, end) then s' == s
      else
        && Some(s'.row) == Served(Renew, Some(s.row), s.clock + PERIOD_MS)
        && Effected(Renew, s.clock + 30 * 24 * 60 * 60 * 1000, Some(s.row), Some(s'.row))
        && s'.recurring == s.recurring + [Invoice(DueDate(end, s.clock), Pending)]
        && NewestDue(s'.recurring, end, s.clock)
        && s'.audits == s.audits && s'.open == s.open
  {
    var rest := [Aim(t), Swap(t), Commit(t)];
    var read := s.(open := s.open[t := Tx(Renew, {}, |s.statuses|, Guarding(s.row))]);
    var due := DueDate(s.row.core.periodEnd, s.clock);
    assert Statements(t, Renew) == [Begin(t, Renew, {}), Read(t)] + ([Guard(t), Insert(t)] + rest);
    RenewReads(c, s, t, [Guard(t), Insert(t)] + rest);
    RenewInserts(c, read, t, rest);
    assert Close(read, t).open == s.open;
    assert read.open[t := Tx(Renew, {}, |s.statuses|, Aiming(s.row, due))]
        == s.open[t := Tx(Renew, {}, |s.statuses|, Aiming(s.row, due))];
    SkippedSteps(c, s, t);
    UncoveredRenewal(c, s, t, due);
    RenewedEffect(s.row, Served(Renew, Some(s.row), s.clock + PERIOD_MS), s.recurring, s.clock);
  }

  /** A provider reference written between a command's read and its swap does not make the
      command fail, and is not lost. */
  lemma TouchSurvives(c: Setup, s: State, t: TxId, command: Command, provider: string, retries: nat)
    requires Idle(s, t) && !command.Renew? && !command.BillByHand? && Accepts(command, s.row.core.status)
    ensures var read := Next(c, Next(c, s, Begin(t, command, {})), Read(t));
      var s' := Next(c, Next(c, Next(c, read, Touch(provider, retries)), Swap(t)), Commit(t));
      && Effect(command, 0, s.row.core, s'.row.core)
      && s'.row == Sub(s'.row.core, s.row.version + 1, provider, retries)
  {
    var read := Next(c, Next(c, s, Begin(t, command, {})), Read(t));
    assert read.open == s.open[t := Tx(command, {}, |s.statuses|, Swapping(s.row, 0, 0))];
  }

  /** A period is billed again exactly if the invoices there are for it have all been voided. */
  lemma BilledAgainIff(c: Setup, s: State, t: TxId, i: nat, status: InvoiceStatus)
    requires Idle(s, t) && i < |s.recurring| && s.recurring[i].status.Pending?
    requires s.row.core.periodEnd == Some(s.recurring[i].due)
    requires forall k | 0 <= k < |s.recurring| && k != i && s.recurring[k].due == s.recurring[i].due ::
               s.recurring[k].status.Void?
    requires !LiveIn(s.manual, s.recurring[i].due)
    ensures var s' := Steps(c, Next(c, s, Settle(true, i, status)), Statements(t, Renew));
      |s'.recurring| == |s.recurring| + 1 <==> status.Void?
  {
    var settled := Next(c, s, Settle(true, i, status));
    RenewAlone(c, settled, t);
    assert settled.recurring[i] == Invoice(s.recurring[i].due, status);
    if k :| 0 <= k < |settled.recurring| && settled.recurring[k].due == s.recurring[i].due
            && !settled.recurring[k].status.Void? {
      assert k == i;
    }
  }
}
