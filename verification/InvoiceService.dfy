/**
 The invoice repository and service, and the invoice.paid handler, as methods on the stored
 invoices, payments and processed marks.
 */
module InvoiceService {
  import opened Wrappers
  import opened InvoicePayments

  datatype Result = Done | NotFound | BadRequest | Conflict

  function Reply(job: Job, invoices: map<InvoiceId, Invoice>, id: InvoiceId): Result {
    if id !in invoices then NotFound else if Accepts(job, invoices[id]) then Done else BadRequest
  }

  class Store {
    var invoices: map<InvoiceId, Invoice>
    var payments: seq<Payment>
    var processed: set<string>

    constructor ()
      ensures Contents() == INITIAL && processed == {}
    {
      invoices, payments, processed := map[], [], {};
    }

    /** The stored invoices and payments as a state of the protocol with nothing open. */
    ghost function Contents(): State
      reads this
    {
      State(invoices, payments, map[], {}, [])
    }

    /** The compare-and-swap when a version is given, a plain update when not. */
    method Update(id: InvoiceId, status: Status, provider: Option<string>, rowVersion: Option<nat>) returns (r: Result)
      modifies `invoices
      ensures r.NotFound? <==> id !in old(invoices)
      ensures r.Conflict? <==> id in old(invoices) && rowVersion.Some? && rowVersion.value != old(invoices)[id].version
      ensures r.NotFound? || r.Conflict? || r.Done?
      ensures r.Done? ==> invoices == old(invoices)[id := old(invoices)[id].(status := status, provider := provider,
        version := old(invoices)[id].version + if rowVersion.Some? then 1 else 0)]
      ensures !r.Done? ==> invoices == old(invoices)
    {
      if rowVersion.Some? {
        var count := if id in invoices && invoices[id].version == rowVersion.value then 1 else 0;
        if count == 0 {
          return if id !in invoices then NotFound else Conflict;
        }
        var row := invoices[id];
        invoices := invoices[id := row.(status := status, provider := provider, version := row.version + 1)];
        return Done;
      }
      if id !in invoices {
        return NotFound;
      }
      invoices := invoices[id := invoices[id].(status := status, provider := provider)];
      return Done;
    }

    /** Paid in full with its payment, or nothing at all. */
    method MarkPaid(id: InvoiceId, paidAmount: Option<int>, providerInvoiceId: Option<string>) returns (r: Result)
      requires Inv(Contents())
      modifies `invoices, `payments
      ensures Inv(Contents())
      ensures r == Reply(Pay(id, paidAmount, providerInvoiceId), old(invoices), id)
      ensures r.NotFound? <==> id !in old(invoices)
      ensures r.Done? <==> id in old(invoices) && old(invoices)[id].status.Pending?
                           && paidAmount == Some(old(invoices)[id].total) && old(invoices)[id].total > 0
      ensures r.Done? ==>
        && invoices == old(invoices)[id := Written(Pay(id, paidAmount, providerInvoiceId), old(invoices)[id])]
        && Settles(Pay(id, paidAmount, providerInvoiceId), old(invoices)[id], invoices[id])
        && payments == old(payments) + [Payment(id, old(invoices)[id].total)]
      ensures !r.Done? ==> invoices == old(invoices) && payments == old(payments)
    {
      ghost var before, job := Contents(), Pay(id, paidAmount, providerInvoiceId);
      if id !in invoices {
        return NotFound;
      }
      var invoice := invoices[id];
      if invoice.status != Pending {
        return BadRequest;
      }
      if paidAmount.None? || paidAmount.value <= 0 {
        return BadRequest;
      }
      if paidAmount.value != invoice.total {
        return BadRequest;
      }
      var provider := if providerInvoiceId.Some? then providerInvoiceId else invoice.provider;
      r := Update(id, Paid, provider, Some(invoice.version));
      payments := payments + [Payment(id, paidAmount.value)];
      AloneKeeps(before, job, id);
    }

    method VoidInvoice(id: InvoiceId) returns (r: Result)
      requires Inv(Contents())
      modifies `invoices
      ensures Inv(Contents())
      ensures r == Reply(Cancel(id), old(invoices), id)
      ensures invoices ==
        if r.Done? then old(invoices)[id := Written(Cancel(id), old(invoices)[id])] else old(invoices)
      ensures r.Done? <==> id in old(invoices) && old(invoices)[id].status.Pending?
      ensures r.Done? ==> invoices[id].status.Cancelled? && Settles(Cancel(id), old(invoices)[id], invoices[id])
    {
      ghost var before := Contents();
      if id !in invoices {
        return NotFound;
      }
      var invoice := invoices[id];
      if invoice.status != Pending {
        return BadRequest;
      }
      r := Update(id, Cancelled, invoice.provider, Some(invoice.version));
      AloneKeeps(before, Cancel(id), id);
    }

    /** One delivery: it goes well when there is no such invoice, or when the one found ends
        up paid, by this delivery or before it. */
    method HandleInvoicePaid(reference: Reference, amountPaid: int) returns (ok: bool, found: Option<InvoiceId>)
      requires Inv(Contents())
      modifies `invoices, `payments
      ensures Inv(Contents())
      ensures found.None? <==> forall id | id in old(invoices) :: !Matches(reference, old(invoices)[id].provider)
      ensures found.Some? ==> found.value in old(invoices) && Matches(reference, old(invoices)[found.value].provider)
      ensures ok <==> found.None? || IsPaid(Contents(), found.value)
      ensures var paid := found.Some? && old(invoices)[found.value].status.Pending?
                          && Covers(Some(100 * amountPaid), old(invoices)[found.value].total);
        if paid then
          var job := Webhook("", reference, amountPaid);
          && invoices == old(invoices)[found.value := Written(job, old(invoices)[found.value])]
          && Settles(job, old(invoices)[found.value], invoices[found.value])
          && payments == old(payments) + [Payment(found.value, old(invoices)[found.value].total)]
        else invoices == old(invoices) && payments == old(payments)
    {
      var candidates := set id | id in invoices && Matches(reference, invoices[id].provider);
      if candidates == {} {
        assert forall id | id in invoices && Matches(reference, invoices[id].provider) :: id in candidates;
        return true, None;
      }
      var id :| id in candidates;
      found := Some(id);
      var providerInvoiceId := if reference.Named? then Some(reference.id) else None;
      var r := MarkPaid(id, Some(100 * amountPaid), providerInvoiceId);
      if r.BadRequest? || r.Conflict? {
        ok := id in invoices && invoices[id].status == Paid;
      } else {
        ok := r.Done?;
      }
    }

    /** The idempotent shell.  A key that is found marked does nothing; a failed lookup of the
        mark counts as none, and a failed write of it is swallowed.  A key is marked only when
        its handler went well, so only when the invoice it is about is paid; a failed delivery
        leaves no trace. */
    method HandleWebhook(key: string, reference: Reference, amountPaid: int, readable: bool, stored: bool)
      returns (handled: bool, found: Option<InvoiceId>)
      requires Inv(Contents())
      modifies this
      ensures Inv(Contents())
      ensures readable && key in old(processed) ==> handled && invoices == old(invoices) && payments == old(payments)
      ensures !(readable && key in old(processed)) ==>
        && (found.None? <==> forall id | id in old(invoices) :: !Matches(reference, old(invoices)[id].provider))
        && (found.Some? ==> found.value in old(invoices) && Matches(reference, old(invoices)[found.value].provider))
        && (handled <==> found.None? || IsPaid(Contents(), found.value))
        && (found.Some? && Accepts(Webhook(key, reference, amountPaid), old(invoices)[found.value]) ==>
              && found.value in invoices
              && Settles(Webhook(key, reference, amountPaid), old(invoices)[found.value], invoices[found.value])
              && payments == old(payments) + [Payment(found.value, old(invoices)[found.value].total)])
        && (found.None? || !Accepts(Webhook(key, reference, amountPaid), old(invoices)[found.value]) ==>
              invoices == old(invoices) && payments == old(payments))
      ensures processed == if handled && stored then old(processed) + {key} else old(processed)
    {
      if readable && key in processed {
        assert processed == processed + {key};
        return true, None;
      }
      handled, found := HandleInvoicePaid(reference, amountPaid);
      if handled && stored {
        processed := processed + {key};
      }
    }
  }

  lemma AloneKeeps(s: State, job: Job, id: InvoiceId)
    requires Inv(s) && s.open == map[] && !job.Webhook? && job.id == id && id in s.invoices
    ensures Inv(Alone(s, 0, job))
    ensures Accepts(job, s.invoices[id]) ==>
      Alone(s, 0, job) == s.(invoices := s.invoices[id := Written(job, s.invoices[id])],
                             payments := if job.Pay? then s.payments + [Payment(id, s.invoices[id].total)] else s.payments)
  {
    JobAlone(s, 0, job);
    StepKeepsInv(s, Begin(0, job));
    StepKeepsInv(Next(s, Begin(0, job)), Read(0));
    StepKeepsInv(Next(Next(s, Begin(0, job)), Read(0)), Swap(0));
    StepKeepsInv(Next(Next(Next(s, Begin(0, job)), Read(0)), Swap(0)), Commit(0));
  }
}
