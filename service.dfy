/** The invoice lifecycle engine: creates invoices, applies payments and runs
    the overdue sweep against the store. Each method is proved to move the
    engine's state exactly as the corresponding function of Lifecycle says. */
module Service {
  import opened Invoices
  import opened Ids
  import opened Lifecycle
  import opened Repository

  class InvoiceService {
    const repository: InvoiceRepository
    /** The fresh-id supplier: the counter value behind the next id. */
    var nextId: nat

    /** The engine's state: the store's contents and the supplier's counter. */
    ghost function State(): Ledger
      reads this, repository
    {
      Ledger(repository.invoices, nextId)
    }

    ghost predicate Valid()
      reads this, repository
    {
      repository.Valid() && WellFormed(State())
    }

    /** The engine starts on an empty store. */
    constructor (repository: InvoiceRepository)
      requires repository.Valid() && repository.invoices == map[]
      ensures Valid() && this.repository == repository
      ensures State() == Ledger(map[], 0)
    {
      this.repository := repository;
      nextId := 0;
    }

    /** Stores a new pending invoice with nothing paid under a fresh id and
        returns it. */
    method CreateInvoice(amount: int, dueDate: int) returns (created: Invoice)
      requires Valid()
      modifies this, repository
      ensures Valid()
      ensures created == NewInvoice(old(State()), amount, dueDate)
      ensures State() == Create(old(State()), amount, dueDate)
    {
      CreateAddsOne(State(), amount, dueDate);
      var id := IdOf(nextId);
      nextId := nextId + 1;
      var invoice := Invoice(id, amount, 0, dueDate, Pending);
      created := repository.Save(invoice);
    }

    /** Every stored invoice, once each. */
    method GetAllInvoices() returns (all: seq<Invoice>)
      requires Valid()
      ensures IsSnapshot(all, repository.invoices)
    {
      all := repository.FindAll();
    }

    /** Adds `payment` to the invoice's paid amount and marks it paid once the
        paid amount reaches its amount; NotFound, with the store untouched,
        when no invoice has that id. */
    method AddPayment(invoiceId: string, payment: int) returns (outcome: Result<()>)
      requires Valid() && payment > 0
      modifies repository
      ensures Valid()
      ensures outcome.Failure? <==> invoiceId !in old(repository.invoices)
      ensures outcome.Failure? ==> outcome.error == NotFound(invoiceId) && State() == old(State())
      ensures outcome.Success? ==> Pay(old(State()), invoiceId, payment) == Success(State())
    {
      var found := repository.FindById(invoiceId);
      if found.None? {
        return Failure(Wrap(Paying, Missing(invoiceId)));
      }
      PayKeepsWellFormed(State(), invoiceId, payment);
      var invoice := found.value;
      invoice := invoice.(paidAmount := invoice.paidAmount + payment);
      if invoice.paidAmount >= invoice.amount {
        invoice := invoice.(status := Paid);
      }
      var _ := repository.Save(invoice);
      outcome := Success(());
    }

    /** One step of the overdue sweep: when `invoice` is overdue, a successor
        carrying its balance plus the late fee is created and the invoice is
        saved closed; otherwise nothing changes. */
    method SettleOne(invoice: Invoice, request: OverdueRequest, today: int)
      requires Valid()
      requires invoice.id in repository.invoices && invoice.paidAmount >= 0
      modifies this, repository
      ensures Valid()
      ensures State() == Visit(old(State()), invoice, request, today)
    {
      ghost var before := State();
      VisitWellFormed(before, invoice, request, today);
      if invoice.status == Pending && invoice.dueDate + request.overdueDays < today {
        var remaining := invoice.amount - invoice.paidAmount;
        var closed, successorAmount;
        if invoice.paidAmount > 0 {
          closed := invoice.(status := Paid);
          successorAmount := remaining + request.lateFee;
        } else {
          closed := invoice.(status := Void);
          successorAmount := invoice.amount + request.lateFee;
        }
        var _ := CreateInvoice(successorAmount, today + request.overdueDays);
        var _ := repository.Save(closed);
      }
    }

    /** The overdue sweep over a snapshot of the store: each pending invoice
        whose due date plus the grace period is before `today` is closed
        (paid if anything was paid, void otherwise) and gets a successor due
        `today` plus the grace period. Returns the snapshot it iterated over. */
    method ProcessOverdue(request: OverdueRequest, today: int) returns (ghost snapshot: seq<Invoice>)
      requires Valid()
      modifies this, repository
      ensures Valid()
      ensures IsSnapshot(snapshot, old(repository.invoices))
      ensures State() == Sweep(old(State()), snapshot, request, today)
      ensures forall k :: k in old(repository.invoices) ==>
                k in repository.invoices
                && repository.invoices[k] == Settle(old(repository.invoices)[k], request, today)
      ensures nextId == old(nextId) + |OverdueIn(snapshot, request, today)|
      ensures |repository.invoices| == |old(repository.invoices)| + |OverdueIn(snapshot, request, today)|
    {
      var all := repository.FindAll();
      snapshot := all;
      ghost var start := State();
      var i := 0;
      while i < |all|
        invariant 0 <= i <= |all|
        invariant Valid()
        invariant State() == Sweep(start, all[..i], request, today)
      {
        SweepStep(start, all, i, request, today);
        SettleOne(all[i], request, today);
        i := i + 1;
      }
      assert all[..|all|] == all;
      SweepSummary(start, all, request, today);
    }
  }

  /** A new engine on an empty store: a 1000 invoice is created, 400 is paid
      on it, and a payment to an unknown id fails with NotFound. */
  method CreateAndPay(dueDate: int)
    returns (service: InvoiceService, created: Invoice, paid: Result<()>, missing: Result<()>)
    ensures fresh(service) && fresh(service.repository) && service.Valid()
    ensures service.State() == Ledger(map["0" := Invoice("0", 1000, 400, dueDate, Pending)], 1)
    ensures created == Invoice(IdOf(0), 1000, 0, dueDate, Pending)
    ensures paid == Success(())
    ensures missing == Failure(NotFound("INV124"))
  {
    var store := new InvoiceRepository();
    service := new InvoiceService(store);
    assert IdOf(0) == "0";
    created := service.CreateInvoice(1000, dueDate);
    assert service.State() == Ledger(map["0" := created], 1);
    paid := service.AddPayment(created.id, 400);
    assert paid.Success? && paid.value == ();
    missing := service.AddPayment("INV124", 900);
  }

  /** A store's life in one run: a 1000 invoice is created and 400 is paid on
      it; a payment to an unknown id fails with NotFound; past its due date
      plus 10 days' grace, the sweep with fee 100 closes the invoice as paid
      and creates a 700 successor due in 10 days. */
  method CreatePaySweep(dueDate: int, today: int)
    returns (created: Invoice, paid: Result<()>, missing: Result<()>, all: seq<Invoice>)
    requires dueDate + 10 < today
    ensures created == Invoice(IdOf(0), 1000, 0, dueDate, Pending)
    ensures paid == Success(())
    ensures missing == Failure(NotFound("INV124"))
    ensures |all| == 2
    ensures created.(paidAmount := 400, status := Paid) in all
    ensures Invoice(IdOf(1), 700, 0, today + 10, Pending) in all
  {
    var service;
    service, created, paid, missing := CreateAndPay(dueDate);
    ghost var partly := Invoice("0", 1000, 400, dueDate, Pending);
    var request := OverdueRequest(100, 10);
    ghost var snapshot := service.ProcessOverdue(request, today);
    assert snapshot == [partly] by {
      SnapshotMembers(snapshot, map["0" := partly]);
    }
    ghost var final := map["0" := partly.(status := Paid), "1" := Invoice("1", 700, 0, today + 10, Pending)];
    assert service.State() == Ledger(final, 2) by {
      assert IdOf(0) == "0" && IdOf(1) == "1";
      assert [partly][..0] == [];
    }
    all := service.GetAllInvoices();
    SnapshotMembers(all, final);
    assert final["0"] in all && final["1"] in all;
  }
}
