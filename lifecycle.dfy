/** The lifecycle rules of the engine as functions on its abstract state:
    the stored records together with the id supplier's counter. The service
    methods are proved to move the state exactly as these functions say, and
    the lemmas here state what the rules promise. */
module Lifecycle {
  import opened Invoices
  import opened Ids

  /** The engine's state: the store's map and the next counter value of the
      id supplier. */
  datatype Ledger = Ledger(invoices: map<string, Invoice>, nextId: nat)

  /** Records are kept under their own ids with nothing paid below zero, and
      no stored id is one the supplier has yet to hand out. */
  ghost predicate WellFormed(l: Ledger) {
    && KeyedById(l.invoices)
    && (forall k :: k in l.invoices ==> l.invoices[k].paidAmount >= 0)
    && (forall n: nat :: l.nextId <= n ==> IdOf(n) !in l.invoices)
  }

  // ---------------------------------------------------------------------
  // Creating an invoice

  /** The record createInvoice builds: a fresh id, nothing paid, pending. */
  function NewInvoice(l: Ledger, amount: int, dueDate: int): Invoice {
    Invoice(IdOf(l.nextId), amount, 0, dueDate, Pending)
  }

  /** createInvoice: store the new record under the supplier's next id and
      advance the supplier. */
  function Create(l: Ledger, amount: int, dueDate: int): Ledger {
    Ledger(l.invoices[IdOf(l.nextId) := NewInvoice(l, amount, dueDate)], l.nextId + 1)
  }

  /** createInvoice stores exactly one new record under an id not in use, and
      leaves every existing record as it was. */
  lemma CreateAddsOne(l: Ledger, amount: int, dueDate: int)
    requires WellFormed(l)
    ensures var l' := Create(l, amount, dueDate);
      && WellFormed(l')
      && IdOf(l.nextId) !in l.invoices
      && l'.invoices.Keys == l.invoices.Keys + {IdOf(l.nextId)}
      && |l'.invoices| == |l.invoices| + 1
      && (forall k :: k in l.invoices ==> l'.invoices[k] == l.invoices[k])
      && l'.invoices[IdOf(l.nextId)] == Invoice(IdOf(l.nextId), amount, 0, dueDate, Pending)
  {
    forall n: nat | l.nextId + 1 <= n
      ensures IdOf(n) != IdOf(l.nextId)
    {
      if IdOf(n) == IdOf(l.nextId) {
        IdOfInjective(n, l.nextId);
      }
    }
  }

  // ---------------------------------------------------------------------
  // Adding a payment

  /** The record after a payment: the paid amount grows by the payment, and
      the invoice becomes paid once the paid amount reaches the invoice's
      amount. The current status is not consulted. */
  function ApplyPayment(inv: Invoice, payment: int): (r: Invoice)
    ensures r.id == inv.id && r.amount == inv.amount && r.dueDate == inv.dueDate
    ensures r.paidAmount == inv.paidAmount + payment
    ensures r.status == Paid <==> r.paidAmount >= inv.amount || inv.status == Paid
    ensures r.paidAmount < inv.amount ==> r.status == inv.status
  {
    var paid := inv.paidAmount + payment;
    inv.(paidAmount := paid, status := if paid >= inv.amount then Paid else inv.status)
  }

  /** addPayment: NotFound when no record has the id, otherwise the record
      under that id with the payment applied. */
  function Pay(l: Ledger, id: string, payment: int): (r: Result<Ledger>)
    ensures r.Failure? <==> id !in l.invoices
    ensures r.Failure? ==> r.error == NotFound(id)
    ensures r.Success? ==>
              && r.value.nextId == l.nextId
              && r.value.invoices.Keys == l.invoices.Keys
              && r.value.invoices[id] == ApplyPayment(l.invoices[id], payment)
              && forall k :: k in l.invoices && k != id ==> r.value.invoices[k] == l.invoices[k]
  {
    if id !in l.invoices then Failure(Wrap(Paying, Missing(id)))
    else Success(l.(invoices := l.invoices[id := ApplyPayment(l.invoices[id], payment)]))
  }

  /** A positive payment keeps the state well formed. */
  lemma PayKeepsWellFormed(l: Ledger, id: string, payment: int)
    requires WellFormed(l) && payment > 0
    ensures Pay(l, id, payment).Success? ==> WellFormed(Pay(l, id, payment).value)
  {
  }

  /** The sum of a sequence of payments. */
  function Total(payments: seq<int>): int {
    if payments == [] then 0 else Total(payments[..|payments| - 1]) + payments[|payments| - 1]
  }

  /** The record after paying `payments` one after another. */
  function ApplyPayments(inv: Invoice, payments: seq<int>): Invoice {
    if payments == [] then inv
    else ApplyPayment(ApplyPayments(inv, payments[..|payments| - 1]), payments[|payments| - 1])
  }

  /** Paying in instalments leaves the same record as paying their total at
      once: the same paid amount and the same status. */
  lemma {:induction false} InstalmentsAddUp(inv: Invoice, payments: seq<int>)
    requires |payments| > 0
    requires forall i :: 0 <= i < |payments| ==> payments[i] > 0
    ensures ApplyPayments(inv, payments) == ApplyPayment(inv, Total(payments))
  {
    var n := |payments|;
    if n > 1 {
      var front := payments[..n - 1];
      assert forall i :: 0 <= i < |front| ==> front[i] > 0;
      InstalmentsAddUp(inv, front);
      // One payment of Total(front) followed by payments[n-1] > 0 settles
      // exactly when a single payment of the sum does.
      assert ApplyPayment(ApplyPayment(inv, Total(front)), payments[n - 1])
          == ApplyPayment(inv, Total(front) + payments[n - 1]);
    }
  }

  // ---------------------------------------------------------------------
  // The overdue sweep

  /** The parameters of processOverdue. */
  datatype OverdueRequest = OverdueRequest(lateFee: int, overdueDays: int)

  /** An invoice the sweep processes: still pending, and its due date pushed
      back by the grace period is strictly before today. */
  predicate Overdue(inv: Invoice, req: OverdueRequest, today: int) {
    inv.status == Pending && inv.dueDate + req.overdueDays < today
  }

  /** The original invoice after rollover: paid if anything was paid on it,
      void otherwise; nothing else changes. */
  function Close(inv: Invoice): (r: Invoice)
    ensures r.status != Pending
    ensures r == inv.(status := r.status)
    ensures r.status == Paid <==> inv.paidAmount > 0
  {
    if inv.paidAmount > 0 then inv.(status := Paid) else inv.(status := Void)
  }

  /** The amount of the successor invoice: what remains plus the late fee
      for a partly paid invoice, the full amount plus the fee for an unpaid
      one. Either way it is the unpaid balance plus the fee. */
  function SuccessorAmount(inv: Invoice, lateFee: int): (r: int)
    ensures inv.paidAmount >= 0 ==> r == inv.amount - inv.paidAmount + lateFee
  {
    if inv.paidAmount > 0 then (inv.amount - inv.paidAmount) + lateFee else inv.amount + lateFee
  }

  /** The successor record created under `id`. */
  function Successor(inv: Invoice, req: OverdueRequest, today: int, id: string): Invoice {
    Invoice(id, SuccessorAmount(inv, req.lateFee), 0, today + req.overdueDays, Pending)
  }

  /** An existing record after the sweep: closed when overdue, else as it was. */
  function Settle(inv: Invoice, req: OverdueRequest, today: int): Invoice {
    if Overdue(inv, req, today) then Close(inv) else inv
  }

  /** Paid is terminal: no payment and no sweep takes an invoice out of it.
      Void is left alone by the sweep; only a payment changes it, to paid. */
  lemma ClosedStaysClosed(inv: Invoice, payment: int, req: OverdueRequest, today: int)
    ensures inv.status == Paid ==> ApplyPayment(inv, payment).status == Paid
    ensures inv.status != Pending ==> Settle(inv, req, today) == inv
    ensures inv.status == Void ==> ApplyPayment(inv, payment).status in {Void, Paid}
  {
  }

  /** One iteration of the sweep on the snapshot entry `inv`: when it is
      overdue, create its successor, then save the closed original. */
  function Visit(l: Ledger, inv: Invoice, req: OverdueRequest, today: int): Ledger {
    if Overdue(inv, req, today) then
      var l' := Create(l, SuccessorAmount(inv, req.lateFee), today + req.overdueDays);
      l'.(invoices := l'.invoices[inv.id := Close(inv)])
    else l
  }

  /** The sweep over the snapshot `s`, one entry after another. */
  function Sweep(l: Ledger, s: seq<Invoice>, req: OverdueRequest, today: int): Ledger {
    if s == [] then l else Visit(Sweep(l, s[..|s| - 1], req, today), s[|s| - 1], req, today)
  }

  /** The overdue entries of `s`, in order: one successor is created for each. */
  function OverdueIn(s: seq<Invoice>, req: OverdueRequest, today: int): seq<Invoice> {
    if s == [] then []
    else
      var rest := if Overdue(s[|s| - 1], req, today) then [s[|s| - 1]] else [];
      OverdueIn(s[..|s| - 1], req, today) + rest
  }

  /** OverdueIn keeps exactly the overdue entries. */
  lemma {:induction false} OverdueInMembers(s: seq<Invoice>, req: OverdueRequest, today: int)
    ensures forall x :: x in OverdueIn(s, req, today) <==> x in s && Overdue(x, req, today)
  {
    if s != [] {
      var front := s[..|s| - 1];
      OverdueInMembers(front, req, today);
      assert s == front + [s[|s| - 1]];
    }
  }

  /** The supplier advances once per overdue entry. */
  lemma {:induction false} SweepNextId(l: Ledger, s: seq<Invoice>, req: OverdueRequest, today: int)
    ensures Sweep(l, s, req, today).nextId == l.nextId + |OverdueIn(s, req, today)|
  {
    if s != [] {
      SweepNextId(l, s[..|s| - 1], req, today);
    }
  }

  /** Prefixes of snapshots keep the snapshot's per-entry properties. */
  lemma PrefixWithin(s: seq<Invoice>, m: map<string, Invoice>, n: nat)
    requires Within(s, m) && n <= |s|
    ensures Within(s[..n], m)
    ensures Distinct(s) ==> Distinct(s[..n])
    ensures IdsOf(s[..n]) <= IdsOf(s)
  {
  }

  /** Overwriting a stored record with one that has nothing paid below zero
      keeps the state well formed. */
  lemma SaveKeepsWellFormed(l: Ledger, x: Invoice)
    requires WellFormed(l) && x.id in l.invoices && x.paidAmount >= 0
    ensures WellFormed(l.(invoices := l.invoices[x.id := x]))
  {
  }

  /** One iteration keeps the state well formed when the visited entry is
      stored and has nothing paid below zero. */
  lemma VisitWellFormed(l: Ledger, x: Invoice, req: OverdueRequest, today: int)
    requires WellFormed(l) && x.id in l.invoices && x.paidAmount >= 0
    ensures WellFormed(Visit(l, x, req, today))
  {
    if Overdue(x, req, today) {
      var l1 := Create(l, SuccessorAmount(x, req.lateFee), today + req.overdueDays);
      assert WellFormed(l1) && x.id in l1.invoices by {
        CreateAddsOne(l, SuccessorAmount(x, req.lateFee), today + req.overdueDays);
      }
      SaveKeepsWellFormed(l1, Close(x));
    }
  }

  /** The sweep never removes a record. */
  lemma {:induction false} SweepKeepsKeys(l: Ledger, s: seq<Invoice>, req: OverdueRequest, today: int)
    ensures l.invoices.Keys <= Sweep(l, s, req, today).invoices.Keys
  {
    if s != [] {
      SweepKeepsKeys(l, s[..|s| - 1], req, today);
    }
  }

  /** The sweep over entries of the store keeps the state well formed. */
  lemma {:induction false} SweepWellFormed(l: Ledger, s: seq<Invoice>, req: OverdueRequest, today: int)
    requires WellFormed(l) && Within(s, l.invoices)
    ensures WellFormed(Sweep(l, s, req, today))
  {
    if s != [] {
      var front, x := s[..|s| - 1], s[|s| - 1];
      PrefixWithin(s, l.invoices, |s| - 1);
      SweepWellFormed(l, front, req, today);
      SweepKeepsKeys(l, front, req, today);
      assert x.id in l.invoices && l.invoices[x.id] == x;
      VisitWellFormed(Sweep(l, front, req, today), x, req, today);
    }
  }

  /** The sweep adds exactly the ids the supplier hands out during it. */
  lemma {:induction false} SweepKeys(l: Ledger, s: seq<Invoice>, req: OverdueRequest, today: int)
    requires Within(s, l.invoices)
    ensures var l' := Sweep(l, s, req, today);
      l'.invoices.Keys == l.invoices.Keys + IssuedBetween(l.nextId, l'.nextId)
  {
    if s == [] {
      assert IssuedBetween(l.nextId, l.nextId) == {};
    } else {
      var front, x := s[..|s| - 1], s[|s| - 1];
      PrefixWithin(s, l.invoices, |s| - 1);
      SweepKeys(l, front, req, today);
      var cur := Sweep(l, front, req, today);
      SweepNextId(l, front, req, today);
      assert x.id in cur.invoices;
      if Overdue(x, req, today) {
        IssuedBetweenNext(l.nextId, cur.nextId);
      }
    }
  }

  /** Records that were in the store before the sweep: an entry of the
      snapshot is closed when it was overdue and untouched otherwise; every
      other record is untouched. */
  lemma {:induction false} SweepOldRecords(l: Ledger, s: seq<Invoice>, req: OverdueRequest, today: int)
    requires WellFormed(l) && Within(s, l.invoices) && Distinct(s)
    ensures var l' := Sweep(l, s, req, today);
      forall k :: k in l.invoices ==>
        k in l'.invoices
        && l'.invoices[k] == if k in IdsOf(s) then Settle(l.invoices[k], req, today) else l.invoices[k]
  {
    if s != [] {
      var front, x := s[..|s| - 1], s[|s| - 1];
      PrefixWithin(s, l.invoices, |s| - 1);
      SweepOldRecords(l, front, req, today);
      var cur := Sweep(l, front, req, today);
      SweepNextId(l, front, req, today);
      assert IdOf(cur.nextId) !in l.invoices;
      assert IdsOf(s) == IdsOf(front) + {x.id};
      assert x.id !in IdsOf(front);
      assert l.invoices[x.id] == x;
    }
  }

  /** Records created by the sweep: the overdue entries of the snapshot, in
      order, have their successors under the ids handed out during it. */
  lemma {:induction false} SweepNewRecords(l: Ledger, s: seq<Invoice>, req: OverdueRequest, today: int)
    requires WellFormed(l) && Within(s, l.invoices)
    ensures var l' := Sweep(l, s, req, today);
      var due := OverdueIn(s, req, today);
      forall n :: l.nextId <= n < l.nextId + |due| ==>
        IdOf(n) in l'.invoices
        && l'.invoices[IdOf(n)] == Successor(due[n - l.nextId], req, today, IdOf(n))
  {
    if s != [] {
      var front, x := s[..|s| - 1], s[|s| - 1];
      PrefixWithin(s, l.invoices, |s| - 1);
      SweepNewRecords(l, front, req, today);
      var cur := Sweep(l, front, req, today);
      var due, due' := OverdueIn(front, req, today), OverdueIn(s, req, today);
      SweepNextId(l, front, req, today);
      if Overdue(x, req, today) {
        assert due' == due + [x];
        var l' := Sweep(l, s, req, today);
        forall n | l.nextId <= n < l.nextId + |due'|
          ensures IdOf(n) in l'.invoices
          ensures l'.invoices[IdOf(n)] == Successor(due'[n - l.nextId], req, today, IdOf(n))
        {
          // The id saved back, x.id, was in use before the sweep, so it is
          // none of the ids handed out during it.
          assert IdOf(n) !in l.invoices;
          if n < cur.nextId && IdOf(n) == IdOf(cur.nextId) {
            IdOfInjective(n, cur.nextId);
          }
        }
      } else {
        assert due' == due;
      }
    }
  }

  /** The sweep adds one record per overdue entry of the snapshot. */
  lemma SweepSize(l: Ledger, s: seq<Invoice>, req: OverdueRequest, today: int)
    requires WellFormed(l) && Within(s, l.invoices)
    ensures |Sweep(l, s, req, today).invoices| == |l.invoices| + |OverdueIn(s, req, today)|
  {
    var l' := Sweep(l, s, req, today);
    SweepKeys(l, s, req, today);
    SweepNextId(l, s, req, today);
    IssuedBetweenSize(l.nextId, l'.nextId);
    forall k | k in IssuedBetween(l.nextId, l'.nextId)
      ensures k !in l.invoices
    {
      var i :| l.nextId <= i < l'.nextId && IdOf(i) == k;
    }
    assert l.invoices.Keys !! IssuedBetween(l.nextId, l'.nextId);
    assert |l'.invoices| == |l'.invoices.Keys|;
  }

  /** A sweep over entries none of which is overdue changes nothing. */
  lemma {:induction false} QuietSweep(l: Ledger, s: seq<Invoice>, req: OverdueRequest, today: int)
    requires forall i :: 0 <= i < |s| ==> !Overdue(s[i], req, today)
    ensures Sweep(l, s, req, today) == l
  {
    if s != [] {
      QuietSweep(l, s[..|s| - 1], req, today);
    }
  }

  /** On a full snapshot, every record stored before the sweep is settled,
      whatever the snapshot's order, and none of them is overdue afterwards. */
  lemma SweepEffect(l: Ledger, s: seq<Invoice>, req: OverdueRequest, today: int)
    requires WellFormed(l) && IsSnapshot(s, l.invoices)
    ensures var l' := Sweep(l, s, req, today);
      forall k :: k in l.invoices ==>
        && k in l'.invoices
        && l'.invoices[k] == Settle(l.invoices[k], req, today)
        && !Overdue(l'.invoices[k], req, today)
  {
    assert forall k :: k in l.invoices ==> k in IdsOf(s) by {
      forall k | k in l.invoices
        ensures k in IdsOf(s)
      {
        var i :| 0 <= i < |s| && s[i].id == k;
      }
    }
    SweepOldRecords(l, s, req, today);
  }

  /** The loop's step: the next entry of the snapshot is still stored when its
      turn comes, and visiting it extends the fold by one entry. */
  lemma SweepStep(l: Ledger, s: seq<Invoice>, i: nat, req: OverdueRequest, today: int)
    requires WellFormed(l) && Within(s, l.invoices) && i < |s|
    ensures s[i].id in Sweep(l, s[..i], req, today).invoices && s[i].paidAmount >= 0
    ensures Sweep(l, s[..i + 1], req, today) == Visit(Sweep(l, s[..i], req, today), s[i], req, today)
  {
    PrefixWithin(s, l.invoices, i);
    SweepKeepsKeys(l, s[..i], req, today);
    assert s[..i + 1][..i] == s[..i];
  }

  /** What a sweep over a full snapshot promises, gathered for its caller:
      old records settled, and the supplier and the store grown by the
      number of overdue entries. */
  lemma SweepSummary(l: Ledger, s: seq<Invoice>, req: OverdueRequest, today: int)
    requires WellFormed(l) && IsSnapshot(s, l.invoices)
    ensures var l' := Sweep(l, s, req, today);
      && (forall k :: k in l.invoices ==>
            k in l'.invoices && l'.invoices[k] == Settle(l.invoices[k], req, today))
      && l'.nextId == l.nextId + |OverdueIn(s, req, today)|
      && |l'.invoices| == |l.invoices| + |OverdueIn(s, req, today)|
  {
    SweepEffect(l, s, req, today);
    SweepNextId(l, s, req, today);
    SweepSize(l, s, req, today);
  }

  /** Run again on the same day with a non-negative grace period, the sweep
      changes nothing: closed originals are no longer pending, and the
      successors are not yet overdue. */
  lemma SecondSweepIsQuiet(l: Ledger, s: seq<Invoice>, s': seq<Invoice>, req: OverdueRequest, today: int)
    requires WellFormed(l) && IsSnapshot(s, l.invoices) && req.overdueDays >= 0
    requires IsSnapshot(s', Sweep(l, s, req, today).invoices)
    ensures Sweep(Sweep(l, s, req, today), s', req, today) == Sweep(l, s, req, today)
  {
    var l' := Sweep(l, s, req, today);
    var due := OverdueIn(s, req, today);
    SweepEffect(l, s, req, today);
    SweepKeys(l, s, req, today);
    SweepNextId(l, s, req, today);
    SweepNewRecords(l, s, req, today);
    forall i | 0 <= i < |s'|
      ensures !Overdue(s'[i], req, today)
    {
      var k := s'[i].id;
      assert l'.invoices[k] == s'[i];
      if k !in l.invoices {
        assert k in IssuedBetween(l.nextId, l'.nextId);
        var n :| l.nextId <= n < l'.nextId && IdOf(n) == k;
        assert l'.invoices[IdOf(n)] == Successor(due[n - l.nextId], req, today, k);
      }
    }
    QuietSweep(l', s', req, today);
  }

  // ---------------------------------------------------------------------
  // The figures used by the unit tests

  /** Paying 800 on 1000 with 200 paid settles it at 1000; paying 400 leaves
      it pending at 600; a void invoice paid up becomes paid. */
  lemma PaymentExamples(d: int)
    ensures ApplyPayment(Invoice("INV123", 1000, 200, d, Pending), 800)
         == Invoice("INV123", 1000, 1000, d, Paid)
    ensures ApplyPayment(Invoice("INV123", 1000, 200, d, Pending), 400)
         == Invoice("INV123", 1000, 600, d, Pending)
    ensures ApplyPayment(Invoice("INV123", 1000, 200, d, Pending), 900).paidAmount == 1100
    ensures ApplyPayment(Invoice("INV123", 1000, 0, d, Void), 1000).status == Paid
  {
  }

  /** With fee 100 and 10 days' grace, 15 days past due: a partly paid 1000/400
      invoice is closed as paid with a 700 successor due in 10 days; an unpaid
      1000 invoice is voided with an 1100 successor; an already paid one and
      one only 5 days past a 20-day grace are left alone. */
  lemma OverdueExamples(today: int)
    ensures var req := OverdueRequest(100, 10);
      var partly := Invoice("INV001", 1000, 400, today - 15, Pending);
      var unpaid := Invoice("INV001", 1000, 0, today - 15, Pending);
      var paid := Invoice("INV002", 1000, 1000, today - 15, Paid);
      var l := Ledger(map["INV001" := partly, "INV002" := paid], 7);
      && Sweep(l, [partly, paid], req, today)
         == Ledger(map["INV001" := partly.(status := Paid), "INV002" := paid,
                       IdOf(7) := Invoice(IdOf(7), 700, 0, today + 10, Pending)], 8)
      && Settle(unpaid, req, today) == unpaid.(status := Void)
      && Successor(unpaid, req, today, "x").amount == 1100
      && !Overdue(Invoice("INV003", 500, 0, today - 5, Pending), OverdueRequest(300, 20), today)
      && !Overdue(Invoice("INV004", 500, 0, today - 20, Paid), OverdueRequest(200, 20), today)
  {
    var req := OverdueRequest(100, 10);
    var partly := Invoice("INV001", 1000, 400, today - 15, Pending);
    var paid := Invoice("INV002", 1000, 1000, today - 15, Paid);
    var l := Ledger(map["INV001" := partly, "INV002" := paid], 7);
    var s := [partly, paid];
    assert IdOf(7) == "7";
    assert s[..1] == [partly] && s[..1][..0] == [];
    assert Sweep(l, [partly], req, today) == Visit(Sweep(l, [], req, today), partly, req, today);
    assert Sweep(l, s, req, today) == Visit(Sweep(l, [partly], req, today), paid, req, today);
  }
}
