/** The invoice record, its status, the error categories of the lifecycle
    engine, and the predicates that say when a sequence of records is a
    snapshot of the store. */
module Invoices {

  /** The three statuses an invoice can take. */
  datatype Status = Pending | Paid | Void

  /** One invoice. Amounts are whole numbers of the smallest currency unit;
      the due date is a day number. */
  datatype Invoice = Invoice(id: string, amount: int, paidAmount: int, dueDate: int, status: Status)

  datatype Option<T> = None | Some(value: T)

  /** The four operations of the lifecycle engine, named in processing errors. */
  datatype Operation = Creating | Listing | Paying | SweepingOverdue

  /** What went wrong inside an operation: a missing invoice, or anything else
      (a failure of the store or of the record mapper). */
  datatype Fault = Missing(id: string) | Unexpected

  /** The error categories a caller of the engine can observe. */
  datatype Error = NotFound(id: string) | Processing(op: Operation)

  datatype Result<T> = Success(value: T) | Failure(error: Error)

  /** The catch blocks of the engine: a missing invoice raised while adding a
      payment passes through as NotFound; every other fault, in every
      operation, is wrapped as a processing error of that operation. */
  function Wrap(op: Operation, fault: Fault): (e: Error)
    ensures e.NotFound? <==> op == Paying && fault.Missing?
    ensures e.NotFound? ==> e.id == fault.id
    ensures e.Processing? ==> e.op == op
  {
    match fault
    case Missing(id) => if op == Paying then NotFound(id) else Processing(op)
    case Unexpected => Processing(op)
  }

  /** Every record of the store is kept under its own id. */
  ghost predicate KeyedById(m: map<string, Invoice>) {
    forall k :: k in m ==> m[k].id == k
  }

  /** No two entries of `s` carry the same id. */
  ghost predicate Distinct(s: seq<Invoice>) {
    forall i, j :: 0 <= i < j < |s| ==> s[i].id != s[j].id
  }

  /** Every entry of `s` is the record stored under its id. */
  ghost predicate Within(s: seq<Invoice>, m: map<string, Invoice>) {
    forall i :: 0 <= i < |s| ==> s[i].id in m && m[s[i].id] == s[i]
  }

  /** `s` lists the stored records, each exactly once, in some order. */
  ghost predicate IsSnapshot(s: seq<Invoice>, m: map<string, Invoice>) {
    && Within(s, m)
    && Distinct(s)
    && |s| == |m|
    && forall k :: k in m ==> exists i :: 0 <= i < |s| && s[i].id == k
  }

  /** The ids of the entries of `s`. */
  ghost function IdsOf(s: seq<Invoice>): set<string> {
    set i | 0 <= i < |s| :: s[i].id
  }

  /** A snapshot holds every stored record, and only stored records. */
  lemma SnapshotMembers(s: seq<Invoice>, m: map<string, Invoice>)
    requires IsSnapshot(s, m)
    ensures forall k :: k in m ==> m[k] in s
    ensures forall x :: x in s ==> x.id in m && m[x.id] == x
  {
    forall k | k in m
      ensures m[k] in s
    {
      var i :| 0 <= i < |s| && s[i].id == k;
    }
  }
}
