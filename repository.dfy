/** The in-memory invoice store: a map from id to record with upsert, point
    lookup and snapshot enumeration. */
module Repository {
  import opened Invoices

  class InvoiceRepository {
    var invoices: map<string, Invoice>

    /** Every record is kept under its own id. */
    ghost predicate Valid()
      reads this
    {
      KeyedById(invoices)
    }

    constructor ()
      ensures Valid() && invoices == map[]
    {
      invoices := map[];
    }

    /** Inserts or overwrites the record under its id and hands it back;
        every other id keeps its record. */
    method Save(invoice: Invoice) returns (saved: Invoice)
      requires Valid()
      modifies this
      ensures Valid()
      ensures saved == invoice
      ensures invoices == old(invoices)[invoice.id := invoice]
    {
      invoices := invoices[invoice.id := invoice];
      saved := invoice;
    }

    /** A fresh list holding every stored record once, in no particular order. */
    method FindAll() returns (all: seq<Invoice>)
      requires Valid()
      ensures IsSnapshot(all, invoices)
    {
      all := [];
      var rest := invoices.Keys;
      while rest != {}
        invariant rest <= invoices.Keys
        invariant Within(all, invoices) && Distinct(all)
        invariant forall i :: 0 <= i < |all| ==> all[i].id !in rest
        invariant forall k :: k in invoices && k !in rest ==> exists i :: 0 <= i < |all| && all[i].id == k
        invariant |all| + |rest| == |invoices|
        decreases rest
      {
        var k :| k in rest;
        ghost var before := all;
        all := all + [invoices[k]];
        rest := rest - {k};
        forall j | j in invoices && j !in rest
          ensures exists i :: 0 <= i < |all| && all[i].id == j
        {
          if j == k {
            assert all[|before|].id == j;
          } else {
            var i :| 0 <= i < |before| && before[i].id == j;
            assert all[i].id == j;
          }
        }
      }
    }

    /** The record stored under `id`, or nothing when no record has that id. */
    method FindById(id: string) returns (found: Option<Invoice>)
      requires Valid()
      ensures found.Some? <==> id in invoices
      ensures found.Some? ==> found.value == invoices[id] && found.value.id == id
    {
      if id in invoices {
        found := Some(invoices[id]);
      } else {
        found := None;
      }
    }
  }

  /** Two saves under distinct ids into a new store: enumeration yields
      exactly those two records, and an id never saved is not found. */
  method SaveTwoThenFind(a: Invoice, b: Invoice, other: string) returns (all: seq<Invoice>, missing: Option<Invoice>)
    requires a.id != b.id && other != a.id && other != b.id
    ensures |all| == 2
    ensures a in all && b in all
    ensures missing == None
  {
    var store := new InvoiceRepository();
    var _ := store.Save(a);
    var _ := store.Save(b);
    all := store.FindAll();
    assert store.invoices.Keys == {a.id, b.id};
    assert exists i :: 0 <= i < |all| && all[i].id == a.id;
    assert exists i :: 0 <= i < |all| && all[i].id == b.id;
    missing := store.FindById(other);
  }
}
