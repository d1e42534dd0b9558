/**
 * Client scenarios: what a caller of the service can conclude from the
 * contracts alone, for the cases the service's own tests exercise.
 */
module Scenarios {
  import opened Invoices
  import opened Filters
  import opened SalesSummary
  import opened Service

  /** Creating the same reference twice: the second attempt is refused and the store keeps one record. */
  method DuplicateReferenceTwice() {
    var svc := new InvoiceService("daily_sales_report");
    var input := InvoiceInput("John Doe", 15075, "INV-1", 1734048000000, [Item("ITEM001", 2), Item("ITEM002", 1)]);
    var first := svc.Create(input, NoFault);
    assert first == Ok(Stored(0, input));
    assert svc.published == [Event("daily_sales_report", "invoices.created", Created(first.value))];
    assert HasReference(svc.store, "INV-1") by {
      assert svc.store[0].reference == "INV-1";
    }
    var second := svc.Create(input, NoFault);
    assert second == Err(BadRequest("Reference code already exists"));
    assert |svc.store| == 1 && |svc.published| == 1;
    var found := svc.FindById(first.value.id, false);
    assert found == first;
    var missing := svc.FindById(7, false);
    assert missing == Err(NotFound("Invoice not found"));
  }

  /** A publish that throws after the save: the caller sees an internal error, yet the invoice is stored. */
  method PublishThrowsAfterSave() {
    var svc := new InvoiceService("daily_sales_report");
    var input := InvoiceInput("Jane Doe", 20050, "INV-2", 1734048000000, [Item("ITEM003", 3)]);
    var r := svc.Create(input, PublishThrows);
    assert r == Err(InternalError("Failed to create invoice"));
    assert svc.store == [Stored(0, input)] && svc.published == [];
  }

  /** Three invoices over two days: the published summary covers only the chosen day. */
  method CronCoversOneDay() {
    var day := 1734048000000;
    var svc := SeedTwoDays(day);
    PublishDay(svc, day);
  }

  /** Two invoices dated within the day that starts at `day`, and one dated the next day. */
  method SeedTwoDays(day: int) returns (svc: InvoiceService)
    ensures fresh(svc) && svc.Valid() && svc.exchangeName == "daily_sales_report"
    ensures |svc.store| == 3
    ensures svc.store[0].date == day + 1000 && svc.store[1].date == day + LastMillisecond
    ensures svc.store[2].date == day + LastMillisecond + 1
    ensures svc.store[0].amount == 100 && svc.store[0].items == [Item("A", 2)]
    ensures svc.store[1].amount == 50 && svc.store[1].items == [Item("A", 1), Item("B", 3)]
  {
    svc := new InvoiceService("daily_sales_report");
    var a := InvoiceInput("c1", 100, "R1", day + 1000, [Item("A", 2)]);
    var b := InvoiceInput("c2", 50, "R2", day + LastMillisecond, [Item("A", 1), Item("B", 3)]);
    var c := InvoiceInput("c3", 70, "R3", day + LastMillisecond + 1, [Item("C", 5)]);
    CreateFresh(svc, a);
    assert !HasReference(svc.store, "R2") by {
      assert svc.store == [Stored(0, a)];
    }
    CreateFresh(svc, b);
    assert !HasReference(svc.store, "R3") by {
      assert svc.store == [Stored(0, a), Stored(1, b)];
    }
    CreateFresh(svc, c);
    assert svc.store == [Stored(0, a), Stored(1, b), Stored(2, c)];
  }

  /** A create with a new reference and no fault appends the invoice to the store. */
  method CreateFresh(svc: InvoiceService, input: InvoiceInput)
    requires svc.Valid() && !HasReference(svc.store, input.reference)
    modifies svc
    ensures svc.Valid()
    ensures svc.store == old(svc.store) + [Stored(old(svc.nextId), input)]
    ensures svc.nextId == old(svc.nextId) + 1
  {
    var r := svc.Create(input, NoFault);
  }

  /** The scheduled job over a store of two invoices of the day and one of the next. */
  method PublishDay(svc: InvoiceService, day: int)
    requires |svc.store| == 3 && svc.exchangeName == "daily_sales_report"
    requires day <= svc.store[0].date <= day + LastMillisecond
    requires day <= svc.store[1].date <= day + LastMillisecond
    requires svc.store[2].date == day + LastMillisecond + 1
    requires svc.store[0].amount == 100 && svc.store[0].items == [Item("A", 2)]
    requires svc.store[1].amount == 50 && svc.store[1].items == [Item("A", 1), Item("B", 3)]
    modifies svc
  {
    var x, y, z := svc.store[0], svc.store[1], svc.store[2];
    assert svc.store == [x, y, z];
    OnlyTheDay(x, y, z, day);
    TwoInvoicesExample(x, y);
    var before := svc.published;
    svc.HandleCron(day, false, false);
    assert svc.published == before + [Event("daily_sales_report", "routing.key",
      SalesReport(Summary(150, map["A" := 3, "B" := 3])))];
  }

  lemma OnlyTheDay(x: Invoice, y: Invoice, z: Invoice, day: int)
    requires day <= x.date <= day + LastMillisecond
    requires day <= y.date <= day + LastMillisecond
    requires z.date == day + LastMillisecond + 1
    ensures Find([x, y, z], DayFilter(day)) == [x, y]
  {
    var f := DayFilter(day);
    assert Matches(f, x) && Matches(f, y) && !Matches(f, z);
    assert [x, y, z][1..] == [y, z];
    assert [y, z][1..] == [z];
    assert [z][1..] == [];
    assert Find([z], f) == [];
    assert Find([y, z], f) == [y];
  }
}
