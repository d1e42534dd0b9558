/**
 * The invoice service: duplicate-safe creation with an `invoices.created`
 * event, lookup by id, range queries, the daily sales summary and the
 * scheduled job that publishes it. The document store is the `store`
 * sequence, the message bus the `published` log; the failures of either are
 * parameters of the calls.
 */
module Service {
  import opened Invoices
  import opened Filters
  import opened SalesSummary

  /** What an event carries: a created invoice or a sales summary. */
  datatype Payload = Created(invoice: Invoice) | SalesReport(summary: Summary)

  /** A message handed to the bus: exchange, routing key and payload. */
  datatype Event = Event(exchange: string, routingKey: string, payload: Payload)

  /**
   * The one step of `create` that fails, if any: the reference lookup, the
   * save, or the publish, which either throws at the call or fails later in
   * the promise nobody awaits.
   */
  datatype Fault = NoFault | LookupFails | SaveFails | PublishThrows | PublishDropped

  const CreatedKey: string := "invoices.created"
  const SummaryKey: string := "routing.key"

  const DuplicateReference: string := "Reference code already exists"
  const CreateFailed: string := "Failed to create invoice"
  const InvoiceNotFound: string := "Invoice not found"
  const FindFailed: string := "Failed to find invoice"
  const ListFailed: string := "Failed to find invoices"
  const SummaryFailed: string := "Failed to calculate sales summary"

  class InvoiceService {
    /** The exchange every event goes to, read from the configuration once. */
    const exchangeName: string
    /** The invoice collection, in insertion order. */
    var store: seq<Invoice>
    /** The identifier the store assigns to the next insert. */
    var nextId: nat
    /** Every event handed to the bus, in order. */
    var published: seq<Event>

    ghost predicate Valid()
      reads this
    {
      UniqueReferences(store) && IdsBelow(store, nextId)
    }

    constructor (exchangeName: string)
      ensures Valid()
      ensures this.exchangeName == exchangeName
      ensures store == [] && nextId == 0 && published == []
    {
      this.exchangeName := exchangeName;
      store := [];
      nextId := 0;
      published := [];
    }

    /**
     * `create`: rejects a taken reference, otherwise saves the invoice and
     * announces it. A failure of the lookup or the save, or a publish that
     * throws, is reported as an internal error; in the last case the invoice
     * stays saved.
     */
    method Create(input: InvoiceInput, fault: Fault) returns (r: Result<Invoice>)
      requires Valid()
      modifies this`store, this`nextId, this`published
      ensures Valid()
      ensures fault == LookupFails ==> r == Err(InternalError(CreateFailed))
      ensures fault != LookupFails && old(HasReference(store, input.reference)) ==>
        r == Err(BadRequest(DuplicateReference))
      ensures fault == SaveFails && !old(HasReference(store, input.reference)) ==>
        r == Err(InternalError(CreateFailed))
      // whether the invoice reaches the store
      ensures
        var saved := fault != LookupFails && fault != SaveFails && !old(HasReference(store, input.reference));
        && (saved ==> store == old(store) + [Stored(old(nextId), input)] && nextId == old(nextId) + 1)
        && (!saved ==> store == old(store) && nextId == old(nextId))
        && (saved && fault == NoFault ==>
              published == old(published) + [Event(exchangeName, CreatedKey, Created(Stored(old(nextId), input)))])
        && (!(saved && fault == NoFault) ==> published == old(published))
        && (saved && fault == PublishThrows ==> r == Err(InternalError(CreateFailed)))
        && (r.Ok? <==> saved && fault != PublishThrows)
      ensures r.Ok? ==> r.value == Stored(old(nextId), input)
      ensures r.Ok? ==> FindById(r.value.id, false) == Ok(r.value)
    {
      if fault == LookupFails {
        return Err(InternalError(CreateFailed));
      }
      var existing := FindOne(store, ReferenceIs(input.reference));
      FindByReference(store, input.reference);
      if existing.Some? {
        return Err(BadRequest(DuplicateReference));
      }
      if fault == SaveFails {
        return Err(InternalError(CreateFailed));
      }
      var created := Stored(nextId, input);
      InsertKeepsUnique(store, created);
      InsertKeepsIds(store, created, nextId);
      store := store + [created];
      nextId := nextId + 1;
      NewIdIsFound(store, created);
      if fault == PublishThrows {
        return Err(InternalError(CreateFailed));
      }
      if fault != PublishDropped {
        published := published + [Event(exchangeName, CreatedKey, Created(created))];
      }
      r := Ok(created);
    }

    /** `findById`: the stored invoice with that identifier, or not found. */
    function FindById(id: nat, storeFails: bool): (r: Result<Invoice>)
      reads this
      ensures storeFails ==> r == Err(InternalError(FindFailed))
      ensures !storeFails ==> (r.Ok? <==> exists k :: 0 <= k < |store| && store[k].id == id)
      ensures !storeFails && r.Err? ==> r.error == NotFound(InvoiceNotFound)
      ensures r.Ok? ==> r.value in store && r.value.id == id
    {
      if storeFails then Err(InternalError(FindFailed))
      else
        var found := FindOne(store, IdIs(id));
        assert forall k :: 0 <= k < |store| ==> (IdIs(id)(store[k]) <==> store[k].id == id);
        if found.None? then Err(NotFound(InvoiceNotFound)) else Ok(found.value)
    }

    /**
     * `findAll`: exactly the stored invoices that meet every bound the query
     * gives, each as often as stored, in store order.
     */
    method FindAll(q: Query, storeFails: bool) returns (r: Result<seq<Invoice>>)
      ensures storeFails ==> r == Err(InternalError(ListFailed))
      ensures !storeFails ==> r == Ok(Find(store, QueryFilter(q)))
      ensures !storeFails ==>
        forall inv :: multiset(r.value)[inv] == if Satisfies(q, inv) then multiset(store)[inv] else 0
    {
      var filter := BuildFilter(q);
      if storeFails {
        return Err(InternalError(ListFailed));
      }
      FindSelects(store, filter);
      r := Ok(Find(store, filter));
    }

    /**
     * `calculateSalesSummary` for the day starting at `dayStart`: the total
     * amount and the per-sku quantities of that day's invoices.
     */
    method CalculateSalesSummary(dayStart: int, storeFails: bool) returns (r: Result<Summary>)
      ensures storeFails ==> r == Err(InternalError(SummaryFailed))
      ensures !storeFails ==> r == Ok(Summarize(Find(store, DayFilter(dayStart))))
    {
      if storeFails {
        return Err(InternalError(SummaryFailed));
      }
      var invoices := Find(store, DayFilter(dayStart));
      var totalAmount := 0;
      var itemSales: map<string, int> := map[];
      var i := 0;
      while i < |invoices|
        invariant 0 <= i <= |invoices|
        invariant totalAmount == SumOver(invoices[..i], Amount)
        invariant itemSales == Tally(Flatten(invoices[..i]))
      {
        NextInvoice(invoices, i);
        totalAmount, itemSales := AddInvoice(totalAmount, itemSales, invoices[i], Flatten(invoices[..i]));
        i := i + 1;
      }
      assert invoices[..i] == invoices;
      r := Ok(Summary(totalAmount, itemSales));
    }

    /**
     * The scheduled job: publishes the day's summary under `routing.key`.
     * A failed summary or a publish that throws at the call is caught and
     * logged, and nothing is published then. A publish whose promise rejects
     * later is not awaited; here it too leaves the log unchanged.
     */
    method HandleCron(dayStart: int, storeFails: bool, publishFails: bool)
      modifies this`published
      ensures !storeFails && !publishFails ==>
        published == old(published) +
          [Event(exchangeName, SummaryKey, SalesReport(Summarize(Find(store, DayFilter(dayStart)))))]
      ensures storeFails || publishFails ==> published == old(published)
    {
      var summary := CalculateSalesSummary(dayStart, storeFails);
      if summary.Err? {
        return;
      }
      if !publishFails {
        published := published + [Event(exchangeName, SummaryKey, SalesReport(summary.value))];
      }
    }
  }

  /**
   * The body of the outer `forEach` of `calculateSalesSummary`: adds the
   * invoice's amount to the total and each of its items to `itemSales`, where
   * `itemSales` so far holds the tally of the items `done`.
   */
  method AddInvoice(totalAmount: int, itemSales: map<string, int>, invoice: Invoice, ghost done: seq<Item>)
    returns (total': int, itemSales': map<string, int>)
    requires itemSales == Tally(done)
    ensures total' == totalAmount + invoice.amount
    ensures itemSales' == Tally(done + invoice.items)
  {
    total' := totalAmount + invoice.amount;
    itemSales' := itemSales;
    var j := 0;
    assert done + invoice.items[..0] == done;
    while j < |invoice.items|
      invariant 0 <= j <= |invoice.items|
      invariant itemSales' == Tally(done + invoice.items[..j])
    {
      var item := invoice.items[j];
      NextItem(done, invoice.items, j);
      ghost var visited := itemSales';
      if item.sku !in itemSales' {
        itemSales' := itemSales'[item.sku := 0];
      }
      itemSales' := itemSales'[item.sku := itemSales'[item.sku] + item.qt];
      assert itemSales' == Record(visited, item);
      j := j + 1;
    }
    assert invoice.items[..j] == invoice.items;
  }

  /** An invoice appended with an identifier above all others is what `findById` finds for it. */
  lemma NewIdIsFound(store: seq<Invoice>, inv: Invoice)
    requires |store| > 0 && store[|store| - 1] == inv
    requires forall k :: 0 <= k < |store| - 1 ==> store[k].id < inv.id
    ensures FindOne(store, IdIs(inv.id)) == Some(inv)
  {
    var p := IdIs(inv.id);
    assert forall k :: 0 <= k < |store| ==> (p(store[k]) <==> k == |store| - 1);
    assert p(store[|store| - 1]);
  }
}
