/**
 * The invoice entity as the document store keeps it, the service's error
 * kinds, and the two store lookups the service relies on (`findOne` by
 * reference and `findById`).
 */
module Invoices {

  datatype Option<T> = None | Some(value: T)

  /** One line of an invoice: a stock-keeping unit and the quantity sold. */
  datatype Item = Item(sku: string, qt: int)

  /**
   * What a client submits to create an invoice. Dates are milliseconds since
   * the epoch; amounts are whole numbers (cents, say).
   */
  datatype InvoiceInput = InvoiceInput(
    customer: string,
    amount: int,
    reference: string,
    date: int,
    items: seq<Item>)

  /** A stored invoice: the submitted fields plus the identifier the store assigned. */
  datatype Invoice = Invoice(
    id: nat,
    customer: string,
    amount: int,
    reference: string,
    date: int,
    items: seq<Item>)

  /** The HTTP exceptions the service raises, by status. */
  datatype Error =
    | BadRequest(message: string)
    | NotFound(message: string)
    | InternalError(message: string)

  datatype Result<T> = Ok(value: T) | Err(error: Error)

  /** The document the store builds from an input when it assigns identifier `id`. */
  function Stored(id: nat, input: InvoiceInput): Invoice {
    Invoice(id, input.customer, input.amount, input.reference, input.date, input.items)
  }

  predicate HasReference(store: seq<Invoice>, reference: string) {
    exists k :: 0 <= k < |store| && store[k].reference == reference
  }

  /** No two stored invoices share a reference. */
  predicate UniqueReferences(store: seq<Invoice>) {
    forall i, j :: 0 <= i < j < |store| ==> store[i].reference != store[j].reference
  }

  /** Identifiers grow in insertion order and stay below the next one to be assigned. */
  predicate IdsBelow(store: seq<Invoice>, next: nat) {
    && (forall i, j :: 0 <= i < j < |store| ==> store[i].id < store[j].id)
    && (forall k :: 0 <= k < |store| ==> store[k].id < next)
  }

  /**
   * The store's `findOne`: the first document, in store order, that satisfies
   * `p`, or nothing.
   */
  function FindOne(store: seq<Invoice>, p: Invoice -> bool): (r: Option<Invoice>)
    ensures r.Some? <==> exists k :: 0 <= k < |store| && p(store[k])
    ensures r.Some? ==>
      exists k :: 0 <= k < |store| && store[k] == r.value && p(r.value) &&
        forall j :: 0 <= j < k ==> !p(store[j])
  {
    if store == [] then None
    else if p(store[0]) then Some(store[0])
    else
      var r := FindOne(store[1..], p);
      assert forall k :: 1 <= k < |store| ==> store[k] == store[1..][k - 1];
      r
  }

  function ReferenceIs(reference: string): Invoice -> bool {
    (inv: Invoice) => inv.reference == reference
  }

  function IdIs(id: nat): Invoice -> bool {
    (inv: Invoice) => inv.id == id
  }

  /** The store's `findOne({reference})` finds a document exactly when the reference is taken. */
  lemma FindByReference(store: seq<Invoice>, reference: string)
    ensures FindOne(store, ReferenceIs(reference)).Some? <==> HasReference(store, reference)
  {
    var p := ReferenceIs(reference);
    assert forall k :: 0 <= k < |store| ==> (p(store[k]) <==> store[k].reference == reference);
  }

  /** Inserting an invoice whose reference is new keeps references unique. */
  lemma InsertKeepsUnique(store: seq<Invoice>, inv: Invoice)
    requires UniqueReferences(store)
    requires !HasReference(store, inv.reference)
    ensures UniqueReferences(store + [inv])
  {
    var s := store + [inv];
    forall i, j | 0 <= i < j < |s|
      ensures s[i].reference != s[j].reference
    {
      if j == |store| {
        assert s[i] == store[i];
      } else {
        assert s[i] == store[i] && s[j] == store[j];
      }
    }
  }

  /** Inserting under the next identifier keeps identifiers increasing and below the new next one. */
  lemma InsertKeepsIds(store: seq<Invoice>, inv: Invoice, next: nat)
    requires IdsBelow(store, next) && inv.id == next
    ensures IdsBelow(store + [inv], next + 1)
  {
    var s := store + [inv];
    assert forall k :: 0 <= k < |store| ==> s[k] == store[k];
  }
}
