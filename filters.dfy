/**
 * Range queries over the invoice store: the query-string parameters of
 * `findAll`, the store filter built from them, what a filter selects, and the
 * store's `find`.
 */
module Filters {
  import opened Invoices

  /**
   * One optional query-string parameter, after the framework parsed it: not
   * sent, sent as the empty string, or sent with a value (a date in
   * milliseconds or an amount).
   */
  datatype Param = Absent | Empty | Given(value: int)

  /**
   * JavaScript truthiness of the parameter. Query-string values are strings,
   * so every non-empty one is truthy, "0" included.
   */
  predicate Truthy(p: Param) {
    p.Given?
  }

  datatype Query = Query(startDate: Param, endDate: Param, minAmount: Param, maxAmount: Param)

  /** The operand of one filtered field: optional `$gte` and `$lte` bounds. */
  datatype Range = Range(gte: Option<int>, lte: Option<int>)

  /** A conjunctive store filter on `date` and `amount`; `None` leaves a field unconstrained. */
  datatype Filter = Filter(date: Option<Range>, amount: Option<Range>)

  /**
   * Whether a field value meets every bound of its operand. An operand with
   * neither bound does not arise: a field gets an operand only when one of
   * its bounds is set.
   */
  predicate InRange(r: Range, x: int) {
    (r.gte.None? || r.gte.value <= x) && (r.lte.None? || x <= r.lte.value)
  }

  predicate Matches(f: Filter, inv: Invoice) {
    && (f.date.None? || InRange(f.date.value, inv.date))
    && (f.amount.None? || InRange(f.amount.value, inv.amount))
  }

  /**
   * The store's `find`: the matching documents, each as often as the store
   * holds it, in store order.
   */
  function Find(store: seq<Invoice>, f: Filter): (r: seq<Invoice>)
    ensures |r| <= |store|
    ensures forall k :: 0 <= k < |r| ==> Matches(f, r[k])
  {
    if store == [] then []
    else
      var rest := Find(store[1..], f);
      if Matches(f, store[0]) then [store[0]] + rest else rest
  }

  /**
   * `find` is sound and complete: it returns every matching document as often
   * as the store holds it, and nothing else.
   */
  lemma {:induction false} FindSelects(store: seq<Invoice>, f: Filter)
    ensures forall inv :: multiset(Find(store, f))[inv] == if Matches(f, inv) then multiset(store)[inv] else 0
    ensures forall inv :: inv in Find(store, f) <==> inv in store && Matches(f, inv)
  {
    if store != [] {
      FindSelects(store[1..], f);
      assert store == [store[0]] + store[1..];
    }
  }

  /**
   * What a query asks for, stated directly: every bound whose parameter is
   * truthy holds, inclusively; the others constrain nothing.
   */
  predicate Satisfies(q: Query, inv: Invoice) {
    && (Truthy(q.startDate) ==> inv.date >= q.startDate.value)
    && (Truthy(q.endDate) ==> inv.date <= q.endDate.value)
    && (Truthy(q.minAmount) ==> inv.amount >= q.minAmount.value)
    && (Truthy(q.maxAmount) ==> inv.amount <= q.maxAmount.value)
  }

  function Bound(p: Param): Option<int> {
    if Truthy(p) then Some(p.value) else None
  }

  /** The operand for a field: present when either of its two parameters is truthy. */
  function RangeOf(lower: Param, upper: Param): Option<Range> {
    if Truthy(lower) || Truthy(upper) then Some(Range(Bound(lower), Bound(upper))) else None
  }

  /** The filter `findAll` hands to the store, and what it selects. */
  function QueryFilter(q: Query): (f: Filter)
    ensures forall inv :: Matches(f, inv) <==> Satisfies(q, inv)
    ensures f.date.None? <==> !Truthy(q.startDate) && !Truthy(q.endDate)
    ensures f.amount.None? <==> !Truthy(q.minAmount) && !Truthy(q.maxAmount)
  {
    Filter(RangeOf(q.startDate, q.endDate), RangeOf(q.minAmount, q.maxAmount))
  }

  /**
   * `findAll`'s construction of the filter, field by field: a field operand
   * starts as `{}` when either of its parameters is truthy, then gains `$gte`
   * and `$lte` in turn.
   */
  method BuildFilter(q: Query) returns (f: Filter)
    ensures f == QueryFilter(q)
    ensures forall inv :: Matches(f, inv) <==> Satisfies(q, inv)
  {
    f := Filter(None, None);
    if Truthy(q.startDate) || Truthy(q.endDate) {
      f := f.(date := Some(Range(None, None)));
      if Truthy(q.startDate) {
        f := f.(date := Some(f.date.value.(gte := Some(q.startDate.value))));
      }
      if Truthy(q.endDate) {
        f := f.(date := Some(f.date.value.(lte := Some(q.endDate.value))));
      }
    }
    if Truthy(q.minAmount) || Truthy(q.maxAmount) {
      f := f.(amount := Some(Range(None, None)));
      if Truthy(q.minAmount) {
        f := f.(amount := Some(f.amount.value.(gte := Some(q.minAmount.value))));
      }
      if Truthy(q.maxAmount) {
        f := f.(amount := Some(f.amount.value.(lte := Some(q.maxAmount.value))));
      }
    }
  }

  /** A query with no truthy parameter returns the whole store, in store order. */
  lemma {:induction false} EmptyQueryReturnsStore(store: seq<Invoice>, q: Query)
    requires !Truthy(q.startDate) && !Truthy(q.endDate)
    requires !Truthy(q.minAmount) && !Truthy(q.maxAmount)
    ensures Find(store, QueryFilter(q)) == store
  {
    if store != [] {
      EmptyQueryReturnsStore(store[1..], q);
    }
  }

  /**
   * `find` keeps store order: filtering two stretches of the store one after
   * the other gives the same result as filtering the whole.
   */
  lemma {:induction false} FindDistributes(a: seq<Invoice>, b: seq<Invoice>, f: Filter)
    ensures Find(a + b, f) == Find(a, f) + Find(b, f)
  {
    if a == [] {
      assert a + b == b;
    } else {
      var ab := a + b;
      assert ab != [] && ab[0] == a[0] && ab[1..] == a[1..] + b;
      FindDistributes(a[1..], b, f);
      var head := if Matches(f, a[0]) then [a[0]] else [];
      assert Find(ab, f) == head + Find(a[1..] + b, f);
      assert Find(a, f) == head + Find(a[1..], f);
    }
  }
}
