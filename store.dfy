/**
 * The document database behind the controllers: the product and order collections,
 * each a map from identifier to document plus the collection's natural (insertion) order.
 */
module Store {
  import opened Common
  import opened Schema

  predicate Distinct(ids: seq<Id>) {
    forall i, j :: 0 <= i < j < |ids| ==> ids[i] != ids[j]
  }

  /** The documents `ids` name, in that order. */
  function Lookup<D>(m: map<Id, D>, ids: seq<Id>): (r: seq<D>)
    requires forall i :: 0 <= i < |ids| ==> ids[i] in m
    ensures |r| == |ids|
    ensures forall i :: 0 <= i < |ids| ==> r[i] == m[ids[i]]
  {
    if ids == [] then [] else [m[ids[0]]] + Lookup(m, ids[1..])
  }

  /** Every document is stored under its own id, and `order` lists each stored id exactly once. */
  ghost predicate Indexed<D>(m: map<Id, D>, order: seq<Id>, idOf: D -> Id) {
    && (forall id :: id in m ==> idOf(m[id]) == id)
    && Distinct(order)
    && (forall i :: 0 <= i < |order| ==> order[i] in m)
    && (forall id :: id in m ==> id in order)
  }

  /** Replacing documents without changing the keys or the ids keeps the index intact. */
  lemma IndexedKept<D>(m: map<Id, D>, m': map<Id, D>, order: seq<Id>, idOf: D -> Id)
    requires Indexed(m, order, idOf)
    requires m'.Keys == m.Keys
    requires forall id :: id in m ==> idOf(m'[id]) == idOf(m[id])
    ensures Indexed(m', order, idOf)
  {
  }

  /** Overwriting a stored document with one that keeps its id keeps the index intact. */
  lemma IndexedReplace<D>(m: map<Id, D>, order: seq<Id>, idOf: D -> Id, d: D)
    requires Indexed(m, order, idOf)
    requires idOf(d) in m
    ensures Indexed(m[idOf(d) := d], order, idOf)
  {
  }

  /** Inserting a document under a fresh id appends that id to the natural order. */
  lemma IndexedAdd<D>(m: map<Id, D>, order: seq<Id>, idOf: D -> Id, d: D)
    requires Indexed(m, order, idOf)
    requires idOf(d) !in m
    ensures Indexed(m[idOf(d) := d], order + [idOf(d)], idOf)
  {
  }

  function ProductId(p: Product): Id { p.id }
  function OrderId(o: Order): Id { o.id }

  class Database {
    var products: map<Id, Product>
    var catalog: seq<Id>
    var orders: map<Id, Order>
    var log: seq<Id>

    ghost predicate Valid()
      reads this
    {
      && Indexed(products, catalog, ProductId)
      && Indexed(orders, log, OrderId)
    }

    constructor ()
      ensures Valid()
      ensures products == map[] && catalog == [] && orders == map[] && log == []
    {
      products, catalog, orders, log := map[], [], map[], [];
    }

    /** The product collection in natural order. */
    function ProductDocs(): (r: seq<Product>)
      reads this
      requires Valid()
      ensures |r| == |catalog|
      ensures forall i :: 0 <= i < |r| ==> r[i] == products[catalog[i]] && r[i].id == catalog[i]
    {
      Lookup(products, catalog)
    }

    /** The order collection in natural order. */
    function OrderDocs(): (r: seq<Order>)
      reads this
      requires Valid()
      ensures |r| == |log|
      ensures forall i :: 0 <= i < |r| ==> r[i] == orders[log[i]] && r[i].id == log[i]
    {
      Lookup(orders, log)
    }
  }
}
