/** The basket (src/models/BasketModel.ts): a map from product id to
    `{product, quantity}` that keeps its keys in insertion order, as a
    JavaScript `Map` does. It is modelled as the sequence of its entries in
    that order; the keys of a map are unique, which `Distinct` states. */
module Basket {
  import opened Types

  /** A basket entry, `{product, quantity}`. */
  datatype BasketItem = BasketItem(product: Product, quantity: int)

  /** No two entries share a product id. */
  predicate Distinct(s: seq<BasketItem>)
  {
    forall i, j :: 0 <= i < j < |s| ==> s[i].product.id != s[j].product.id
  }

  /** The position of the entry keyed `id`, if any. */
  function IndexOf(s: seq<BasketItem>, id: string): (k: Option<nat>)
    ensures k.Some? ==> k.value < |s| && s[k.value].product.id == id
    ensures k.None? <==> forall i :: 0 <= i < |s| ==> s[i].product.id != id
  {
    if s == [] then None
    else if s[0].product.id == id then Some(0)
    else
      match IndexOf(s[1..], id)
      case None => None
      case Some(k) => Some(k + 1)
  }

  /** `items.has(id)` */
  predicate Has(s: seq<BasketItem>, id: string)
  {
    IndexOf(s, id).Some?
  }

  /** `items.get(id)` */
  function Lookup(s: seq<BasketItem>, id: string): Option<BasketItem>
  {
    match IndexOf(s, id)
    case Some(k) => Some(s[k])
    case None => None
  }

  /** `items.set(e.product.id, e)`: an existing key keeps its position and
      takes the new value, a new key goes to the end. */
  function Set(s: seq<BasketItem>, e: BasketItem): seq<BasketItem>
  {
    match IndexOf(s, e.product.id)
    case Some(k) => s[k := e]
    case None => s + [e]
  }

  /** The entries a basket built from `initialItems` holds: each item is
      `set` in turn. */
  function Built(initialItems: seq<BasketItem>): seq<BasketItem>
  {
    if initialItems == [] then []
    else
      var last := initialItems[|initialItems| - 1];
      Set(Built(initialItems[..|initialItems| - 1]), BasketItem(last.product, last.quantity))
  }

  /** The last item of `s` keyed `id`, if any. */
  function LastWith(s: seq<BasketItem>, id: string): Option<BasketItem>
  {
    if s == [] then None
    else if s[|s| - 1].product.id == id then Some(s[|s| - 1])
    else LastWith(s[..|s| - 1], id)
  }

  /** `addProduct(p)`: a present id has its quantity raised by one and keeps
      its stored product and its position; a new id is appended with
      quantity 1. Null prices are not rejected. */
  function Added(s: seq<BasketItem>, p: Product): (r: seq<BasketItem>)
    requires Distinct(s)
    ensures Distinct(r)
    ensures |r| == if Has(s, p.id) then |s| else |s| + 1
    ensures forall i :: 0 <= i < |s| ==>
      r[i] == if s[i].product.id == p.id then s[i].(quantity := s[i].quantity + 1) else s[i]
    ensures !Has(s, p.id) ==> r[|s|] == BasketItem(p, 1)
  {
    match IndexOf(s, p.id)
    case Some(k) => s[k := s[k].(quantity := s[k].quantity + 1)]
    case None => s + [BasketItem(p, 1)]
  }

  /** `items.delete(id)`: every other entry stays, in its order. */
  function Removed(s: seq<BasketItem>, id: string): (r: seq<BasketItem>)
    ensures |r| <= |s|
    ensures forall i :: 0 <= i < |r| ==> r[i] in s && r[i].product.id != id
    ensures forall e :: e in s && e.product.id != id ==> e in r
  {
    if s == [] then []
    else
      var last := s[|s| - 1];
      var front := Removed(s[..|s| - 1], id);
      assert s == s[..|s| - 1] + [last];
      if last.product.id == id then front else front + [last]
  }

  /** The sum of f over the entries, accumulated in entry order. */
  function Sum(s: seq<BasketItem>, f: BasketItem -> int): int
  {
    if s == [] then 0 else Sum(s[..|s| - 1], f) + f(s[|s| - 1])
  }

  /** A product's price, a null price counting as 0. */
  function PriceOf(p: Product): int
  {
    match p.price
    case None => 0
    case Some(v) => v
  }

  /** What an entry adds to `getTotal`: price times quantity, or nothing
      for a null price. */
  function LineTotal(e: BasketItem): int
  {
    PriceOf(e.product) * e.quantity
  }

  function Quantity(e: BasketItem): int
  {
    e.quantity
  }

  /** `getTotal()` */
  function Total(s: seq<BasketItem>): int
  {
    Sum(s, LineTotal)
  }

  /** `getItemCount()` */
  function ItemCount(s: seq<BasketItem>): int
  {
    Sum(s, Quantity)
  }

  // ---------------------------------------------------------------------
  // Lemmas

  /** Under unique keys, the lookup of an entry's own key finds it. */
  lemma IndexOfDistinct(s: seq<BasketItem>, i: nat)
    requires Distinct(s) && i < |s|
    ensures IndexOf(s, s[i].product.id) == Some(i)
  {
  }

  /** `set` keeps the keys unique, answers the new value for its key and
      leaves every other key's value alone. */
  lemma SetLookup(s: seq<BasketItem>, e: BasketItem, id: string)
    requires Distinct(s)
    ensures Distinct(Set(s, e))
    ensures Lookup(Set(s, e), id) == if id == e.product.id then Some(e) else Lookup(s, id)
  {
    var r := Set(s, e);
    match IndexOf(s, e.product.id)
    case Some(k) =>
      assert r == s[k := e];
      IndexOfDistinct(r, k);
      if id != e.product.id && Has(s, id) {
        var j := IndexOf(s, id).value;
        IndexOfDistinct(r, j);
      }
    case None =>
      assert r == s + [e];
      IndexOfDistinct(r, |s|);
      if id != e.product.id && Has(s, id) {
        var j := IndexOf(s, id).value;
        IndexOfDistinct(r, j);
      }
  }

  /** The constructor keys its entries by product id; for an id given more
      than once, the last item given is the one kept. */
  lemma {:induction false} BuiltLookup(initialItems: seq<BasketItem>, id: string)
    ensures Distinct(Built(initialItems))
    ensures Lookup(Built(initialItems), id) == LastWith(initialItems, id)
  {
    if initialItems != [] {
      var front := initialItems[..|initialItems| - 1];
      var last := initialItems[|initialItems| - 1];
      BuiltLookup(front, id);
      SetLookup(Built(front), BasketItem(last.product, last.quantity), id);
    }
  }

  lemma {:induction false} SumAppend(a: seq<BasketItem>, b: seq<BasketItem>, f: BasketItem -> int)
    ensures Sum(a + b, f) == Sum(a, f) + Sum(b, f)
  {
    if b == [] {
      assert a + b == a;
    } else {
      SumAppend(a, b[..|b| - 1], f);
      assert (a + b)[..|a + b| - 1] == a + b[..|b| - 1];
    }
  }

  /** Replacing one entry changes the sum by the difference of the two. */
  lemma SumUpdate(s: seq<BasketItem>, k: nat, e: BasketItem, f: BasketItem -> int)
    requires k < |s|
    ensures Sum(s[k := e], f) == Sum(s, f) - f(s[k]) + f(e)
  {
    assert s == s[..k] + [s[k]] + s[k + 1..];
    assert s[k := e] == s[..k] + [e] + s[k + 1..];
    SumAppend(s[..k] + [s[k]], s[k + 1..], f);
    SumAppend(s[..k] + [e], s[k + 1..], f);
    SumAppend(s[..k], [s[k]], f);
    SumAppend(s[..k], [e], f);
  }

  /** Each `addProduct` raises `getItemCount` by exactly one. */
  lemma AddProductCount(s: seq<BasketItem>, p: Product)
    requires Distinct(s)
    ensures ItemCount(Added(s, p)) == ItemCount(s) + 1
  {
    match IndexOf(s, p.id)
    case Some(k) =>
      SumUpdate(s, k, s[k].(quantity := s[k].quantity + 1), Quantity);
    case None =>
      SumAppend(s, [BasketItem(p, 1)], Quantity);
  }

  /** Each `addProduct` raises `getTotal` by the price of the product held
      under that id: the one already stored if the id is present (not the
      argument), the argument otherwise; a null price adds nothing. */
  lemma AddProductTotal(s: seq<BasketItem>, p: Product)
    requires Distinct(s)
    ensures Total(Added(s, p)) == Total(s) +
      match Lookup(s, p.id)
      case Some(e) => PriceOf(e.product)
      case None => PriceOf(p)
  {
    match IndexOf(s, p.id)
    case Some(k) =>
      var e := s[k].(quantity := s[k].quantity + 1);
      SumUpdate(s, k, e, LineTotal);
      if s[k].product.price.Some? {
        var v := s[k].product.price.value;
        assert LineTotal(e) == v * s[k].quantity + v;
      }
    case None =>
      SumAppend(s, [BasketItem(p, 1)], LineTotal);
  }

  /** `removeProduct` of an absent id changes nothing. */
  lemma {:induction false} RemovedAbsent(s: seq<BasketItem>, id: string)
    requires !Has(s, id)
    ensures Removed(s, id) == s
  {
    if s != [] {
      RemovedAbsent(s[..|s| - 1], id);
      assert s == s[..|s| - 1] + [s[|s| - 1]];
    }
  }

  /** `removeProduct` is idempotent. */
  lemma RemovedIdempotent(s: seq<BasketItem>, id: string)
    ensures Removed(Removed(s, id), id) == Removed(s, id)
  {
  }

  lemma {:induction false} RemovedAppend(a: seq<BasketItem>, b: seq<BasketItem>, id: string)
    ensures Removed(a + b, id) == Removed(a, id) + Removed(b, id)
  {
    if b == [] {
      assert a + b == a;
    } else {
      RemovedAppend(a, b[..|b| - 1], id);
      assert (a + b)[..|a + b| - 1] == a + b[..|b| - 1];
    }
  }

  /** `removeProduct` deletes exactly the entry keyed `id`: the entries
      before and after it stay, in their order. */
  lemma RemoveProductEntries(a: seq<BasketItem>, e: BasketItem, b: seq<BasketItem>)
    requires Distinct(a + [e] + b)
    ensures Removed(a + [e] + b, e.product.id) == a + b
  {
    var s := a + [e] + b;
    var id := e.product.id;
    forall i | 0 <= i < |a| ensures a[i].product.id != id {
      assert s[i] == a[i] && s[|a|] == e;
    }
    forall i | 0 <= i < |b| ensures b[i].product.id != id {
      assert s[|a| + 1 + i] == b[i] && s[|a|] == e;
    }
    RemovedAppend(a + [e], b, id);
    RemovedAppend(a, [e], id);
    RemovedAbsent(a, id);
    RemovedAbsent(b, id);
    assert [e][..0] == [];
  }

  /** `removeProduct` keeps the keys unique. */
  lemma {:induction false} RemovedDistinct(s: seq<BasketItem>, id: string)
    requires Distinct(s)
    ensures Distinct(Removed(s, id))
  {
    if s != [] {
      var front := s[..|s| - 1];
      var last := s[|s| - 1];
      RemovedDistinct(front, id);
      var r := Removed(front, id);
      forall i | 0 <= i < |r| ensures r[i].product.id != last.product.id {
        var j :| 0 <= j < |front| && front[j] == r[i];
        assert s[j] == front[j];
      }
    }
  }

  /** Removing an entry lowers `getTotal` by its line total and
      `getItemCount` by its quantity. */
  lemma RemoveProductTotals(s: seq<BasketItem>, k: nat)
    requires Distinct(s) && k < |s|
    ensures Total(Removed(s, s[k].product.id)) == Total(s) - LineTotal(s[k])
    ensures ItemCount(Removed(s, s[k].product.id)) == ItemCount(s) - s[k].quantity
  {
    var a, b := s[..k], s[k + 1..];
    assert s == a + [s[k]] + b;
    RemoveProductEntries(a, s[k], b);
    SumAppend(a + [s[k]], b, LineTotal);
    SumAppend(a, [s[k]], LineTotal);
    SumAppend(a, b, LineTotal);
    SumAppend(a + [s[k]], b, Quantity);
    SumAppend(a, [s[k]], Quantity);
    SumAppend(a, b, Quantity);
  }

  /** Adding a product whose id is not in the basket and then removing that
      id gives back the same entries, hence the same total and count. */
  lemma AddThenRemove(s: seq<BasketItem>, p: Product)
    requires Distinct(s) && !Has(s, p.id)
    ensures Removed(Added(s, p), p.id) == s
    ensures Total(Removed(Added(s, p), p.id)) == Total(s)
    ensures ItemCount(Removed(Added(s, p), p.id)) == ItemCount(s)
  {
    assert Added(s, p) == s + [BasketItem(p, 1)];
    RemoveProductEntries(s, BasketItem(p, 1), []);
    assert s + [BasketItem(p, 1)] + [] == s + [BasketItem(p, 1)];
    assert s + [] == s;
  }

  class BasketModel {
    var items: seq<BasketItem>

    ghost predicate Valid()
      reads this
    {
      Distinct(items)
    }

    /** Every initial item is `set` under its product id, in order; leaving
        the list out is the same as giving an empty one. */
    constructor (initialItems: seq<BasketItem>)
      ensures Valid() && items == Built(initialItems)
    {
      var built: seq<BasketItem> := [];
      var i := 0;
      while i < |initialItems|
        invariant 0 <= i <= |initialItems|
        invariant built == Built(initialItems[..i])
        invariant Distinct(built)
      {
        var item := initialItems[i];
        assert initialItems[..i + 1][..i] == initialItems[..i];
        SetLookup(built, BasketItem(item.product, item.quantity), item.product.id);
        built := Set(built, BasketItem(item.product, item.quantity));
        i := i + 1;
      }
      assert initialItems[..i] == initialItems;
      items := built;
    }

    method AddProduct(product: Product)
      requires Valid()
      modifies this
      ensures Valid() && items == Added(old(items), product)
    {
      var k := IndexOf(items, product.id);
      if k.Some? {
        var item := items[k.value];
        items := items[k.value := item.(quantity := item.quantity + 1)];
      } else {
        items := items + [BasketItem(product, 1)];
      }
    }

    method RemoveProduct(productId: string)
      requires Valid()
      modifies this
      ensures Valid() && items == Removed(old(items), productId)
    {
      RemovedDistinct(items, productId);
      items := Removed(items, productId);
    }

    method ClearBasket()
      modifies this
      ensures Valid() && items == []
      ensures Total(items) == 0 && ItemCount(items) == 0
    {
      items := [];
    }

    /** `getTotal()`: accumulates price times quantity over the entries in
        order, skipping null prices. */
    method GetTotal() returns (total: int)
      ensures total == Total(items)
    {
      total := 0;
      var i := 0;
      while i < |items|
        invariant 0 <= i <= |items|
        invariant total == Total(items[..i])
      {
        var item := items[i];
        if item.product.price.Some? {
          total := total + item.product.price.value * item.quantity;
        }
        assert items[..i + 1][..i] == items[..i];
        i := i + 1;
      }
      assert items[..i] == items;
    }

    /** `getItemCount()`: accumulates the quantities of the entries. */
    method GetItemCount() returns (count: int)
      ensures count == ItemCount(items)
    {
      count := 0;
      var i := 0;
      while i < |items|
        invariant 0 <= i <= |items|
        invariant count == ItemCount(items[..i])
      {
        count := count + items[i].quantity;
        assert items[..i + 1][..i] == items[..i];
        i := i + 1;
      }
      assert items[..i] == items;
    }
  }
}
