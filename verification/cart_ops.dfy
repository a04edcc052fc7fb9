/**
 * The list transformations of the cart container (src/hooks/cart.tsx):
 * what `addToCart`, `increment` and `decrement` compute from the current
 * list of line items. Each is a pure function from the old list to the new
 * one, as in the source, where every operation builds a fresh array with
 * `find`, `map` and spread syntax.
 */
module CartOps {

  datatype Option<T> = None | Some(value: T)

  /**
   * A cart line item. `price` is a JavaScript number that the cart only
   * stores and copies; it is kept as an opaque `int` and never computed on.
   * `quantity`, also a JavaScript number, is modelled as an unbounded integer
   * (the cart only writes whole numbers to it); nothing keeps it positive.
   */
  datatype Product = Product(id: string, title: string, imageUrl: string, price: int, quantity: int)

  /** The argument of `addToCart`: a line item without its quantity. */
  datatype NewProduct = NewProduct(id: string, title: string, imageUrl: string, price: int)

  /** The incoming item's fields, spread, with the given quantity. */
  function WithQuantity(item: NewProduct, q: int): (p: Product) {
    Product(item.id, item.title, item.imageUrl, item.price, q)
  }

  /** Some entry of `ps` carries `id`. */
  predicate HasId(ps: seq<Product>, id: string) {
    exists i :: 0 <= i < |ps| && ps[i].id == id
  }

  /** At most one entry per id: the invariant the cart's design relies on. */
  predicate UniqueIds(ps: seq<Product>) {
    forall i, j :: 0 <= i < j < |ps| ==> ps[i].id != ps[j].id
  }

  /** Every quantity is at least one. */
  predicate AllPositive(ps: seq<Product>) {
    forall i :: 0 <= i < |ps| ==> ps[i].quantity >= 1
  }

  /** `products.find(p => p.id === id)`: the first entry carrying `id`, if any. */
  function Find(ps: seq<Product>, id: string): (r: Option<Product>)
    ensures r.None? <==> !HasId(ps, id)
    ensures r.Some? ==> exists k :: 0 <= k < |ps| && ps[k] == r.value && r.value.id == id &&
                                   forall j :: 0 <= j < k ==> ps[j].id != id
  {
    if ps == [] then None
    else if ps[0].id == id then Some(ps[0])
    else
      var r := Find(ps[1..], id);
      assert HasId(ps[1..], id) <==> HasId(ps, id) by {
        if HasId(ps, id) {
          var i :| 0 <= i < |ps| && ps[i].id == id;
          assert ps[1..][i - 1].id == id;
        }
      }
      assert r.Some? ==> exists k :: 0 <= k < |ps| && ps[k] == r.value && r.value.id == id &&
                                     forall j :: 0 <= j < k ==> ps[j].id != id by {
        if r.Some? {
          var k :| 0 <= k < |ps[1..]| && ps[1..][k] == r.value && r.value.id == id &&
                   forall j :: 0 <= j < k ==> ps[1..][j].id != id;
          assert ps[k + 1] == r.value;
          assert forall j :: 0 <= j < k + 1 ==> ps[j].id != id by {
            forall j | 0 <= j < k + 1 ensures ps[j].id != id {
              if j > 0 { assert ps[j] == ps[1..][j - 1]; }
            }
          }
        }
      }
      r
  }

  /** One entry with its quantity moved by `delta`, every other field kept. */
  function Bumped(p: Product, delta: int): (b: Product) {
    p.(quantity := p.quantity + delta)
  }

  /**
   * `products.map(p => p.id === id ? { ...p, quantity: p.quantity + delta } : p)`,
   * the map shared by `increment` (delta 1) and `decrement` (delta -1).
   */
  function AdjustWhere(ps: seq<Product>, id: string, delta: int): (r: seq<Product>)
    ensures |r| == |ps|
  {
    if ps == [] then []
    else [if ps[0].id == id then Bumped(ps[0], delta) else ps[0]] + AdjustWhere(ps[1..], id, delta)
  }

  /**
   * The new list `increment(id)` computes. It keeps length and order, raises
   * the quantity of every matching entry by exactly one and leaves its other
   * fields alone; every other entry is identical. With no matching entry the
   * list is unchanged.
   */
  function Incremented(ps: seq<Product>, id: string): (r: seq<Product>)
    ensures |r| == |ps|
    ensures forall i :: 0 <= i < |ps| && ps[i].id == id ==> r[i] == ps[i].(quantity := ps[i].quantity + 1)
    ensures forall i :: 0 <= i < |ps| && ps[i].id != id ==> r[i] == ps[i]
    ensures !HasId(ps, id) ==> r == ps
  {
    AdjustWhereAt(ps, id, 1);
    AdjustWhere(ps, id, 1)
  }

  /**
   * The new list `decrement(id)` computes. It keeps length and order and
   * lowers the quantity of every matching entry by exactly one, with no floor:
   * 1 becomes 0 and 0 becomes -1. Every other entry is identical; with no
   * matching entry nothing changes.
   */
  function Decremented(ps: seq<Product>, id: string): (r: seq<Product>)
    ensures |r| == |ps|
    ensures forall i :: 0 <= i < |ps| && ps[i].id == id ==> r[i] == ps[i].(quantity := ps[i].quantity - 1)
    ensures forall i :: 0 <= i < |ps| && ps[i].id != id ==> r[i] == ps[i]
    ensures !HasId(ps, id) ==> r == ps
  {
    AdjustWhereAt(ps, id, -1);
    AdjustWhere(ps, id, -1)
  }

  /**
   * `products.map(p => p.id === item.id ? { ...item, quantity: p.quantity + 1 } : p)`:
   * every entry carrying the item's id takes the incoming fields and one more unit.
   */
  function MergeInto(ps: seq<Product>, item: NewProduct): (r: seq<Product>)
    ensures |r| == |ps|
  {
    if ps == [] then []
    else [if ps[0].id == item.id then WithQuantity(item, ps[0].quantity + 1) else ps[0]]
         + MergeInto(ps[1..], item)
  }

  /**
   * The new list `addToCart(item)` computes: merge into an existing entry, or
   * append. With the id absent, the item is appended with quantity 1 and every
   * earlier entry is unchanged; with the id present, length and order are
   * kept, each matching entry becomes the incoming item with its old quantity
   * plus one, and every other entry is unchanged.
   */
  function Added(ps: seq<Product>, item: NewProduct): (r: seq<Product>)
    ensures !HasId(ps, item.id) ==> r == ps + [WithQuantity(item, 1)]
    ensures HasId(ps, item.id) ==> |r| == |ps|
    ensures HasId(ps, item.id) ==> forall i :: 0 <= i < |ps| ==>
      r[i] == if ps[i].id == item.id then WithQuantity(item, ps[i].quantity + 1) else ps[i]
  {
    MergeIntoAt(ps, item);
    if Find(ps, item.id).Some? then MergeInto(ps, item)
    else ps + [WithQuantity(item, 1)]
  }

  /** Total quantity held under `id`: the number of units of that product in the cart. */
  function QuantityOf(ps: seq<Product>, id: string): (n: int)
    ensures !HasId(ps, id) ==> n == 0
  {
    if ps == [] then 0
    else
      assert HasId(ps[1..], id) ==> HasId(ps, id) by {
        if HasId(ps[1..], id) {
          var i :| 0 <= i < |ps[1..]| && ps[1..][i].id == id;
          assert ps[i + 1].id == id;
        }
      }
      (if ps[0].id == id then ps[0].quantity else 0) + QuantityOf(ps[1..], id)
  }

  // ---------------------------------------------------------------------
  // Element-wise meaning of the two maps

  lemma {:induction false} AdjustWhereAt(ps: seq<Product>, id: string, delta: int)
    ensures |AdjustWhere(ps, id, delta)| == |ps|
    ensures forall i :: 0 <= i < |ps| ==>
      AdjustWhere(ps, id, delta)[i] == if ps[i].id == id then Bumped(ps[i], delta) else ps[i]
  {
    if ps != [] {
      AdjustWhereAt(ps[1..], id, delta);
      var r := AdjustWhere(ps, id, delta);
      forall i | 0 <= i < |ps|
        ensures r[i] == if ps[i].id == id then Bumped(ps[i], delta) else ps[i]
      {
        if i > 0 {
          assert r[i] == AdjustWhere(ps[1..], id, delta)[i - 1];
          assert ps[i] == ps[1..][i - 1];
        }
      }
    }
  }

  lemma {:induction false} MergeIntoAt(ps: seq<Product>, item: NewProduct)
    ensures |MergeInto(ps, item)| == |ps|
    ensures forall i :: 0 <= i < |ps| ==>
      MergeInto(ps, item)[i] == if ps[i].id == item.id then WithQuantity(item, ps[i].quantity + 1) else ps[i]
  {
    if ps != [] {
      MergeIntoAt(ps[1..], item);
      var r := MergeInto(ps, item);
      forall i | 0 <= i < |ps|
        ensures r[i] == if ps[i].id == item.id then WithQuantity(item, ps[i].quantity + 1) else ps[i]
      {
        if i > 0 {
          assert r[i] == MergeInto(ps[1..], item)[i - 1];
          assert ps[i] == ps[1..][i - 1];
        }
      }
    }
  }

  // ---------------------------------------------------------------------
  // increment and decrement

  /** `decrement` undoes `increment` and `increment` undoes `decrement`. */
  lemma IncrementDecrementCancel(ps: seq<Product>, id: string)
    ensures Decremented(Incremented(ps, id), id) == ps
    ensures Incremented(Decremented(ps, id), id) == ps
  {
    AdjustWhereAt(ps, id, 1);
    AdjustWhereAt(ps, id, -1);
    AdjustWhereAt(Incremented(ps, id), id, -1);
    AdjustWhereAt(Decremented(ps, id), id, 1);
  }

  /** Neither `increment` nor `decrement` touches ids, so both keep them unique (and only then). */
  lemma AdjustKeepsIdsUnique(ps: seq<Product>, id: string)
    ensures UniqueIds(Incremented(ps, id)) <==> UniqueIds(ps)
    ensures UniqueIds(Decremented(ps, id)) <==> UniqueIds(ps)
  {
    AdjustWhereAt(ps, id, 1);
    AdjustWhereAt(ps, id, -1);
    var up, down := Incremented(ps, id), Decremented(ps, id);
    assert forall i :: 0 <= i < |ps| ==> up[i].id == ps[i].id && down[i].id == ps[i].id;
  }

  /** `increment` keeps every quantity positive. */
  lemma IncrementedKeepsPositive(ps: seq<Product>, id: string)
    requires AllPositive(ps)
    ensures AllPositive(Incremented(ps, id))
  {
    AdjustWhereAt(ps, id, 1);
  }

  /** `decrement` can take a quantity of one to zero: the cart enforces no floor. */
  lemma DecrementedReachesZero(item: NewProduct)
    ensures Decremented([WithQuantity(item, 1)], item.id) == [WithQuantity(item, 0)]
    ensures !AllPositive(Decremented([WithQuantity(item, 1)], item.id))
  {
    var one := [WithQuantity(item, 1)];
    assert one[1..] == [];
    assert Decremented(one, item.id) == [WithQuantity(item, 0)];
    assert Decremented(one, item.id)[0].quantity == 0;
  }

  /**
   * On a list with unique ids, `AdjustWhere` moves the total of `id` by
   * `delta` exactly when `id` is present, and no other id's total.
   */
  lemma {:induction false} AdjustWhereQuantity(ps: seq<Product>, id: string, delta: int, other: string)
    requires UniqueIds(ps)
    ensures QuantityOf(AdjustWhere(ps, id, delta), id) == QuantityOf(ps, id) + (if HasId(ps, id) then delta else 0)
    ensures other != id ==> QuantityOf(AdjustWhere(ps, id, delta), other) == QuantityOf(ps, other)
  {
    if ps != [] {
      var rest := ps[1..];
      assert UniqueIds(rest) by {
        forall i, j | 0 <= i < j < |rest| ensures rest[i].id != rest[j].id {
          assert rest[i] == ps[i + 1] && rest[j] == ps[j + 1];
        }
      }
      AdjustWhereQuantity(rest, id, delta, other);
      var r := AdjustWhere(ps, id, delta);
      assert r[1..] == AdjustWhere(rest, id, delta);
      if ps[0].id == id {
        assert !HasId(rest, id) by {
          forall i | 0 <= i < |rest| ensures rest[i].id != id {
            assert rest[i] == ps[i + 1];
          }
        }
        assert HasId(ps, id) by { assert ps[0].id == id; }
      } else {
        assert HasId(ps, id) <==> HasId(rest, id) by {
          if HasId(ps, id) {
            var i :| 0 <= i < |ps| && ps[i].id == id;
            assert rest[i - 1].id == id;
          }
          if HasId(rest, id) {
            var i :| 0 <= i < |rest| && rest[i].id == id;
            assert ps[i + 1].id == id;
          }
        }
      }
    }
  }

  /**
   * On a cart with unique ids, `increment(id)` adds one unit of `id` when it is
   * in the cart and `decrement(id)` removes one; other products keep their totals.
   */
  lemma AdjustQuantityOf(ps: seq<Product>, id: string, other: string)
    requires UniqueIds(ps)
    ensures QuantityOf(Incremented(ps, id), id) == QuantityOf(ps, id) + (if HasId(ps, id) then 1 else 0)
    ensures QuantityOf(Decremented(ps, id), id) == QuantityOf(ps, id) - (if HasId(ps, id) then 1 else 0)
    ensures other != id ==> QuantityOf(Incremented(ps, id), other) == QuantityOf(ps, other)
    ensures other != id ==> QuantityOf(Decremented(ps, id), other) == QuantityOf(ps, other)
  {
    AdjustWhereQuantity(ps, id, 1, other);
    AdjustWhereQuantity(ps, id, -1, other);
  }

  // ---------------------------------------------------------------------
  // addToCart

  /** After `addToCart(item)` the cart holds the item's id. */
  lemma AddedHasId(ps: seq<Product>, item: NewProduct)
    ensures HasId(Added(ps, item), item.id)
  {
    var r := Added(ps, item);
    if HasId(ps, item.id) {
      var i :| 0 <= i < |ps| && ps[i].id == item.id;
      assert r[i].id == item.id;
    } else {
      assert r[|ps|].id == item.id;
    }
  }

  /** `addToCart` keeps at most one entry per id. */
  lemma AddedKeepsIdsUnique(ps: seq<Product>, item: NewProduct)
    requires UniqueIds(ps)
    ensures UniqueIds(Added(ps, item))
  {
    var r := Added(ps, item);
    if HasId(ps, item.id) {
      assert forall i :: 0 <= i < |ps| ==> r[i].id == ps[i].id;
    } else {
      forall i, j | 0 <= i < j < |r| ensures r[i].id != r[j].id {
        if j == |ps| {
          assert r[i] == ps[i];
        } else {
          assert r[i] == ps[i] && r[j] == ps[j];
        }
      }
    }
  }

  /** `addToCart` keeps every quantity positive. */
  lemma AddedKeepsPositive(ps: seq<Product>, item: NewProduct)
    requires AllPositive(ps)
    ensures AllPositive(Added(ps, item))
  {
  }

  /**
   * `addToCart` always changes the list. So the snapshot it persists, the
   * list as it was before the call, never equals the list it displays.
   */
  lemma AddedChanges(ps: seq<Product>, item: NewProduct)
    ensures Added(ps, item) != ps
  {
    if HasId(ps, item.id) {
      var i :| 0 <= i < |ps| && ps[i].id == item.id;
      assert Added(ps, item)[i].quantity == ps[i].quantity + 1;
    } else {
      assert |Added(ps, item)| == |ps| + 1;
    }
  }

  /** Merging an item whose id is absent leaves a list unchanged. */
  lemma {:induction false} MergeIntoAbsent(ps: seq<Product>, item: NewProduct)
    requires !HasId(ps, item.id)
    ensures MergeInto(ps, item) == ps
  {
    MergeIntoAt(ps, item);
  }

  /**
   * On a cart with unique ids, `addToCart(item)` adds exactly one unit of the
   * item's product, present or not, and leaves every other product's total alone.
   */
  lemma {:induction false} AddedQuantityOf(ps: seq<Product>, item: NewProduct, other: string)
    requires UniqueIds(ps)
    ensures QuantityOf(Added(ps, item), item.id) == QuantityOf(ps, item.id) + 1
    ensures other != item.id ==> QuantityOf(Added(ps, item), other) == QuantityOf(ps, other)
  {
    if HasId(ps, item.id) {
      MergeIntoQuantity(ps, item, other);
    } else {
      AppendQuantity(ps, WithQuantity(item, 1), item.id);
      AppendQuantity(ps, WithQuantity(item, 1), other);
    }
  }

  /** Appending one entry adds its quantity to the total of its own id only. */
  lemma {:induction false} AppendQuantity(ps: seq<Product>, p: Product, id: string)
    ensures QuantityOf(ps + [p], id) == QuantityOf(ps, id) + (if p.id == id then p.quantity else 0)
  {
    if ps != [] {
      assert (ps + [p])[1..] == ps[1..] + [p];
      AppendQuantity(ps[1..], p, id);
    } else {
      assert ([p])[1..] == [];
    }
  }

  /** On unique ids, merging moves the merged id's total up by one and no other. */
  lemma {:induction false} MergeIntoQuantity(ps: seq<Product>, item: NewProduct, other: string)
    requires UniqueIds(ps) && HasId(ps, item.id)
    ensures QuantityOf(MergeInto(ps, item), item.id) == QuantityOf(ps, item.id) + 1
    ensures other != item.id ==> QuantityOf(MergeInto(ps, item), other) == QuantityOf(ps, other)
  {
    var rest := ps[1..];
    assert UniqueIds(rest) by {
      forall i, j | 0 <= i < j < |rest| ensures rest[i].id != rest[j].id {
        assert rest[i] == ps[i + 1] && rest[j] == ps[j + 1];
      }
    }
    var r := MergeInto(ps, item);
    assert r[1..] == MergeInto(rest, item);
    if ps[0].id == item.id {
      assert !HasId(rest, item.id) by {
        forall i | 0 <= i < |rest| ensures rest[i].id != item.id {
          assert rest[i] == ps[i + 1];
        }
      }
      MergeIntoAbsent(rest, item);
    } else {
      assert HasId(rest, item.id) by {
        var i :| 0 <= i < |ps| && ps[i].id == item.id;
        assert rest[i - 1].id == item.id;
      }
      MergeIntoQuantity(rest, item, other);
    }
  }
}
