/**
 * The buyer-category aggregation of BuyerCategoryController::index:
 * a buyer's transactions are taken to their products, each product to its
 * categories (`pluck('product.categories')`), the category lists are
 * flattened (`collapse()`), duplicates are dropped by category id keeping
 * the first occurrence (`unique('id')`) and the result is re-indexed
 * (`values()`, which on a Dafny sequence is the identity).
 */
module BuyerCategoryController {

  type CategoryId = nat

  datatype Category = Category(id: CategoryId, name: string, description: string)

  datatype Product = Product(id: nat, name: string, categories: seq<Category>)

  /** A transaction of the buyer; it references exactly one product. */
  datatype Transaction = Transaction(id: nat, quantity: nat, product: Product)

  /** The ids occurring in a list of categories. */
  function IdSet(cs: seq<Category>): set<CategoryId>
  {
    set c | c in cs :: c.id
  }

  /** No two entries of `cs` share an id. */
  predicate DistinctIds(cs: seq<Category>)
  {
    forall i, j :: 0 <= i < j < |cs| ==> cs[i].id != cs[j].id
  }

  /** Some transaction of `ts` bought a product carrying category `c`. */
  ghost predicate PurchasedCategory(ts: seq<Transaction>, c: Category)
  {
    exists i :: 0 <= i < |ts| && c in ts[i].product.categories
  }

  /** Index of the first category of `cs` with the given id, or |cs| when there is none. */
  function IndexOfId(cs: seq<Category>, id: CategoryId): (k: nat)
    ensures k <= |cs|
    ensures k < |cs| ==> cs[k].id == id
    ensures k == |cs| <==> id !in IdSet(cs)
    ensures forall j :: 0 <= j < k ==> cs[j].id != id
  {
    if cs == [] then 0
    else if cs[0].id == id then 0
    else
      assert IdSet(cs) == {cs[0].id} + IdSet(cs[1..]);
      1 + IndexOfId(cs[1..], id)
  }

  /** `pluck('product.categories')`: the category list of each transaction's product. */
  function Pluck(ts: seq<Transaction>): (r: seq<seq<Category>>)
    ensures |r| == |ts|
    ensures forall i :: 0 <= i < |ts| ==> r[i] == ts[i].product.categories
  {
    if ts == [] then [] else [ts[0].product.categories] + Pluck(ts[1..])
  }

  /** `collapse()`: the lists concatenated in order. */
  function Collapse(css: seq<seq<Category>>): (r: seq<Category>)
    ensures r == [] <==> forall i :: 0 <= i < |css| ==> css[i] == []
  {
    if css == [] then [] else css[0] + Collapse(css[1..])
  }

  /**
   * `unique('id')` as the collection runs it: walk the list from the front,
   * rejecting an item whose id is already in `seen`, and otherwise keeping it
   * and adding its id to `seen`.
   */
  function UniqueFrom(cs: seq<Category>, seen: set<CategoryId>): (r: seq<Category>)
    ensures |r| <= |cs|
    ensures forall k :: 0 <= k < |r| ==> r[k].id !in seen
    ensures forall k :: 0 <= k < |r| ==> r[k] in cs
  {
    if cs == [] then []
    else if cs[0].id in seen then UniqueFrom(cs[1..], seen)
    else [cs[0]] + UniqueFrom(cs[1..], seen + {cs[0].id})
  }

  /** `unique('id')` on a whole list: nothing seen yet. */
  function UniqueById(cs: seq<Category>): (r: seq<Category>)
    ensures DistinctIds(r)
    ensures IdSet(r) == IdSet(cs)
    ensures KeptAreFirst(cs, r) && InFirstSeenOrder(cs, r)
  {
    UniqueFromDistinct(cs, {});
    UniqueFromIds(cs, {});
    UniqueFromFirstOccurrences(cs, {});
    UniqueFrom(cs, {})
  }

  /** The categories BuyerCategoryController::index returns for the buyer's transactions `ts`. */
  function BuyerCategories(ts: seq<Transaction>): (r: seq<Category>)
    ensures DistinctIds(r)
    ensures IdSet(r) == IdSet(Collapse(Pluck(ts)))
    ensures ts == [] ==> r == []
  {
    UniqueById(Collapse(Pluck(ts)))
  }

  // ---------------------------------------------------------------------
  // Flattening

  lemma {:induction false} CollapseMembership(css: seq<seq<Category>>, c: Category)
    ensures c in Collapse(css) <==> exists i :: 0 <= i < |css| && c in css[i]
  {
    if css != [] {
      CollapseMembership(css[1..], c);
      assert c in Collapse(css) <==> c in css[0] || c in Collapse(css[1..]);
      if c in Collapse(css[1..]) {
        var i :| 0 <= i < |css[1..]| && c in css[1..][i];
        assert c in css[i + 1];
      }
      if exists i :: 0 <= i < |css| && c in css[i] {
        var i :| 0 <= i < |css| && c in css[i];
        if i > 0 {
          assert c in css[1..][i - 1];
        }
      }
    }
  }

  // ---------------------------------------------------------------------
  // Deduplication

  lemma {:induction false} UniqueFromDistinct(cs: seq<Category>, seen: set<CategoryId>)
    ensures DistinctIds(UniqueFrom(cs, seen))
  {
    if cs != [] {
      if cs[0].id in seen {
        UniqueFromDistinct(cs[1..], seen);
      } else {
        var rest := UniqueFrom(cs[1..], seen + {cs[0].id});
        UniqueFromDistinct(cs[1..], seen + {cs[0].id});
        var r := [cs[0]] + rest;
        forall i, j | 0 <= i < j < |r| ensures r[i].id != r[j].id {
          if i == 0 {
            assert r[j] == rest[j - 1];
          } else {
            assert r[i] == rest[i - 1] && r[j] == rest[j - 1];
          }
        }
      }
    }
  }

  lemma {:induction false} UniqueFromIds(cs: seq<Category>, seen: set<CategoryId>)
    ensures IdSet(UniqueFrom(cs, seen)) == IdSet(cs) - seen
  {
    if cs != [] {
      assert IdSet(cs) == {cs[0].id} + IdSet(cs[1..]);
      if cs[0].id in seen {
        UniqueFromIds(cs[1..], seen);
      } else {
        var rest := UniqueFrom(cs[1..], seen + {cs[0].id});
        UniqueFromIds(cs[1..], seen + {cs[0].id});
        assert IdSet([cs[0]] + rest) == {cs[0].id} + IdSet(rest);
      }
    }
  }

  /** Every entry of `r` is the first category of `cs` carrying its id. */
  predicate KeptAreFirst(cs: seq<Category>, r: seq<Category>)
  {
    forall k :: 0 <= k < |r| ==> IndexOfId(cs, r[k].id) < |cs| && cs[IndexOfId(cs, r[k].id)] == r[k]
  }

  /** The entries of `r` appear in the order of their ids' first occurrences in `cs`. */
  predicate InFirstSeenOrder(cs: seq<Category>, r: seq<Category>)
  {
    forall k1, k2 :: 0 <= k1 < k2 < |r| ==> IndexOfId(cs, r[k1].id) < IndexOfId(cs, r[k2].id)
  }

  /** Prepending a category whose id none of `r` carries shifts every first index by one. */
  lemma ShiftPastHead(cs: seq<Category>, r: seq<Category>)
    requires cs != []
    requires forall k :: 0 <= k < |r| ==> r[k].id != cs[0].id
    requires KeptAreFirst(cs[1..], r) && InFirstSeenOrder(cs[1..], r)
    ensures forall k :: 0 <= k < |r| ==> IndexOfId(cs, r[k].id) == 1 + IndexOfId(cs[1..], r[k].id)
    ensures KeptAreFirst(cs, r) && InFirstSeenOrder(cs, r)
  {
    forall k | 0 <= k < |r|
      ensures IndexOfId(cs, r[k].id) == 1 + IndexOfId(cs[1..], r[k].id)
      ensures IndexOfId(cs, r[k].id) < |cs| && cs[IndexOfId(cs, r[k].id)] == r[k]
    {
      var i := IndexOfId(cs[1..], r[k].id);
      assert cs[1 + i] == cs[1..][i];
    }
  }

  /** The head of `cs` is the first of its id, and it comes before every entry of `r` that is not at the head. */
  lemma KeepHead(cs: seq<Category>, r: seq<Category>)
    requires cs != []
    requires forall k :: 0 <= k < |r| ==> IndexOfId(cs, r[k].id) > 0
    requires KeptAreFirst(cs, r) && InFirstSeenOrder(cs, r)
    ensures KeptAreFirst(cs, [cs[0]] + r) && InFirstSeenOrder(cs, [cs[0]] + r)
  {
    var r' := [cs[0]] + r;
    forall k | 0 < k < |r'| ensures r'[k] == r[k - 1] { }
  }

  /**
   * Every kept category is the first one in `cs` carrying its id, and the kept
   * categories appear in the order of their first occurrences in `cs`.
   */
  lemma {:induction false} UniqueFromFirstOccurrences(cs: seq<Category>, seen: set<CategoryId>)
    ensures KeptAreFirst(cs, UniqueFrom(cs, seen))
    ensures InFirstSeenOrder(cs, UniqueFrom(cs, seen))
  {
    if cs != [] {
      var tail := cs[1..];
      if cs[0].id in seen {
        UniqueFromFirstOccurrences(tail, seen);
        ShiftPastHead(cs, UniqueFrom(tail, seen));
      } else {
        var rest := UniqueFrom(tail, seen + {cs[0].id});
        UniqueFromFirstOccurrences(tail, seen + {cs[0].id});
        ShiftPastHead(cs, rest);
        KeepHead(cs, rest);
      }
    }
  }

  // ---------------------------------------------------------------------
  // The aggregation

  /** The result lists each purchased category id exactly once: no id twice, nothing foreign, nothing missing. */
  lemma BuyerCategoriesExact(ts: seq<Transaction>)
    ensures DistinctIds(BuyerCategories(ts))
    ensures forall c :: c in BuyerCategories(ts) ==> PurchasedCategory(ts, c)
    ensures forall i, c :: 0 <= i < |ts| && c in ts[i].product.categories ==> c.id in IdSet(BuyerCategories(ts))
  {
    var css := Pluck(ts);
    var cs := Collapse(css);
    UniqueFromDistinct(cs, {});
    UniqueFromIds(cs, {});
    forall c | c in BuyerCategories(ts) ensures PurchasedCategory(ts, c) {
      CollapseMembership(css, c);
      var i :| 0 <= i < |css| && c in css[i];
      assert c in ts[i].product.categories;
    }
    forall i, c | 0 <= i < |ts| && c in ts[i].product.categories
      ensures c.id in IdSet(BuyerCategories(ts))
    {
      CollapseMembership(css, c);
      assert c in css[i];
      assert c.id in IdSet(cs);
    }
  }

  /**
   * The result is the first occurrence of each id in the flattened
   * transaction-then-category order, listed in that order.
   */
  lemma BuyerCategoriesFirstSeenOrder(ts: seq<Transaction>)
    ensures KeptAreFirst(Collapse(Pluck(ts)), BuyerCategories(ts))
    ensures InFirstSeenOrder(Collapse(Pluck(ts)), BuyerCategories(ts))
  {
    assert BuyerCategories(ts) == UniqueFrom(Collapse(Pluck(ts)), {});
    UniqueFromFirstOccurrences(Collapse(Pluck(ts)), {});
  }

  /** A buyer without transactions has no categories; the result never outgrows the flattened list. */
  lemma BuyerCategoriesSize(ts: seq<Transaction>)
    ensures |BuyerCategories(ts)| <= |Collapse(Pluck(ts))|
    ensures ts == [] ==> BuyerCategories(ts) == []
  {
  }

  /** Two purchases with categories {C1, C2} and {C2, C3} give C1, C2, C3, each once. */
  lemma TwoPurchases(c1: Category, c2: Category, c3: Category, p: Product, q: Product, t: Transaction, u: Transaction)
    requires c1.id == 1 && c2.id == 2 && c3.id == 3
    requires p.categories == [c1, c2] && q.categories == [c2, c3]
    requires t.product == p && u.product == q
    ensures BuyerCategories([t, u]) == [c1, c2, c3]
  {
    assert Pluck([t, u]) == [[c1, c2], [c2, c3]];
    assert [[c1, c2], [c2, c3]][1..] == [[c2, c3]];
    assert Collapse([[c2, c3]]) == [c2, c3] + Collapse([]);
    assert Collapse([[c1, c2], [c2, c3]]) == [c1, c2, c2, c3];
    var cs := [c1, c2, c2, c3];
    assert UniqueFrom(cs[3..], {1, 2}) == [c3] + UniqueFrom([], {1, 2, 3});
    assert UniqueFrom(cs[2..], {1, 2}) == UniqueFrom(cs[3..], {1, 2});
    assert {1} + {c2.id} == {1, 2};
    assert UniqueFrom(cs[1..], {1}) == [c2] + UniqueFrom(cs[2..], {1, 2});
    assert {} + {c1.id} == {1};
    assert UniqueFrom(cs, {}) == [c1] + UniqueFrom(cs[1..], {1});
  }
}
