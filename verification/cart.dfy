/** The client-side cart of `src/lib/cart-context.tsx` as pure list
    operations. Persistence to browser storage is not modelled. */
module Cart {
  import opened Stamp

  /** A priced snapshot of a configuration, identified by a UUID. */
  datatype CartItem = CartItem(id: string, config: StampConfig, price: int)

  type Items = seq<CartItem>

  /** `cartTotal`: the prices summed from the left, starting at 0. */
  function CartTotal(items: Items): (t: int)
    ensures (forall i :: 0 <= i < |items| ==> items[i].price >= 0) ==> t >= 0
    ensures |items| == 1 ==> t == items[0].price
  {
    if |items| == 0 then 0 else CartTotal(items[..|items| - 1]) + items[|items| - 1].price
  }

  /** The total of a cart split in two is the sum of the parts' totals, so
      the left fold does not depend on how the list is grouped. */
  lemma {:induction false} CartTotalConcat(a: Items, b: Items)
    ensures CartTotal(a + b) == CartTotal(a) + CartTotal(b)
    decreases |b|
  {
    if |b| == 0 {
      assert a + b == a;
    } else {
      var n := |b| - 1;
      assert (a + b)[..|a + b| - 1] == a + b[..n];
      assert (a + b)[|a + b| - 1] == b[n];
      CartTotalConcat(a, b[..n]);
    }
  }

  /** `addToCart(config, price)` where `freshId` is what `crypto.randomUUID()`
      returned. */
  function AddToCart(items: Items, freshId: string, config: StampConfig, price: int): (r: Items)
    ensures |r| == |items| + 1
    ensures r[..|items|] == items
    ensures r[|items|] == CartItem(freshId, config, price)
    ensures CartTotal(r) == CartTotal(items) + price
  {
    var r := items + [CartItem(freshId, config, price)];
    assert r[..|r| - 1] == items;
    r
  }

  /** `removeFromCart(id)`: `filter(item => item.id !== id)`. */
  function RemoveFromCart(items: Items, id: string): (r: Items)
    ensures forall i :: 0 <= i < |r| ==> r[i].id != id
    ensures |r| <= |items|
    decreases |items|
  {
    if |items| == 0 then []
    else
      var rest := RemoveFromCart(items[..|items| - 1], id);
      var last := items[|items| - 1];
      if last.id != id then rest + [last] else rest
  }

  /** An item survives removal exactly when it was in the cart and carries
      another id. */
  lemma {:induction false} RemoveMembership(items: Items, id: string, x: CartItem)
    ensures x in RemoveFromCart(items, id) <==> x in items && x.id != id
    decreases |items|
  {
    if |items| > 0 {
      var prefix := items[..|items| - 1];
      RemoveMembership(prefix, id, x);
      assert items == prefix + [items[|items| - 1]];
    }
  }

  /** `clearCart()`. */
  function ClearCart(items: Items): (r: Items)
    ensures |r| == 0
    ensures CartTotal(r) == 0
  {
    []
  }

  /** `r` is `s` with some elements dropped and the rest kept in order
      (matched greedily from the end). */
  predicate IsSubsequence(r: Items, s: Items)
    decreases |s|
  {
    if |r| == 0 then true
    else if |s| == 0 then false
    else if r[|r| - 1] == s[|s| - 1] then IsSubsequence(r[..|r| - 1], s[..|s| - 1])
    else IsSubsequence(r, s[..|s| - 1])
  }

  /** Removal keeps the surviving items in their original relative order. */
  lemma {:induction false} RemoveKeepsOrder(items: Items, id: string)
    ensures IsSubsequence(RemoveFromCart(items, id), items)
    decreases |items|
  {
    if |items| > 0 {
      var prefix := items[..|items| - 1];
      var rest := RemoveFromCart(prefix, id);
      var last := items[|items| - 1];
      RemoveKeepsOrder(prefix, id);
      if last.id != id {
        var r := rest + [last];
        assert r[..|r| - 1] == rest;
      } else {
        SubsequenceExtend(rest, prefix, last);
        assert prefix + [last] == items;
      }
    }
  }

  /** A subsequence of `s` is one of `s` extended by an element. */
  lemma {:induction false} SubsequenceExtend(r: Items, s: Items, x: CartItem)
    requires IsSubsequence(r, s)
    ensures IsSubsequence(r, s + [x])
    decreases |s|, 1
  {
    var t := s + [x];
    assert t[..|t| - 1] == s;
    if |r| > 0 && r[|r| - 1] == x {
      // matched greedily against the new last element instead
      SubsequenceDropLast(r, s);
    }
  }

  /** Dropping the last element of a subsequence keeps it a subsequence. */
  lemma {:induction false} SubsequenceDropLast(r: Items, s: Items)
    requires |r| > 0
    requires IsSubsequence(r, s)
    ensures IsSubsequence(r[..|r| - 1], s)
    decreases |s|, 0
  {
    var s' := s[..|s| - 1];
    if r[|r| - 1] == s[|s| - 1] {
      if |r| > 1 {
        SubsequenceDropLast(r[..|r| - 1], s');
        assert r[..|r| - 1][..|r| - 2] == r[..|r| - 2];
      }
      SubsequenceExtend(r[..|r| - 1], s', s[|s| - 1]);
      assert s' + [s[|s| - 1]] == s;
    } else {
      SubsequenceDropLast(r, s');
      SubsequenceExtend(r[..|r| - 1], s', s[|s| - 1]);
      assert s' + [s[|s| - 1]] == s;
    }
  }

  /** Filtering distributes over concatenation: the items of `a` that
      survive come first, in order, then those of `b`. */
  lemma {:induction false} RemoveDistributes(a: Items, b: Items, id: string)
    ensures RemoveFromCart(a + b, id) == RemoveFromCart(a, id) + RemoveFromCart(b, id)
    decreases |b|
  {
    if |b| == 0 {
      assert a + b == a;
    } else {
      var b' := b[..|b| - 1];
      var last := b[|b| - 1];
      var ab := a + b;
      assert ab[..|ab| - 1] == a + b';
      assert ab[|ab| - 1] == last;
      RemoveDistributes(a, b', id);
      var ra, rb' := RemoveFromCart(a, id), RemoveFromCart(b', id);
      if last.id != id {
        assert RemoveFromCart(b, id) == rb' + [last];
        assert RemoveFromCart(ab, id) == ra + rb' + [last];
      } else {
        assert RemoveFromCart(b, id) == rb';
        assert RemoveFromCart(ab, id) == ra + rb';
      }
    }
  }

  /** Removing an id that no item carries leaves the cart as it was. */
  lemma {:induction false} RemoveAbsentIsIdentity(items: Items, id: string)
    requires forall i :: 0 <= i < |items| ==> items[i].id != id
    ensures RemoveFromCart(items, id) == items
    decreases |items|
  {
    if |items| > 0 {
      RemoveAbsentIsIdentity(items[..|items| - 1], id);
      assert items[..|items| - 1] + [items[|items| - 1]] == items;
    }
  }

  /** The total of the items carrying `id`. */
  function PriceOf(items: Items, id: string): int
  {
    if |items| == 0 then 0
    else PriceOf(items[..|items| - 1], id)
         + (if items[|items| - 1].id == id then items[|items| - 1].price else 0)
  }

  /** Removing an id lowers the total by exactly the prices of the items
      carrying it. */
  lemma {:induction false} RemoveTotal(items: Items, id: string)
    ensures CartTotal(RemoveFromCart(items, id)) == CartTotal(items) - PriceOf(items, id)
    decreases |items|
  {
    if |items| > 0 {
      var prefix := items[..|items| - 1];
      var last := items[|items| - 1];
      RemoveTotal(prefix, id);
      var rest := RemoveFromCart(prefix, id);
      if last.id != id {
        assert (rest + [last])[..|rest|] == rest;
      }
    }
  }

  /** Item ids are pairwise distinct. */
  predicate DistinctIds(items: Items) {
    forall i, j :: 0 <= i < j < |items| ==> items[i].id != items[j].id
  }

  /** An id no item carries. */
  predicate Fresh(items: Items, id: string) {
    forall i :: 0 <= i < |items| ==> items[i].id != id
  }

  /** The cart operations, with the fresh UUID of an addition supplied. */
  datatype CartOp =
    | Add(freshId: string, config: StampConfig, price: int)
    | Remove(id: string)
    | Clear

  function Apply(items: Items, op: CartOp): Items {
    match op
    case Add(fid, c, p) => AddToCart(items, fid, c, p)
    case Remove(id) => RemoveFromCart(items, id)
    case Clear => ClearCart(items)
  }

  /** Every addition in `ops` uses an id fresh for the cart it is applied to. */
  predicate FreshAdds(items: Items, ops: seq<CartOp>)
    decreases |ops|
  {
    |ops| == 0 ||
    ((ops[0].Add? ==> Fresh(items, ops[0].freshId)) && FreshAdds(Apply(items, ops[0]), ops[1..]))
  }

  function ApplyAll(items: Items, ops: seq<CartOp>): Items
    decreases |ops|
  {
    if |ops| == 0 then items else ApplyAll(Apply(items, ops[0]), ops[1..])
  }

  /** Removal keeps ids pairwise distinct. */
  lemma {:induction false} RemoveKeepsDistinct(items: Items, id: string)
    requires DistinctIds(items)
    ensures DistinctIds(RemoveFromCart(items, id))
    decreases |items|
  {
    if |items| > 0 {
      var prefix := items[..|items| - 1];
      var last := items[|items| - 1];
      var rest := RemoveFromCart(prefix, id);
      RemoveKeepsDistinct(prefix, id);
      if last.id != id {
        forall x | x in rest
          ensures x.id != last.id
        {
          RemoveMembership(prefix, id, x);
          var k :| 0 <= k < |prefix| && prefix[k] == x;
          assert items[k] == x;
        }
        var r := rest + [last];
        forall i, j | 0 <= i < j < |r|
          ensures r[i].id != r[j].id
        {
          if j == |r| - 1 {
            assert r[i] in rest;
          } else {
            assert r[i] == rest[i] && r[j] == rest[j];
          }
        }
      }
    }
  }

  /** One operation keeps ids pairwise distinct when an added id is fresh. */
  lemma ApplyKeepsDistinct(items: Items, op: CartOp)
    requires DistinctIds(items)
    requires op.Add? ==> Fresh(items, op.freshId)
    ensures DistinctIds(Apply(items, op))
  {
    if op.Remove? {
      RemoveKeepsDistinct(items, op.id);
    }
  }

  /** If every added id is fresh, item ids stay pairwise distinct across any
      sequence of cart operations. */
  lemma {:induction false} IdsStayDistinct(items: Items, ops: seq<CartOp>)
    requires DistinctIds(items)
    requires FreshAdds(items, ops)
    ensures DistinctIds(ApplyAll(items, ops))
    decreases |ops|
  {
    if |ops| > 0 {
      ApplyKeepsDistinct(items, ops[0]);
      IdsStayDistinct(Apply(items, ops[0]), ops[1..]);
    }
  }
}
