/**
 * The order in which buy-get hands out discounted units: target items by unit
 * price, highest first, items of equal price keeping their input order (the
 * comparator `b.unit_price - a.unit_price` under a stable sort).
 */
module PriceOrder {
  import opened PromotionTypes

  predicate PriceNonIncreasing(s: seq<Item>)
  {
    forall i, j :: 0 <= i < j < |s| ==> s[i].unitPrice >= s[j].unitPrice
  }

  /** The items of `s` whose unit price is `p`, in their order in `s`. */
  function WithPrice(s: seq<Item>, p: int): seq<Item>
  {
    if s == [] then []
    else (if s[0].unitPrice == p then [s[0]] else []) + WithPrice(s[1..], p)
  }

  /** Every item of `s` costs at most `p`. */
  predicate NoDearerThan(s: seq<Item>, p: int)
  {
    forall i :: 0 <= i < |s| ==> s[i].unitPrice <= p
  }

  lemma PrependKeepsOrder(h: Item, t: seq<Item>)
    requires PriceNonIncreasing(t) && NoDearerThan(t, h.unitPrice)
    ensures PriceNonIncreasing([h] + t)
  {
  }

  lemma InsertedNoDearer(x: Item, s: seq<Item>, rest: seq<Item>, p: int)
    requires multiset(rest) == multiset(s) + multiset{x}
    requires NoDearerThan(s, p) && x.unitPrice <= p
    ensures NoDearerThan(rest, p)
  {
    forall i | 0 <= i < |rest|
      ensures rest[i].unitPrice <= p
    {
      assert rest[i] in multiset(rest);
      if rest[i] != x {
        assert rest[i] in multiset(s);
      }
    }
  }

  /** Inserts `x` in front of every item that is not dearer than it. */
  function InsertByPrice(x: Item, s: seq<Item>): (r: seq<Item>)
    requires PriceNonIncreasing(s)
    ensures PriceNonIncreasing(r)
    ensures multiset(r) == multiset(s) + multiset{x}
  {
    if s == [] || s[0].unitPrice <= x.unitPrice then
      PrependKeepsOrder(x, s);
      [x] + s
    else
      var rest := InsertByPrice(x, s[1..]);
      assert s == [s[0]] + s[1..];
      InsertedNoDearer(x, s[1..], rest, s[0].unitPrice);
      PrependKeepsOrder(s[0], rest);
      [s[0]] + rest
  }

  /** The target list as the source's sort leaves it. */
  function SortByPriceDesc(s: seq<Item>): (r: seq<Item>)
    ensures PriceNonIncreasing(r)
    ensures multiset(r) == multiset(s)
  {
    if s == [] then []
    else
      assert s == [s[0]] + s[1..];
      InsertByPrice(s[0], SortByPriceDesc(s[1..]))
  }

  lemma WithPriceCons(x: Item, t: seq<Item>, p: int)
    ensures WithPrice([x] + t, p) == (if x.unitPrice == p then [x] else []) + WithPrice(t, p)
  {
    assert ([x] + t)[1..] == t;
  }

  /** Inserting behind a dearer head recurses on the tail. */
  lemma InsertByPriceBehindHead(x: Item, s: seq<Item>)
    requires PriceNonIncreasing(s) && s != [] && s[0].unitPrice > x.unitPrice
    ensures PriceNonIncreasing(s[1..])
    ensures InsertByPrice(x, s) == [s[0]] + InsertByPrice(x, s[1..])
  {
  }

  lemma {:induction false} InsertByPriceWithPrice(x: Item, s: seq<Item>, p: int)
    requires PriceNonIncreasing(s)
    ensures WithPrice(InsertByPrice(x, s), p) == (if x.unitPrice == p then [x] else []) + WithPrice(s, p)
  {
    if s == [] || s[0].unitPrice <= x.unitPrice {
      WithPriceCons(x, s, p);
    } else {
      InsertByPriceBehindHead(x, s);
      var rest := InsertByPrice(x, s[1..]);
      var tail := WithPrice(s[1..], p);
      InsertByPriceWithPrice(x, s[1..], p);
      WithPriceCons(s[0], rest, p);
      if x.unitPrice == p {
        // the head is dearer than p, so neither list keeps it
        assert WithPrice(rest, p) == [x] + tail;
        assert WithPrice(InsertByPrice(x, s), p) == [] + ([x] + tail) == [x] + tail;
        assert WithPrice(s, p) == [] + tail == tail;
      } else {
        var h0 := if s[0].unitPrice == p then [s[0]] else [];
        assert WithPrice(rest, p) == [] + tail == tail;
        assert WithPrice(InsertByPrice(x, s), p) == h0 + tail;
        assert WithPrice(s, p) == h0 + tail;
        assert [] + (h0 + tail) == h0 + tail;
      }
    }
  }


  /** The sort is stable: for every price, the items of that price appear in their input order. */
  lemma {:induction false} SortByPriceDescStable(s: seq<Item>, p: int)
    ensures WithPrice(SortByPriceDesc(s), p) == WithPrice(s, p)
  {
    if s != [] {
      SortByPriceDescStable(s[1..], p);
      InsertByPriceWithPrice(s[0], SortByPriceDesc(s[1..]), p);
    }
  }
}
