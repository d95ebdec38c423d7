/** The home dashboard's figures: the garments still pending and the
    number of garments of each of the five listed types. */
module Dashboard {
  import opened Lists
  import opened Entities

  const ProductTypes: seq<string> := ["Shalwar Suit", "Pant", "Shirt", "Two Piece Suit", "Three Piece Suit"]

  predicate IsPending(p: Product)
  {
    p.status == "pending"
  }

  /** The garments whose status is 'pending', in list order. */
  function PendingProducts(products: seq<Product>): (r: seq<Product>)
    ensures forall p :: p in r <==> p in products && p.status == "pending"
  {
    Filter(products, IsPending)
  }

  lemma PendingKeepsOrder(products: seq<Product>)
    ensures IsSubsequence(PendingProducts(products), products)
  {
    FilterIsSubsequence(products, IsPending);
  }

  /** The garments of exactly this type. */
  function CountOfType(products: seq<Product>, t: string): (n: nat)
    ensures n <= |products|
  {
    if products == [] then 0
    else (if products[0].itemType == t then 1 else 0) + CountOfType(products[1..], t)
  }

  /** productCounts: one count per listed type, in list order. */
  function ProductCounts(products: seq<Product>): (r: seq<nat>)
    ensures |r| == |ProductTypes|
    ensures forall i :: 0 <= i < |r| ==> r[i] == CountOfType(products, ProductTypes[i])
  {
    seq(|ProductTypes|, i requires 0 <= i < |ProductTypes| => CountOfType(products, ProductTypes[i]))
  }

  function Total(counts: seq<nat>): nat
  {
    if counts == [] then 0 else counts[0] + Total(counts[1..])
  }

  /** The garments of a listed type. */
  function ListedCount(products: seq<Product>): nat
  {
    if products == [] then 0
    else (if products[0].itemType in ProductTypes then 1 else 0) + ListedCount(products[1..])
  }

  lemma {:induction false} ListedCountBound(products: seq<Product>)
    ensures ListedCount(products) <= |products|
  {
    if products != [] {
      ListedCountBound(products[1..]);
    }
  }

  /** The five counts add up to the number of garments of a listed type,
      hence to at most the number of garments. */
  lemma {:induction false} CountsAddUp(products: seq<Product>)
    ensures Total(ProductCounts(products)) == ListedCount(products) <= |products|
  {
    ListedCountBound(products);
    TotalOfFive(ProductCounts(products));
    if products != [] {
      CountsAddUp(products[1..]);
      TotalOfFive(ProductCounts(products[1..]));
    }
  }

  lemma TotalOfFive(c: seq<nat>)
    requires |c| == 5
    ensures Total(c) == c[0] + c[1] + c[2] + c[3] + c[4]
  {
    var c1, c2, c3, c4 := c[1..], c[2..], c[3..], c[4..];
    assert c[1..][1..] == c2 && c2[1..] == c3 && c3[1..] == c4 && c4[1..] == [];
    assert Total(c4) == c[4];
    assert Total(c3) == c[3] + c[4];
    assert Total(c2) == c[2] + c[3] + c[4];
    assert Total(c1) == c[1] + c[2] + c[3] + c[4];
  }

  /** A garment of an unlisted type changes no count. */
  lemma UnlistedNotCounted(products: seq<Product>, p: Product)
    requires p.itemType !in ProductTypes
    ensures ProductCounts([p] + products) == ProductCounts(products)
  {
    assert ([p] + products)[1..] == products;
  }
}
