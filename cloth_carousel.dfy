/** The fabric picker of the order screens: three text filters (name,
    fabric type, colour), the fabric families that fit the garment being
    ordered, and picking a fabric. */
module ClothCarousel {
  import opened Base
  import opened Text
  import opened Lists
  import opened Entities

  /** All three queries match, each ignoring case. */
  predicate ClothMatches(c: Cloth, nameQuery: string, typeQuery: string, colorQuery: string)
  {
    && Contains(Lower(c.name), Lower(nameQuery))
    && Contains(Lower(c.clothType), Lower(typeQuery))
    && Contains(Lower(c.color), Lower(colorQuery))
  }

  function FilteredCloths(cloths: seq<Cloth>, nameQuery: string, typeQuery: string, colorQuery: string): (r: seq<Cloth>)
    ensures forall c :: c in r <==> c in cloths && ClothMatches(c, nameQuery, typeQuery, colorQuery)
  {
    Filter(cloths, (c: Cloth) => ClothMatches(c, nameQuery, typeQuery, colorQuery))
  }

  /** The filter keeps the list order; with three empty queries every
      fabric is shown. */
  lemma FilteredClothsKeepOrder(cloths: seq<Cloth>, nameQuery: string, typeQuery: string, colorQuery: string)
    ensures IsSubsequence(FilteredCloths(cloths, nameQuery, typeQuery, colorQuery), cloths)
    ensures nameQuery == typeQuery == colorQuery == "" ==> FilteredCloths(cloths, nameQuery, typeQuery, colorQuery) == cloths
  {
    var p := (c: Cloth) => ClothMatches(c, nameQuery, typeQuery, colorQuery);
    FilterIsSubsequence(cloths, p);
    if nameQuery == typeQuery == colorQuery == "" {
      forall i | 0 <= i < |cloths|
        ensures p(cloths[i])
      {
        ContainsEmpty(Lower(cloths[i].name));
        ContainsEmpty(Lower(cloths[i].clothType));
        ContainsEmpty(Lower(cloths[i].color));
      }
      FilterKeepsAll(cloths, p);
    }
  }

  /** Which fabric family fits which garment. */
  predicate FitsGarment(c: Cloth, garment: string)
  {
    if c.productType == "coat" && (garment == "Three Piece Suit" || garment == "Two Piece Suit"
                                    || garment == "Waist Coat" || garment == "Pant") then true
    else if c.productType == "shirt" && garment == "Shirt" then true
    else c.productType == "qameez suit" && garment == "Shalwar Suit"
  }

  /** The six (fabric family, garment) pairs that fit. */
  const FittingPairs: set<(string, string)> := {
    ("coat", "Three Piece Suit"), ("coat", "Two Piece Suit"), ("coat", "Waist Coat"), ("coat", "Pant"),
    ("shirt", "Shirt"), ("qameez suit", "Shalwar Suit")}

  lemma FitsGarmentExactly(c: Cloth, garment: string)
    ensures FitsGarment(c, garment) <==> (c.productType, garment) in FittingPairs
  {
  }

  function FilteredProducts(filtered: seq<Cloth>, garment: string): (r: seq<Cloth>)
    ensures forall c :: c in r <==> c in filtered && (c.productType, garment) in FittingPairs
  {
    Filter(filtered, (c: Cloth) => FitsGarment(c, garment))
  }

  lemma FilteredProductsKeepOrder(filtered: seq<Cloth>, garment: string)
    ensures IsSubsequence(FilteredProducts(filtered, garment), filtered)
  {
    FilterIsSubsequence(filtered, (c: Cloth) => FitsGarment(c, garment));
  }

  /** Filling the three queries with a fabric's own name, type and colour
      keeps that fabric on show. */
  lemma OwnQueriesMatch(c: Cloth)
    ensures ClothMatches(c, c.name, c.clothType, c.color)
  {
    ContainsSelf(Lower(c.name));
    ContainsSelf(Lower(c.clothType));
    ContainsSelf(Lower(c.color));
  }

  class Carousel {
    var cloths: seq<Cloth>
    var nameQuery: string
    var typeQuery: string
    var colorQuery: string
    var selectedItem: Option<Cloth>

    constructor (fetched: seq<Cloth>)
      ensures cloths == fetched && nameQuery == typeQuery == colorQuery == "" && selectedItem == None
    {
      cloths := fetched;
      nameQuery, typeQuery, colorQuery := "", "", "";
      selectedItem := None;
    }

    /** The fabrics that match the three queries (`filteredCloths`); what
        the carousel draws is this list narrowed further by garment type. */
    function Matching(): seq<Cloth>
      reads this
    {
      FilteredCloths(cloths, nameQuery, typeQuery, colorQuery)
    }

    /** setItem: the fabric is selected and the queries take its own name,
        colour and type, so it still matches them. */
    method SetItem(item: Cloth)
      modifies this
      ensures selectedItem == Some(item) && cloths == old(cloths)
      ensures nameQuery == item.name && colorQuery == item.color && typeQuery == item.clothType
      ensures item in cloths ==> item in Matching()
    {
      selectedItem := Some(item);
      nameQuery := item.name;
      colorQuery := item.color;
      typeQuery := item.clothType;
      OwnQueriesMatch(item);
    }
  }
}
