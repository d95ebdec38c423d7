/** The cloth catalogue page: the distinct fabric types, the three
    product-type sections, the section search and the check that guards
    adding a fabric. */
module ClothCatalog {
  import opened Text
  import opened Lists
  import opened Entities

  /** The position of the first occurrence of `x` in `s`. */
  function FirstIndex(s: seq<string>, x: string): (k: nat)
    requires x in s
    ensures k < |s| && s[k] == x && forall j :: 0 <= j < k ==> s[j] != x
  {
    if s[0] == x then 0 else 1 + FirstIndex(s[1..], x)
  }

  /** The entries of `s` without repetitions, in order of first occurrence
      (what spreading a `Set` built from `s` yields). */
  function Distinct(s: seq<string>): (r: seq<string>)
    ensures forall x :: x in r <==> x in s
    ensures forall i, j :: 0 <= i < j < |r| ==> r[i] != r[j]
  {
    if |s| == 0 then []
    else
      var r := Distinct(s[..|s| - 1]);
      if s[|s| - 1] in r then r else r + [s[|s| - 1]]
  }

  /** Distinct entries come in the order of their first occurrences. */
  lemma {:induction false} DistinctKeepsFirstOccurrenceOrder(s: seq<string>)
    ensures forall i, j :: 0 <= i < j < |Distinct(s)| ==> FirstIndex(s, Distinct(s)[i]) < FirstIndex(s, Distinct(s)[j])
  {
    if |s| > 0 {
      var init := s[..|s| - 1];
      var r0 := Distinct(init);
      DistinctKeepsFirstOccurrenceOrder(init);
      forall x | x in init
        ensures FirstIndex(s, x) == FirstIndex(init, x)
      {
        FirstIndexOfPrefix(init, s, x);
      }
      if s[|s| - 1] !in r0 {
        var r := r0 + [s[|s| - 1]];
        assert s[|s| - 1] !in init;
        assert FirstIndex(s, s[|s| - 1]) == |s| - 1;
        assert r == Distinct(s);
        forall i, j | 0 <= i < j < |r|
          ensures FirstIndex(s, r[i]) < FirstIndex(s, r[j])
        {
          assert r[i] == r0[i] && r0[i] in init;
          assert FirstIndex(s, r[i]) == FirstIndex(init, r0[i]) < |init|;
          if j < |r0| {
            assert r[j] == r0[j] && r0[j] in init;
            assert FirstIndex(s, r[j]) == FirstIndex(init, r0[j]);
            assert FirstIndex(init, r0[i]) < FirstIndex(init, r0[j]);
          } else {
            assert r[j] == s[|s| - 1];
          }
        }
      } else {
        assert Distinct(s) == r0;
      }
    }
  }

  /** Where `x` already occurs in a prefix, its first occurrence there is its
      first occurrence in the whole list. */
  lemma FirstIndexOfPrefix(init: seq<string>, s: seq<string>, x: string)
    requires init <= s && x in init
    ensures FirstIndex(s, x) == FirstIndex(init, x)
  {
    var k, m := FirstIndex(s, x), FirstIndex(init, x);
    assert s[m] == x;
    assert init[k] == x || k >= |init|;
  }

  function ClothTypes(cloths: seq<Cloth>): (r: seq<string>)
    ensures |r| == |cloths| && forall i :: 0 <= i < |r| ==> r[i] == cloths[i].clothType
  {
    seq(|cloths|, i requires 0 <= i < |cloths| => cloths[i].clothType)
  }

  /** The type filter's choices: each fabric type exactly once. */
  function UniqueTypes(cloths: seq<Cloth>): (r: seq<string>)
    ensures forall t :: t in r <==> exists c :: c in cloths && c.clothType == t
    ensures forall i, j :: 0 <= i < j < |r| ==> r[i] != r[j]
  {
    var types := ClothTypes(cloths);
    assert forall t :: t in types <==> exists c :: c in cloths && c.clothType == t by {
      forall t
        ensures t in types <==> exists c :: c in cloths && c.clothType == t
      {
        if t in types {
          var i :| 0 <= i < |types| && types[i] == t;
          assert cloths[i] in cloths;
        }
        if exists c :: c in cloths && c.clothType == t {
          var c :| c in cloths && c.clothType == t;
          var i :| 0 <= i < |cloths| && cloths[i] == c;
          assert types[i] == t;
        }
      }
    }
    Distinct(types)
  }

  /** One section of the page: the fabrics for one product type
      (`coat`, `qameez suit` or `shirt`). */
  function SectionCloths(cloths: seq<Cloth>, productType: string): (r: seq<Cloth>)
    ensures forall c :: c in r <==> c in cloths && c.productType == productType
  {
    Filter(cloths, (c: Cloth) => c.productType == productType)
  }

  /** The three sections never share a fabric, hold at most the whole
      catalogue between them, and hold all of it when every fabric has one
      of the three product types the form offers. */
  lemma {:induction false} SectionsSplitCatalogue(cloths: seq<Cloth>)
    ensures forall c :: !(c in SectionCloths(cloths, "coat") && c in SectionCloths(cloths, "qameez suit"))
    ensures forall c :: !(c in SectionCloths(cloths, "coat") && c in SectionCloths(cloths, "shirt"))
    ensures forall c :: !(c in SectionCloths(cloths, "qameez suit") && c in SectionCloths(cloths, "shirt"))
    ensures |SectionCloths(cloths, "coat")| + |SectionCloths(cloths, "qameez suit")| + |SectionCloths(cloths, "shirt")| <= |cloths|
    ensures (forall c :: c in cloths ==> c.productType in {"coat", "qameez suit", "shirt"}) ==>
              |SectionCloths(cloths, "coat")| + |SectionCloths(cloths, "qameez suit")| + |SectionCloths(cloths, "shirt")| == |cloths|
  {
    if |cloths| > 0 {
      SectionsSplitCatalogue(cloths[1..]);
      assert forall c :: c in cloths[1..] ==> c in cloths;
    }
  }

  /** A section search hit: the query occurs in the name, type, code or
      colour, and the chosen type is "All" or equals the fabric's type,
      both ignoring case. */
  predicate SectionMatches(c: Cloth, searchQuery: string, selectedType: string)
  {
    var q := Lower(searchQuery);
    && (Contains(Lower(c.name), q) || Contains(Lower(c.clothType), q)
        || Contains(Lower(c.code), q) || Contains(Lower(c.color), q))
    && (selectedType == "All" || Lower(c.clothType) == Lower(selectedType))
  }

  function SectionFilter(section: seq<Cloth>, searchQuery: string, selectedType: string): (r: seq<Cloth>)
    ensures forall c :: c in r <==> c in section && SectionMatches(c, searchQuery, selectedType)
  {
    Filter(section, (c: Cloth) => SectionMatches(c, searchQuery, selectedType))
  }

  /** The search keeps the section's order; an empty query with "All" shows
      the whole section; a chosen type shows only fabrics of that type. */
  lemma SectionFilterProperties(section: seq<Cloth>, searchQuery: string, selectedType: string)
    ensures IsSubsequence(SectionFilter(section, searchQuery, selectedType), section)
    ensures searchQuery == "" && selectedType == "All" ==> SectionFilter(section, searchQuery, selectedType) == section
    ensures selectedType != "All" ==>
              forall c :: c in SectionFilter(section, searchQuery, selectedType) ==> Lower(c.clothType) == Lower(selectedType)
  {
    var p := (c: Cloth) => SectionMatches(c, searchQuery, selectedType);
    FilterIsSubsequence(section, p);
    if searchQuery == "" && selectedType == "All" {
      forall i | 0 <= i < |section|
        ensures p(section[i])
      {
        ContainsEmpty(Lower(section[i].name));
      }
      FilterKeepsAll(section, p);
    }
  }

  /** With an empty search, choosing a type from the drop-down (whose
      choices are the catalogue's own types) shows exactly the section's
      fabrics of that type, ignoring case. */
  lemma ChosenTypeShowsItsCloths(cloths: seq<Cloth>, section: seq<Cloth>, chosen: string)
    requires chosen in UniqueTypes(cloths) && chosen != "All"
    ensures exists c :: c in cloths && c.clothType == chosen
    ensures forall c :: c in SectionFilter(section, "", chosen) <==>
              c in section && Lower(c.clothType) == Lower(chosen)
  {
    forall c | c in section
      ensures SectionMatches(c, "", chosen) <==> Lower(c.clothType) == Lower(chosen)
    {
      ContainsEmpty(Lower(c.name));
    }
  }

  /** A number input. Before the first keystroke it holds the form's
      initial number; afterwards it holds the typed text, whose numeric
      value is `value` (an empty text counts as 0). */
  datatype NumberField = Initial(n: int) | Typed(text: string, value: int)

  function NumericValue(f: NumberField): int
  {
    match f
    case Initial(n) => n
    case Typed(_, v) => v
  }

  /** JavaScript falsiness: the number 0 or the empty text. */
  predicate Falsy(f: NumberField)
  {
    match f
    case Initial(n) => n == 0
    case Typed(t, _) => t == ""
  }

  /** The fabric being added. */
  datatype ClothDraft = ClothDraft(name: string, clothType: string, code: string, color: string,
                                   price: NumberField, quantity: NumberField,
                                   hasCoverImage: bool, productType: string, description: string)

  /** The form's starting values, shown as empty inputs. */
  const InitialDraft: ClothDraft :=
    ClothDraft("Cotton", "Cottom01", "12abs2", "Black", Initial(1200), Initial(0), true, "coat",
               "Some random description")

  /** The Save button's guard: the draft is sent only when this holds. */
  function CanAddCloth(d: ClothDraft): (ok: bool)
    ensures ok ==> d.name != "" && d.clothType != "" && d.code != "" && d.color != "" && d.hasCoverImage
    ensures ok ==> NumericValue(d.price) >= 0 && NumericValue(d.quantity) >= 0
    ensures NumericValue(d.price) < 0 || NumericValue(d.quantity) < 0 ==> !ok
    ensures d.price == Typed("", 0) ==> !ok
  {
    !(NumericValue(d.price) < 0 || NumericValue(d.quantity) < 0
      || d.name == "" || d.color == "" || d.code == "" || !d.hasCoverImage
      || Falsy(d.price) || d.clothType == "")
  }

  /** Saving without touching a field sends the initial values, and a
      quantity of 0 is never refused. */
  lemma InitialDraftAccepted()
    ensures CanAddCloth(InitialDraft)
    ensures CanAddCloth(InitialDraft.(quantity := Typed("0", 0)))
  {
  }

  /** A price typed as "0" is a non-empty text and passes the guard; only
      the number 0 would be refused, and the price field never holds it. */
  lemma TypedZeroPriceAccepted(d: ClothDraft)
    requires d.name != "" && d.clothType != "" && d.code != "" && d.color != "" && d.hasCoverImage
    requires NumericValue(d.quantity) >= 0
    ensures CanAddCloth(d.(price := Typed("0", 0)))
    ensures !CanAddCloth(d.(price := Initial(0)))
  {
  }
}
