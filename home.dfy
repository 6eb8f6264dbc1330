/** The home page: one carousel section per category, in a fixed order, each holding the
    tours of that category in list order; a category without tours shows no section. The
    carousel wraps around when the whole tour list has more than three tours. */
module HomePage {
  import opened Js
  import Seqs
  import Backend

  /** What the home page uses of a tour: its identifier and its category, if any. */
  datatype HomeTour = HomeTour(id: string, category: Option<string>)

  datatype Category = Category(title: string, key: string)

  const Categories := [
    Category("Char Dham Yatra Packages", "char_dham"),
    Category("Amazing Weekend Getaways", "weekend"),
    Category("Top Trending Trips", "trending"),
    Category("Exclusive Offers", "exclusive")
  ]

  datatype Section = Section(title: string, key: string, tours: seq<HomeTour>)

  predicate InCategory(key: string, t: HomeTour)
  {
    t.category == Some(key)
  }

  /** `tours.filter(t => t.category === key)`. */
  function Matching(tours: seq<HomeTour>, key: string): (r: seq<HomeTour>)
    ensures forall k :: 0 <= k < |r| ==> r[k] in tours && r[k].category == Some(key)
    ensures forall k :: 0 <= k < |tours| && tours[k].category == Some(key) ==> tours[k] in r
  {
    Seqs.Filter(tours, t => InCategory(key, t))
  }

  /** The sections rendered for the categories `cats`: those with tours, in the order of `cats`. */
  function SectionsOf(cats: seq<Category>, tours: seq<HomeTour>): (r: seq<Section>)
    ensures |r| <= |cats|
    ensures forall k :: 0 <= k < |r| ==> r[k].tours == Matching(tours, r[k].key) && |r[k].tours| > 0
    ensures forall k :: 0 <= k < |r| ==> Category(r[k].title, r[k].key) in cats
  {
    if cats == [] then []
    else
      var shown := Matching(tours, cats[0].key);
      (if |shown| > 0 then [Section(cats[0].title, cats[0].key, shown)] else []) + SectionsOf(cats[1..], tours)
  }

  /** Every category that has tours gets its section. */
  lemma {:induction false} SectionsComplete(cats: seq<Category>, tours: seq<HomeTour>, c: Category)
    requires c in cats && |Matching(tours, c.key)| > 0
    ensures Section(c.title, c.key, Matching(tours, c.key)) in SectionsOf(cats, tours)
  {
    if cats[0] != c {
      SectionsComplete(cats[1..], tours, c);
    }
  }

  /** The position in `cats` of the first category equal to `c`. */
  function Rank(cats: seq<Category>, c: Category): (i: nat)
    requires c in cats
    ensures i < |cats| && cats[i] == c
  {
    if cats[0] == c then 0 else 1 + Rank(cats[1..], c)
  }

  predicate Distinct(cats: seq<Category>)
  {
    forall a, b :: 0 <= a < b < |cats| ==> cats[a] != cats[b]
  }

  /** The category a section was made from. */
  function Origin(s: Section): Category
  {
    Category(s.title, s.key)
  }

  /** Sections come in the order of their categories. */
  lemma {:induction false} SectionsInOrder(cats: seq<Category>, tours: seq<HomeTour>, i: nat, j: nat)
    requires Distinct(cats)
    requires i < j < |SectionsOf(cats, tours)|
    ensures Rank(cats, Origin(SectionsOf(cats, tours)[i])) < Rank(cats, Origin(SectionsOf(cats, tours)[j]))
  {
    var r := SectionsOf(cats, tours);
    var rest := SectionsOf(cats[1..], tours);
    DistinctTail(cats);
    if |Matching(tours, cats[0].key)| > 0 {
      assert r == [Section(cats[0].title, cats[0].key, Matching(tours, cats[0].key))] + rest;
      if i == 0 {
        HeadSectionFirst(cats, tours, r, rest, j);
      } else {
        assert r[i] == rest[i - 1] && r[j] == rest[j - 1];
        SectionsInOrder(cats[1..], tours, i - 1, j - 1);
        RankAfterHead(cats, Origin(r[i]));
        RankAfterHead(cats, Origin(r[j]));
      }
    } else {
      assert r == rest;
      SectionsInOrder(cats[1..], tours, i, j);
      RankAfterHead(cats, Origin(r[i]));
      RankAfterHead(cats, Origin(r[j]));
    }
  }

  lemma DistinctTail(cats: seq<Category>)
    requires Distinct(cats) && |cats| > 0
    ensures Distinct(cats[1..])
  {
    forall a, b | 0 <= a < b < |cats[1..]|
      ensures cats[1..][a] != cats[1..][b]
    {
      assert cats[1..][a] == cats[a + 1] && cats[1..][b] == cats[b + 1];
    }
  }

  /** The head category's section, when there is one, precedes all the others. */
  lemma HeadSectionFirst(cats: seq<Category>, tours: seq<HomeTour>, r: seq<Section>, rest: seq<Section>, j: nat)
    requires Distinct(cats) && |cats| > 0
    requires rest == SectionsOf(cats[1..], tours)
    requires r == [Section(cats[0].title, cats[0].key, Matching(tours, cats[0].key))] + rest
    requires 0 < j < |r|
    ensures Rank(cats, Origin(r[0])) < Rank(cats, Origin(r[j]))
  {
    assert Origin(r[0]) == cats[0];
    assert r[j] == rest[j - 1];
    assert Origin(r[j]) in cats[1..];
    RankAfterHead(cats, Origin(r[j]));
  }

  /** In a list of distinct categories, a category after the head ranks one more there than
      in the tail. */
  lemma RankAfterHead(cats: seq<Category>, c: Category)
    requires Distinct(cats)
    requires |cats| > 0 && c in cats[1..]
    ensures Rank(cats, c) == 1 + Rank(cats[1..], c)
  {
    var b :| 0 <= b < |cats[1..]| && cats[1..][b] == c;
    assert cats[b + 1] == c;
  }

  /** The sections of the home page. */
  function Sections(tours: seq<HomeTour>): seq<Section>
  {
    SectionsOf(Categories, tours)
  }

  /** A category has a section exactly when some tour is in it, and the section holds
      exactly its tours, in list order. */
  lemma SectionShownIff(tours: seq<HomeTour>, c: Category)
    requires c in Categories
    ensures (exists k :: 0 <= k < |Sections(tours)| && Sections(tours)[k].key == c.key) <==>
      exists t :: t in tours && t.category == Some(c.key)
    ensures forall k :: 0 <= k < |Sections(tours)| && Sections(tours)[k].key == c.key ==>
      Sections(tours)[k].tours == Matching(tours, c.key)
  {
    var r := Sections(tours);
    if exists t :: t in tours && t.category == Some(c.key) {
      var t :| t in tours && t.category == Some(c.key);
      var i :| 0 <= i < |tours| && tours[i] == t;
      assert t in Matching(tours, c.key);
      SectionsComplete(Categories, tours, c);
      var k :| 0 <= k < |r| && r[k] == Section(c.title, c.key, Matching(tours, c.key));
      assert r[k].key == c.key;
    }
    if exists k :: 0 <= k < |r| && r[k].key == c.key {
      var k :| 0 <= k < |r| && r[k].key == c.key;
      var t := r[k].tours[0];
      assert t in tours && t.category == Some(c.key);
    }
  }

  /** The home page's sections follow the fixed order char_dham, weekend, trending, exclusive. */
  lemma HomeSectionsInOrder(tours: seq<HomeTour>, i: nat, j: nat)
    requires i < j < |Sections(tours)|
    ensures Rank(Categories, Origin(Sections(tours)[i])) < Rank(Categories, Origin(Sections(tours)[j]))
  {
    SectionsInOrder(Categories, tours, i, j);
  }

  /** A "destination" tour, or one without a category, is on no section. */
  lemma DestinationNeverShown(tours: seq<HomeTour>)
    ensures forall k, j :: 0 <= k < |Sections(tours)| && 0 <= j < |Sections(tours)[k].tours| ==>
      Sections(tours)[k].tours[j].category.Some? &&
      Sections(tours)[k].tours[j].category.value in {"char_dham", "weekend", "trending", "exclusive"}
  {
    var r := Sections(tours);
    forall k, j | 0 <= k < |r| && 0 <= j < |r[k].tours|
      ensures r[k].tours[j].category.Some? &&
        r[k].tours[j].category.value in {"char_dham", "weekend", "trending", "exclusive"}
    {
      assert Category(r[k].title, r[k].key) in Categories;
    }
  }

  /** Every category the home page shows is one the tour schema admits. */
  lemma HomeCategoriesAdmitted()
    ensures forall c :: c in Categories ==> c.key in Backend.TourCategories
  {
  }

  /** `infinite: tours.length > 3`: the flag of every section's carousel, computed from the
      whole tour list rather than from the section's own tours. */
  predicate Infinite(tours: seq<HomeTour>)
  {
    |tours| > 3
  }

  /** A section holding more than three tours always wraps around. */
  lemma LargeSectionWraps(tours: seq<HomeTour>, k: nat)
    requires k < |Sections(tours)| && |Sections(tours)[k].tours| > 3
    ensures Infinite(tours)
  {
    var s := Sections(tours)[k];
    assert s.tours == Matching(tours, s.key);
  }

  /** `filter` takes the head when it matches and goes on with the rest. */
  lemma MatchingStep(tours: seq<HomeTour>, key: string)
    requires tours != []
    ensures Matching(tours, key) ==
      (if tours[0].category == Some(key) then [tours[0]] else []) + Matching(tours[1..], key)
  {
  }

  /** A section with a single tour wraps around too, as soon as the whole list has four: here
      the "char_dham" section shows one tour and its carousel is infinite. */
  lemma OneTourSectionWraps()
    ensures var tours := [HomeTour("a", Some("char_dham")), HomeTour("b", Some("destination")),
                          HomeTour("c", Some("destination")), HomeTour("d", Some("destination"))];
      && Sections(tours)[0] == Section("Char Dham Yatra Packages", "char_dham", [tours[0]])
      && Infinite(tours)
  {
    var tours := [HomeTour("a", Some("char_dham")), HomeTour("b", Some("destination")),
                  HomeTour("c", Some("destination")), HomeTour("d", Some("destination"))];
    var key := "char_dham";
    MatchingStep(tours[3..], key);
    assert tours[3..][1..] == [];
    MatchingStep(tours[2..], key);
    assert tours[2..][1..] == tours[3..];
    MatchingStep(tours[1..], key);
    assert tours[1..][1..] == tours[2..];
    MatchingStep(tours, key);
    assert Matching(tours, key) == [tours[0]];
    assert Categories[0] == Category("Char Dham Yatra Packages", key);
  }
}
