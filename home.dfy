/** frontend/pages/Home.tsx: the "Selected Work" section of the home page. */
module Home {
  import opened Js
  import opened Seqs
  import opened SiteContent
  import opened PortfolioItems

  const MaxFeatured := 6

  /** What the section keeps from a fetch: all featured projects' count and the first six. */
  datatype Featured = Featured(work: seq<Item>, total: nat)

  /** `data.filter(item => item.is_featured)` */
  function FeaturedOf(data: seq<Item>): seq<Item> {
    Filter(data, (it: Item) => IsTrue(it.isFeatured))
  }

  /** The state after a fetch: before it, or when it fails, the section stays at no work and 0. */
  function AfterFetch(data: Option<seq<Item>>): (f: Featured)
    ensures data.None? ==> f == Featured([], 0)
    ensures data.Some? ==> f.total == |FeaturedOf(data.value)|
    ensures |f.work| == if f.total < MaxFeatured then f.total else MaxFeatured
    ensures forall i :: 0 <= i < |f.work| ==> IsTrue(f.work[i].isFeatured)
  {
    if data.None? then Featured([], 0)
    else
      var featured := FeaturedOf(data.value);
      Featured(Take(featured, MaxFeatured), |featured|)
  }

  /** The displayed cards are the first featured projects in fetched order, every one of them
      featured, and no featured project is left out unless six are already shown. */
  lemma {:induction false} DisplayedWork(data: seq<Item>)
    ensures var f := AfterFetch(Some(data)); var featured := FeaturedOf(data);
      IsSubsequence(featured, data)
      && (forall x :: multiset(featured)[x] == if IsTrue(x.isFeatured) then multiset(data)[x] else 0)
      && f.work == featured[..|f.work|]
      && (|f.work| < f.total <==> f.total > MaxFeatured)
  {
    var p := (it: Item) => IsTrue(it.isFeatured);
    FilterIsSubsequence(data, p);
    forall x ensures multiset(FeaturedOf(data))[x] == if IsTrue(x.isFeatured) then multiset(data)[x] else 0 {
      FilterKeepsMatches(data, p, x);
    }
  }

  /** How the section is drawn for a given state. */
  datatype Section = Section(viewAll: bool, large: bool, cards: seq<Card>)
  datatype Card = Card(image: string, offset: bool)

  function Render(f: Featured): (s: Section)
    ensures s.viewAll <==> f.total > MaxFeatured
    ensures s.large <==> f.total <= 3
    ensures |s.cards| == |f.work|
    ensures forall i :: 0 <= i < |s.cards| ==>
      s.cards[i].image == ResolveImage(f.work[i].image) && (s.cards[i].offset <==> f.total <= 3 && i % 2 != 0)
  {
    Section(f.total > MaxFeatured, f.total <= 3,
      seq(|f.work|, i requires 0 <= i < |f.work| => Card(ResolveImage(f.work[i].image), f.total <= 3 && i % 2 != 0)))
  }

  /** 'View All Projects' is offered exactly when some featured project is not on the page. */
  lemma ViewAllExactlyWhenCut(data: seq<Item>)
    ensures Render(AfterFetch(Some(data))).viewAll <==> |AfterFetch(Some(data)).work| < |FeaturedOf(data)|
  {
  }
}
