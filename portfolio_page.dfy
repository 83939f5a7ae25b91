/** frontend/pages/Portfolio.tsx: the public portfolio with its category filter. */
module PortfolioPage {
  import opened Js
  import opened Strings
  import opened Seqs
  import opened SiteContent
  import opened PortfolioItems

  const Categories: seq<string> := ["All", "Brand Solutions", "Tech Solutions", "Media Solutions", "Others"]

  /** `item => item.category === active` */
  function InCategory(active: string): Item -> bool {
    (it: Item) => it.category == Some(active)
  }

  /** The items shown for the selected category. */
  function Visible(items: seq<Item>, active: string): seq<Item> {
    if active == "All" then items else Filter(items, InCategory(active))
  }

  /** 'All' shows the fetched list as it is; another category shows exactly its items, in order. */
  lemma VisibleItems(items: seq<Item>, active: string)
    ensures active == "All" ==> Visible(items, active) == items
    ensures |Visible(items, active)| <= |items|
    ensures active != "All" ==> IsSubsequence(Visible(items, active), items)
    ensures active != "All" ==> forall i :: 0 <= i < |Visible(items, active)| ==> Visible(items, active)[i].category == Some(active)
    ensures active != "All" ==>
      forall x :: multiset(Visible(items, active))[x] == if x.category == Some(active) then multiset(items)[x] else 0
  {
    if active != "All" {
      var p := InCategory(active);
      FilterIsSubsequence(items, p);
      forall x ensures multiset(Visible(items, active))[x] == if x.category == Some(active) then multiset(items)[x] else 0 {
        FilterKeepsMatches(items, p, x);
      }
    }
  }

  const DefaultTags: seq<string> := ["React", "GSAP", "Design"]

  /** The tags of a project: its comma-separated `tech_stack`, each trimmed, or the defaults. */
  function TechTags(techStack: Option<string>): seq<string> {
    if Truthy(techStack) then
      var parts := Split(techStack.value, ',');
      seq(|parts|, i requires 0 <= i < |parts| => Trim(parts[i]))
    else DefaultTags
  }

  /** A non-empty tech stack gives one tag per comma-separated entry, trimmed, with no comma and
      no surrounding white space; an absent or empty one gives React, GSAP, Design. */
  lemma {:induction false} TechTagsMeaning(techStack: Option<string>)
    ensures !Truthy(techStack) ==> TechTags(techStack) == ["React", "GSAP", "Design"]
    ensures Truthy(techStack) ==>
      var parts := Split(techStack.value, ',');
      |TechTags(techStack)| == Count(techStack.value, ',') + 1
      && forall i :: 0 <= i < |parts| ==>
           TechTags(techStack)[i] == Trim(parts[i]) && ',' !in TechTags(techStack)[i]
           && (|TechTags(techStack)[i]| > 0 ==> !IsSpace(TechTags(techStack)[i][0]) && !IsSpace(TechTags(techStack)[i][|TechTags(techStack)[i]| - 1]))
  {
    if Truthy(techStack) {
      var s := techStack.value;
      var parts := Split(s, ',');
      SplitLength(s, ',');
      SplitPiecesFree(s, ',');
      forall i | 0 <= i < |parts| ensures ',' !in Trim(parts[i]) && (|Trim(parts[i])| > 0 ==> !IsSpace(Trim(parts[i])[0]) && !IsSpace(Trim(parts[i])[|Trim(parts[i])| - 1])) {
        TrimProperties(parts[i]);
        TrimKeepsOut(parts[i], ',');
      }
    }
  }

  /** Trimming adds no character. */
  lemma TrimKeepsOut(s: string, c: char)
    requires c !in s
    ensures c !in Trim(s)
  {
    TrimProperties(s);
  }

  datatype Action = ViewProject(url: string) | ViewCaseStudy

  /** A project row: layout direction, image source, tags and call to action. */
  datatype ProjectRow = ProjectRow(reversed: bool, image: string, tags: seq<string>, action: Action)

  function ActionOf(projectUrl: Option<string>): (a: Action)
    ensures a.ViewProject? <==> Truthy(projectUrl)
    ensures a.ViewProject? ==> a.url == projectUrl.value
  {
    if Truthy(projectUrl) then ViewProject(projectUrl.value) else ViewCaseStudy
  }

  /** The page: one row per visible project, odd rows mirrored. */
  function Rows(items: seq<Item>, active: string): (rows: seq<ProjectRow>)
    ensures |rows| == |Visible(items, active)|
    ensures forall i :: 0 <= i < |rows| ==>
      var it := Visible(items, active)[i];
      (rows[i].reversed <==> i % 2 == 1)
      && rows[i].image == ResolveImage(it.image)
      && rows[i].tags == TechTags(it.techStack)
      && rows[i].action == ActionOf(it.projectUrl)
  {
    var v := Visible(items, active);
    seq(|v|, i requires 0 <= i < |v| => ProjectRow(i % 2 == 1, ResolveImage(v[i].image), TechTags(v[i].techStack), ActionOf(v[i].projectUrl)))
  }
}
