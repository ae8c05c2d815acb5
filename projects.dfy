/** The projects section (src/components/sections/ProjectsSection.tsx): the
    category filter over the project list, the active filter button, and
    the project cards, which carry the same tilt state as any 3D card. */
module Projects {
  import opened Common
  import Card3D

  /** The fields of a project the section's logic looks at. */
  datatype Project = Project(id: int, title: string, category: string)

  /** The section's own project table, in display order. */
  const ProjectList: seq<Project> := [
    Project(1, "E-Commerce Platform", "web"),
    Project(2, "Task Management App", "web"),
    Project(3, "Fitness Tracker", "mobile"),
    Project(4, "Portfolio Website", "web"),
    Project(5, "Brand Identity", "design"),
    Project(6, "AI Chat Assistant", "web")
  ]

  const AllCategory := "all"

  /** `categories`: the filter buttons, in order. */
  const Categories: seq<string> := [AllCategory, "web", "mobile", "design"]

  /** The filter's test: `activeCategory === "all" || project.category === activeCategory`. */
  predicate Keeps(activeCategory: string, p: Project)
    ensures activeCategory == AllCategory ==> Keeps(activeCategory, p)
    ensures activeCategory != AllCategory ==> (Keeps(activeCategory, p) <==> p.category == activeCategory)
  {
    activeCategory == AllCategory || p.category == activeCategory
  }

  /** `a` is `b` with some elements left out, the rest in their order. */
  predicate IsSubsequence<T(==)>(a: seq<T>, b: seq<T>)
    decreases |b|
  {
    if a == [] then true
    else if b == [] then false
    else if a[0] == b[0] then IsSubsequence(a[1..], b[1..])
    else IsSubsequence(a, b[1..])
  }

  /** `filteredProjects`: `projects.filter(...)` with the test above. */
  function Filter(projects: seq<Project>, activeCategory: string): (r: seq<Project>)
    ensures |r| <= |projects|
    decreases |projects|
  {
    if projects == [] then []
    else if Keeps(activeCategory, projects[0]) then [projects[0]] + Filter(projects[1..], activeCategory)
    else Filter(projects[1..], activeCategory)
  }

  /** With "all" the filter returns the whole list. */
  lemma {:induction false} FilterAll(projects: seq<Project>)
    ensures Filter(projects, AllCategory) == projects
    decreases |projects|
  {
    if projects != [] {
      FilterAll(projects[1..]);
      assert projects == [projects[0]] + projects[1..];
    }
  }

  /** Every project the filter returns passes the test. */
  lemma {:induction false} FilterKeeps(projects: seq<Project>, activeCategory: string)
    ensures forall i :: 0 <= i < |Filter(projects, activeCategory)| ==>
              Keeps(activeCategory, Filter(projects, activeCategory)[i])
    decreases |projects|
  {
    if projects != [] {
      FilterKeeps(projects[1..], activeCategory);
    }
  }

  /** The filter drops no project that passes the test and keeps none
      that fails it: each appears as often as in the list, or not at all. */
  lemma {:induction false} FilterCounts(projects: seq<Project>, activeCategory: string)
    ensures forall p :: Keeps(activeCategory, p) ==>
              multiset(Filter(projects, activeCategory))[p] == multiset(projects)[p]
    ensures forall p :: !Keeps(activeCategory, p) ==> multiset(Filter(projects, activeCategory))[p] == 0
    decreases |projects|
  {
    if projects != [] {
      FilterCounts(projects[1..], activeCategory);
      assert projects == [projects[0]] + projects[1..];
      var rest := Filter(projects[1..], activeCategory);
      if Keeps(activeCategory, projects[0]) {
        assert multiset(Filter(projects, activeCategory)) == multiset([projects[0]]) + multiset(rest);
      }
    }
  }

  /** The filter keeps the list's order. */
  lemma {:induction false} FilterIsSubsequence(projects: seq<Project>, activeCategory: string)
    ensures IsSubsequence(Filter(projects, activeCategory), projects)
    decreases |projects|
  {
    if projects != [] {
      FilterIsSubsequence(projects[1..], activeCategory);
      var rest := Filter(projects[1..], activeCategory);
      if Keeps(activeCategory, projects[0]) {
        assert ([projects[0]] + rest)[1..] == rest;
      } else {
        SubsequenceOfTail(rest, projects);
      }
    }
  }

  /** Leaving out the head of the longer list keeps a subsequence one. */
  lemma {:induction false} SubsequenceOfTail<T>(a: seq<T>, b: seq<T>)
    requires b != [] && IsSubsequence(a, b[1..])
    ensures IsSubsequence(a, b)
    decreases |a| + |b|
  {
    if a != [] && a[0] == b[0] {
      SubsequenceDropHead(a, b[1..]);
    }
  }

  /** A subsequence without its head is still a subsequence. */
  lemma {:induction false} SubsequenceDropHead<T>(a: seq<T>, b: seq<T>)
    requires a != [] && IsSubsequence(a, b)
    ensures IsSubsequence(a[1..], b)
    decreases |a| + |b|
  {
    if b != [] {
      if a[0] == b[0] {
        SubsequenceOfTail(a[1..], b);
      } else {
        SubsequenceDropHead(a, b[1..]);
        SubsequenceOfTail(a[1..], b);
      }
    }
  }

  function Ids(projects: seq<Project>): (r: seq<int>)
    ensures |r| == |projects|
    ensures forall i :: 0 <= i < |projects| ==> r[i] == projects[i].id
  {
    seq(|projects|, i requires 0 <= i < |projects| => projects[i].id)
  }

  /** What the filter does with the head of a list, given the filtered
      rest. */
  function KeepIf(p: Project, activeCategory: string, rest: seq<Project>): seq<Project>
  {
    if Keeps(activeCategory, p) then [p] + rest else rest
  }

  lemma FilterCons(p: Project, rest: seq<Project>, activeCategory: string)
    ensures Filter([p] + rest, activeCategory) == KeepIf(p, activeCategory, Filter(rest, activeCategory))
  {
    assert ([p] + rest)[1..] == rest;
  }

  /** The section's table filtered one project at a time. */
  lemma UnfoldProjectList(c: string)
    ensures var l := ProjectList;
      Filter(l, c) == KeepIf(l[0], c, KeepIf(l[1], c, KeepIf(l[2], c, KeepIf(l[3], c, KeepIf(l[4], c, KeepIf(l[5], c, []))))))
  {
    var l := ProjectList;
    assert l == [l[0]] + l[1..] && l[1..] == [l[1]] + l[2..] && l[2..] == [l[2]] + l[3..];
    assert l[3..] == [l[3]] + l[4..] && l[4..] == [l[4]] + l[5..] && l[5..] == [l[5]] + l[6..];
    assert l[6..] == [];
    FilterCons(l[5], l[6..], c);
    FilterCons(l[4], l[5..], c);
    FilterCons(l[3], l[4..], c);
    FilterCons(l[2], l[3..], c);
    FilterCons(l[1], l[2..], c);
    FilterCons(l[0], l[1..], c);
  }

  /** What the filter buttons show for the section's own table. */
  lemma FilterOfProjectList()
    ensures Ids(Filter(ProjectList, "web")) == [1, 2, 4, 6]
    ensures Ids(Filter(ProjectList, "mobile")) == [3]
    ensures Ids(Filter(ProjectList, "design")) == [5]
  {
    var l := ProjectList;
    UnfoldProjectList("web");
    assert Filter(l, "web") == [l[0], l[1], l[3], l[5]];
    UnfoldProjectList("mobile");
    assert Filter(l, "mobile") == [l[2]];
    UnfoldProjectList("design");
    assert Filter(l, "design") == [l[4]];
  }

  /** A filter button is highlighted when its category is the active one,
      so the highlighted button's category is the filter being applied. */
  predicate ButtonIsActive(activeCategory: string, category: string)
    ensures ButtonIsActive(activeCategory, category) <==> activeCategory == category
    ensures ButtonIsActive(activeCategory, category) ==> (category in Categories <==> activeCategory in Categories)
    ensures ButtonIsActive(activeCategory, category) ==>
              forall p :: Keeps(category, p) <==> Keeps(activeCategory, p)
  {
    activeCategory == category
  }

  function Self(s: string): string { s }

  /** The categories are distinct, so exactly one button is highlighted
      when the active category is one of them, and none otherwise. */
  lemma ExactlyOneActiveButton(activeCategory: string, i: nat, j: nat)
    requires i < |Categories| && j < |Categories|
    requires ButtonIsActive(activeCategory, Categories[i]) && ButtonIsActive(activeCategory, Categories[j])
    ensures i == j
  {
    assert DistinctKeys(Categories, Self);
    AtMostOneWithKey(Categories, Self, activeCategory, i, j);
  }

  lemma SomeButtonActive(activeCategory: string)
    ensures activeCategory in Categories <==>
              exists i :: 0 <= i < |Categories| && ButtonIsActive(activeCategory, Categories[i])
  {
  }

  /** The section's `activeCategory` state cell. */
  class ProjectsSection {
    var activeCategory: string

    constructor ()
      ensures activeCategory == AllCategory
      ensures Shown() == ProjectList
    {
      activeCategory := AllCategory;
      FilterAll(ProjectList);
    }

    /** A filter button's click. */
    method SelectCategory(category: string)
      modifies this
      ensures activeCategory == category
    {
      activeCategory := category;
    }

    /** The cards on screen. */
    function Shown(): (r: seq<Project>)
      reads this
      ensures r == Filter(ProjectList, activeCategory)
      ensures forall i :: 0 <= i < |r| ==> Keeps(activeCategory, r[i])
      ensures forall p :: Keeps(activeCategory, p) ==> multiset(r)[p] == multiset(ProjectList)[p]
      ensures IsSubsequence(r, ProjectList)
    {
      FilterKeeps(ProjectList, activeCategory);
      FilterCounts(ProjectList, activeCategory);
      FilterIsSubsequence(ProjectList, activeCategory);
      Filter(ProjectList, activeCategory)
    }
  }

  /** A `ProjectCard` is a tilt card whose transforms map the offsets to
      plus or minus 8 degrees and whose springs do not set a mass. */
  const ProjectCardOptions := Card3D.CardOptions(Some(8.0), Some(Card3D.SpringConfig(150.0, 20.0, None)))

  lemma ProjectCardRotations()
    ensures Card3D.RotateXPairs(Card3D.Resolve(ProjectCardOptions).rotationRange).outputs == (8.0, -8.0)
    ensures Card3D.RotateYPairs(Card3D.Resolve(ProjectCardOptions).rotationRange).outputs == (-8.0, 8.0)
    ensures Card3D.Resolve(ProjectCardOptions).springConfig.mass.None?
  {
  }
}
