/** Linking a tenant's materials to a run whose brand or title they mention (apps/api/repositories.py). */
module Collecting {
  import opened Wrappers
  import opened Like
  import opened Filtering

  const MAX_MATCHES: nat := 10

  datatype RunInfo = RunInfo(id: Id, tenant: Id, brand: string, title: string)

  datatype Material = Material(id: Id, tenant: Id, title: string, summary: string)

  datatype Link = Link(tenant: Id, run: Id, material: Id)

  /** The WHERE clause of the material query. */
  predicate Selected(fold: char -> char, run: RunInfo, m: Material) {
    m.tenant == run.tenant &&
    (IMatches(fold, SearchPattern(run.brand), m.title) ||
     IMatches(fold, SearchPattern(run.brand), m.summary) ||
     IMatches(fold, SearchPattern(run.title), m.title))
  }

  function AllSelected(fold: char -> char, run: RunInfo, library: seq<Material>): seq<Material> {
    Filter((m: Material) => Selected(fold, run, m), library)
  }

  /** The query over the library in `seq` order: at most `limit` of the rows selected. */
  function Query(fold: char -> char, run: RunInfo, library: seq<Material>, limit: nat): (r: seq<Material>)
    ensures |r| <= limit
    ensures forall m :: m in r ==> m in library && Selected(fold, run, m)
    ensures |r| < limit ==> forall m :: m in library && Selected(fold, run, m) ==> m in r
  {
    var all := AllSelected(fold, run, library);
    if |all| <= limit then all else all[..limit]
  }

  /** It takes the first rows: later ones come after them, and only as far as there is room. */
  lemma QueryTakesFirst(fold: char -> char, run: RunInfo, earlier: seq<Material>, later: seq<Material>, limit: nat)
    ensures var r := Query(fold, run, earlier, limit);
            Query(fold, run, earlier + later, limit) == r + Query(fold, run, later, limit - |r|)
  {
    FilterConcat((m: Material) => Selected(fold, run, m), earlier, later);
  }

  predicate IsLinked(links: seq<Link>, run: RunInfo, material: Id) {
    Link(run.tenant, run.id, material) in links
  }

  /** The links the loop adds. */
  function NewLinks(links: seq<Link>, run: RunInfo, matches: seq<Material>): seq<Link> {
    if matches == [] then []
    else
      var earlier := NewLinks(links, run, matches[..|matches| - 1]);
      var last := matches[|matches| - 1];
      if IsLinked(links, run, last.id) then earlier else earlier + [Link(run.tenant, run.id, last.id)]
  }

  /** They are the links to matches that were not there before. */
  lemma {:induction false} NewLinksExact(links: seq<Link>, run: RunInfo, matches: seq<Material>)
    ensures forall l :: l in NewLinks(links, run, matches) <==> l !in links && exists m | m in matches :: l == Link(run.tenant, run.id, m.id)
    ensures NewLinks(links, run, matches) == [] <==> forall m | m in matches :: IsLinked(links, run, m.id)
  {
    if matches != [] {
      var earlier, last := matches[..|matches| - 1], matches[|matches| - 1];
      NewLinksExact(links, run, earlier);
      assert forall m :: m in matches <==> m in earlier || m == last;
    }
  }

  lemma NewLinksStep(links: seq<Link>, run: RunInfo, matches: seq<Material>, i: nat)
    requires i < |matches|
    ensures NewLinks(links, run, matches[..i + 1]) ==
            NewLinks(links, run, matches[..i]) +
            if IsLinked(links, run, matches[i].id) then [] else [Link(run.tenant, run.id, matches[i].id)]
  {
    assert matches[..i + 1][..i] == matches[..i];
  }

  class LinkTable {
    var links: seq<Link>

    /** `_collect_materials`. */
    method CollectMaterials(fold: char -> char, run: RunInfo, library: seq<Material>)
      modifies this
      ensures links == old(links) + NewLinks(old(links), run, Query(fold, run, library, MAX_MATCHES))
    {
      var existing := set l | l in links && l.tenant == run.tenant && l.run == run.id :: l.material;
      var matches := Query(fold, run, library, MAX_MATCHES);
      ghost var before := links;
      assert forall id :: id in existing <==> IsLinked(before, run, id);
      for i := 0 to |matches|
        invariant links == before + NewLinks(before, run, matches[..i])
      {
        NewLinksStep(before, run, matches, i);
        if matches[i].id !in existing {
          links := links + [Link(run.tenant, run.id, matches[i].id)];
        }
      }
      assert matches[..|matches|] == matches;
    }
  }

  /** A material mentions a run when its title or summary contains the brand, or its title the run's title. */
  predicate Mentions(fold: char -> char, run: RunInfo, m: Material) {
    || Contains(Folded(fold, m.title), Folded(fold, run.brand))
    || Contains(Folded(fold, m.summary), Folded(fold, run.brand))
    || Contains(Folded(fold, m.title), Folded(fold, run.title))
  }

  /** The escaped patterns select exactly the tenant's materials that mention the run. */
  lemma SelectedIffMentions(fold: char -> char, run: RunInfo, m: Material)
    requires IsFold(fold)
    ensures Selected(fold, run, m) <==> m.tenant == run.tenant && Mentions(fold, run, m)
  {
    CaselessSearchFindsSubstrings(fold, run.brand, m.title);
    CaselessSearchFindsSubstrings(fold, run.brand, m.summary);
    CaselessSearchFindsSubstrings(fold, run.title, m.title);
  }

  /** What a collect leaves behind: every link it added joins the run to one of its tenant's materials that
      mentions it; and when fewer than ten materials do, all of them are linked. */
  lemma CollectLinksMentions(fold: char -> char, run: RunInfo, library: seq<Material>, links: seq<Link>, m: Material)
    requires IsFold(fold) && m in library
    requires forall a, b | a in library && b in library :: a.id == b.id ==> a == b
    ensures var matches := Query(fold, run, library, MAX_MATCHES);
            var after := links + NewLinks(links, run, matches);
            (IsLinked(after, run, m.id) && !IsLinked(links, run, m.id) ==> m.tenant == run.tenant && Mentions(fold, run, m)) &&
            (|matches| < 10 && m.tenant == run.tenant && Mentions(fold, run, m) ==> IsLinked(after, run, m.id))
  {
    SelectedIffMentions(fold, run, m);
    var matches := Query(fold, run, library, MAX_MATCHES);
    NewLinksExact(links, run, matches);
    if m in matches {
      assert IsLinked(links, run, m.id) || Link(run.tenant, run.id, m.id) in NewLinks(links, run, matches);
    }
    if Link(run.tenant, run.id, m.id) in NewLinks(links, run, matches) {
      var matched :| matched in matches && matched.id == m.id;
    }
  }

  /** Collecting again adds nothing. */
  lemma CollectIsIdempotent(run: RunInfo, links: seq<Link>, matches: seq<Material>)
    ensures NewLinks(links + NewLinks(links, run, matches), run, matches) == []
  {
    var once := NewLinks(links, run, matches);
    NewLinksExact(links, run, matches);
    NewLinksExact(links + once, run, matches);
    forall m | m in matches ensures IsLinked(links + once, run, m.id) {
      assert Link(run.tenant, run.id, m.id) in links || Link(run.tenant, run.id, m.id) in once;
    }
  }

  predicate NoDuplicates<T(==)>(s: seq<T>) {
    forall i, j | 0 <= i < j < |s| :: s[i] != s[j]
  }

  /** The unique constraint on links survives. */
  lemma {:induction false} CollectKeepsLinksUnique(run: RunInfo, links: seq<Link>, matches: seq<Material>)
    requires NoDuplicates(links)
    requires forall i, j | 0 <= i < j < |matches| :: matches[i].id != matches[j].id
    ensures NoDuplicates(links + NewLinks(links, run, matches))
  {
    if matches != [] {
      var earlier := matches[..|matches| - 1];
      var last := Link(run.tenant, run.id, matches[|matches| - 1].id);
      CollectKeepsLinksUnique(run, links, earlier);
      var before := links + NewLinks(links, run, earlier);
      NewLinksExact(links, run, earlier);
      assert last !in NewLinks(links, run, earlier);
      assert links + NewLinks(links, run, matches) == if last in links then before else before + [last];
    }
  }
}
