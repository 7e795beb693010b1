/**
 * The project store of `src/contexts/ProjectContext.tsx`: an in-memory list of
 * project records with create, find-by-id, merge-patch update and delete.
 *
 * The list operations are the pure list expressions the store hands to
 * `setProjects` (append, `find`, `map` with object spread, `filter`); the
 * `ProjectStore` class holds the list and replaces it through them.
 */
module Projects {
  import opened Wrappers
  import opened Text

  datatype Status = Draft | Building | Deployed

  /** One project record; `projectType` is the source's free-form `type` string. */
  datatype Project = Project(
    id: string,
    name: string,
    description: string,
    projectType: string,
    status: Status,
    lastModified: string,
    features: seq<string>,
    style: string,
    colorScheme: string,
    url: Option<string>)

  /**
   * The fields `createProject` reads from its untyped argument. The three
   * optional ones are `None` when the caller leaves them `undefined`.
   */
  datatype CreateInput = CreateInput(
    name: string,
    description: string,
    projectType: string,
    features: Option<seq<string>>,
    style: Option<string>,
    colorScheme: Option<string>)

  /** A `Partial<Project>`: each field is `None` when the patch does not carry it. */
  datatype Patch = Patch(
    id: Option<string>,
    name: Option<string>,
    description: Option<string>,
    projectType: Option<string>,
    status: Option<Status>,
    lastModified: Option<string>,
    features: Option<seq<string>>,
    style: Option<string>,
    colorScheme: Option<string>,
    url: Option<string>)

  const JustNow := "just now"
  const DefaultStyle := "modern"
  const DefaultColorScheme := "blue"

  // ---------------------------------------------------------------------------
  // The URL slug
  // ---------------------------------------------------------------------------

  /**
   * `.replace(/\s+/g, '-')`: every maximal run of white space becomes one `-`.
   * `inRun` says whether the character just before `s` was white space that
   * already produced its `-`.
   */
  function Collapse(s: string, inRun: bool): (r: string)
    ensures |r| <= |s|
    ensures NoSpace(r)
    ensures forall i :: 0 <= i < |r| ==> r[i] == '-' || r[i] in s
  {
    if s == [] then []
    else if IsSpace(s[0]) then
      if inRun then Collapse(s[1..], true) else "-" + Collapse(s[1..], true)
    else [s[0]] + Collapse(s[1..], false)
  }

  /** `name.toLowerCase().replace(/\s+/g, '-')`: never longer than the name, and free of white space. */
  function Slug(name: string): (r: string)
    ensures |r| <= |name| && NoSpace(r)
  {
    Collapse(ToLower(name), false)
  }

  /** The deployment address derived from a project name: the slug between a fixed scheme and domain. */
  function ProjectUrl(name: string): (r: string)
    ensures |r| == |Slug(name)| + 20
    ensures r[..8] == "https://" && r[|r| - 12..] == ".proctify.ai"
    ensures r[8..|r| - 12] == Slug(name)
  {
    "https://" + Slug(name) + ".proctify.ai"
  }

  /** A string without white space passes through the run-collapsing unchanged. */
  lemma {:induction false} CollapseFixpoint(s: string, inRun: bool)
    requires NoSpace(s)
    ensures Collapse(s, inRun) == s
  {
    if s != [] {
      CollapseFixpoint(s[1..], false);
    }
  }

  /** Collapsing distributes over a word boundary: a white-space-free prefix is copied. */
  lemma {:induction false} CollapseWord(w: string, rest: string, inRun: bool)
    requires w != [] && NoSpace(w)
    ensures Collapse(w + rest, inRun) == w + Collapse(rest, false)
  {
    assert (w + rest)[0] == w[0];
    assert (w + rest)[1..] == w[1..] + rest;
    if |w| > 1 {
      CollapseWord(w[1..], rest, false);
    }
  }

  /** A non-empty run of white space that starts a word boundary yields one `-`. */
  lemma {:induction false} CollapseRun(sp: string, rest: string, inRun: bool)
    requires AllSpace(sp)
    ensures Collapse(sp + rest, inRun) ==
      if sp == [] then Collapse(rest, inRun)
      else if inRun then Collapse(rest, true)
      else "-" + Collapse(rest, true)
  {
    if sp != [] {
      var s := sp + rest;
      assert s[0] == sp[0] && IsSpace(s[0]);
      assert s[1..] == sp[1..] + rest;
      assert Collapse(s, inRun) ==
        if inRun then Collapse(s[1..], true) else "-" + Collapse(s[1..], true);
      assert AllSpace(sp[1..]);
      CollapseRun(sp[1..], rest, true);
    } else {
      assert sp + rest == rest;
    }
  }

  /** A slug holds neither white space nor upper-case letters. */
  lemma SlugWellFormed(name: string)
    ensures NoSpace(Slug(name)) && NoUpper(Slug(name))
  {
    var s := Slug(name);
    ToLowerNoUpper(name);
    forall i | 0 <= i < |s| ensures !IsUpper(s[i]) {
      if s[i] != '-' {
        var j :| 0 <= j < |ToLower(name)| && ToLower(name)[j] == s[i];
      }
    }
  }

  /** Slugging a slug changes nothing. */
  lemma SlugIdempotent(name: string)
    ensures Slug(Slug(name)) == Slug(name)
  {
    var s := Slug(name);
    SlugWellFormed(name);
    ToLowerFixpoint(s);
    CollapseFixpoint(s, false);
  }

  /**
   * Two words separated by any non-empty white-space run become the two
   * lower-cased words joined by a single `-`; with no first word, a leading
   * run still becomes one `-`.
   */
  lemma SlugOfTwoWords(w1: string, sp: string, w2: string)
    requires NoSpace(w1) && NoSpace(w2)
    requires sp != [] && AllSpace(sp)
    ensures Slug(w1 + sp + w2) == ToLower(w1) + "-" + ToLower(w2)
  {
    var l1, lsp, l2 := ToLower(w1), ToLower(sp), ToLower(w2);
    ToLowerKeepsSpace(w1);
    ToLowerKeepsSpace(sp);
    ToLowerKeepsSpace(w2);
    calc {
      ToLower(w1 + sp + w2);
      { ToLowerAppend(w1 + sp, w2); }
      ToLower(w1 + sp) + l2;
      { ToLowerAppend(w1, sp); }
      l1 + lsp + l2;
      l1 + (lsp + l2);
    }
    if w1 == [] {
      SlugOfRunThenWord(l1, lsp, l2);
    } else {
      SlugOfWordThenRun(l1, lsp, l2);
    }
  }

  lemma SlugOfRunThenWord(l1: string, lsp: string, l2: string)
    requires l1 == [] && NoSpace(l2)
    requires lsp != [] && AllSpace(lsp)
    ensures Collapse(l1 + (lsp + l2), false) == l1 + "-" + l2
  {
    assert l1 + (lsp + l2) == lsp + l2;
    assert l1 + "-" + l2 == "-" + l2;
    CollapseRun(lsp, l2, false);
    CollapseFixpoint(l2, true);
  }

  lemma SlugOfWordThenRun(l1: string, lsp: string, l2: string)
    requires l1 != [] && NoSpace(l1) && NoSpace(l2)
    requires lsp != [] && AllSpace(lsp)
    ensures Collapse(l1 + (lsp + l2), false) == l1 + "-" + l2
  {
    CollapseWord(l1, lsp + l2, false);
    CollapseRun(lsp, l2, false);
    CollapseFixpoint(l2, true);
  }

  /** The name used in the creation scenario gives the address of `test-site`. */
  lemma TestSiteUrl()
    ensures ProjectUrl("Test Site") == "https://test-site.proctify.ai"
  {
    TestSiteSlug();
    UrlOfKnownSlug("Test Site");
  }

  lemma UrlOfKnownSlug(name: string)
    requires Slug(name) == "test-site"
    ensures ProjectUrl(name) == "https://test-site.proctify.ai"
  {
  }

  lemma TestSiteSlug()
    ensures Slug("Test Site") == "test-site"
  {
    TestSiteLower();
    TestSiteCollapse();
  }

  lemma TestSiteLower()
    ensures ToLower("Test Site") == "test site"
  {
  }

  lemma TestSiteCollapse()
    ensures Collapse("test site", false) == "test-site"
  {
    var w1, sp, w2 := "test", " ", "site";
    TestSiteParts(w1, sp, w2);
    SlugOfWordThenRun(w1, sp, w2);
    assert w1 + "-" + w2 == "test-site";
  }

  lemma TestSiteParts(w1: string, sp: string, w2: string)
    requires w1 == "test" && sp == " " && w2 == "site"
    ensures w1 + (sp + w2) == "test site"
    ensures NoSpace(w1) && NoSpace(w2) && AllSpace(sp)
  {
  }

  // ---------------------------------------------------------------------------
  // Building a record
  // ---------------------------------------------------------------------------

  /** JavaScript's `value || fallback` for a string that may be undefined: `""` is falsy. */
  function OrDefault(value: Option<string>, fallback: string): (r: string)
    ensures value.Some? && value.value != "" ==> r == value.value
    ensures value.None? || value.value == "" ==> r == fallback
  {
    if value.Some? && value.value != "" then value.value else fallback
  }

  /**
   * The record `createProject` builds before its generation delay: status
   * `building`, the caller's name, description and type copied verbatim,
   * missing options defaulted, and the address derived from the name.
   */
  function NewProject(id: string, input: CreateInput): (p: Project)
    ensures p.id == id && p.status == Building && p.lastModified == JustNow
    ensures p.name == input.name && p.description == input.description
    ensures p.projectType == input.projectType
    ensures p.features == if input.features.Some? then input.features.value else []
    ensures p.style == OrDefault(input.style, DefaultStyle)
    ensures p.colorScheme == OrDefault(input.colorScheme, DefaultColorScheme)
    ensures p.url == Some(ProjectUrl(input.name))
  {
    Project(id, input.name, input.description, input.projectType, Building, JustNow,
            input.features.GetOr([]), OrDefault(input.style, DefaultStyle),
            OrDefault(input.colorScheme, DefaultColorScheme), Some(ProjectUrl(input.name)))
  }

  /** The three records the store starts with. */
  const SeedProjects: seq<Project> := [
    Project("1", "My Portfolio Website", "A modern portfolio website showcasing my work",
            "website", Deployed, "2 hours ago",
            ["Contact Form", "Blog", "SEO Optimization"], "modern", "blue",
            Some("https://portfolio.proctify.ai")),
    Project("2", "Customer Support Bot", "AI-powered chatbot for customer inquiries",
            "chatbot", Building, "1 day ago",
            ["Natural Language Processing", "Integration APIs", "Analytics Dashboard"],
            "corporate", "green", Some("https://chatbot.proctify.ai")),
    Project("3", "Task Management App", "Mobile app for team task management",
            "app", Draft, "3 days ago",
            ["User Authentication", "Push Notifications", "Real-time Chat"],
            "minimalist", "purple", Some("https://taskapp.proctify.ai"))
  ]

  /** No two records of the list share an id. */
  predicate DistinctIds(ps: seq<Project>) {
    forall i, j :: 0 <= i < j < |ps| ==> ps[i].id != ps[j].id
  }

  predicate HasId(ps: seq<Project>, id: string) {
    exists i :: 0 <= i < |ps| && ps[i].id == id
  }

  lemma SeedFacts()
    ensures |SeedProjects| == 3 && DistinctIds(SeedProjects)
    ensures SeedProjects[0].id == "1" && SeedProjects[0].status == Deployed
    ensures SeedProjects[1].id == "2" && SeedProjects[1].status == Building
    ensures SeedProjects[2].id == "3" && SeedProjects[2].status == Draft
  {
  }

  // ---------------------------------------------------------------------------
  // The list operations
  // ---------------------------------------------------------------------------

  /** `projects.find(p => p.id === id)`: the first record carrying `id`, if any. */
  function Find(ps: seq<Project>, id: string): (r: Option<Project>)
    ensures r.None? <==> !HasId(ps, id)
    ensures r.Some? ==> exists i :: 0 <= i < |ps| && ps[i] == r.value && ps[i].id == id
                          && forall j :: 0 <= j < i ==> ps[j].id != id
  {
    if ps == [] then None
    else if ps[0].id == id then Some(ps[0])
    else
      var r := Find(ps[1..], id);
      assert forall i :: 0 < i < |ps| ==> ps[i] == ps[1..][i - 1];
      r
  }

  /**
   * `{ ...project, ...patch, lastModified: 'just now' }`: every field the
   * patch carries replaces the record's, every other field is kept, and the
   * stamp is `"just now"` whatever the patch says.
   */
  function Merge(p: Project, patch: Patch): (q: Project)
    ensures q.lastModified == JustNow
    ensures patch.id.Some? ==> q.id == patch.id.value
    ensures patch.id.None? ==> q.id == p.id
    ensures patch.name.Some? ==> q.name == patch.name.value
    ensures patch.name.None? ==> q.name == p.name
    ensures patch.description.Some? ==> q.description == patch.description.value
    ensures patch.description.None? ==> q.description == p.description
    ensures patch.projectType.Some? ==> q.projectType == patch.projectType.value
    ensures patch.projectType.None? ==> q.projectType == p.projectType
    ensures patch.status.Some? ==> q.status == patch.status.value
    ensures patch.status.None? ==> q.status == p.status
    ensures patch.features.Some? ==> q.features == patch.features.value
    ensures patch.features.None? ==> q.features == p.features
    ensures patch.style.Some? ==> q.style == patch.style.value
    ensures patch.style.None? ==> q.style == p.style
    ensures patch.colorScheme.Some? ==> q.colorScheme == patch.colorScheme.value
    ensures patch.colorScheme.None? ==> q.colorScheme == p.colorScheme
    ensures patch.url.Some? ==> q.url == patch.url
    ensures patch.url.None? ==> q.url == p.url
  {
    Project(
      patch.id.GetOr(p.id), patch.name.GetOr(p.name), patch.description.GetOr(p.description),
      patch.projectType.GetOr(p.projectType), patch.status.GetOr(p.status), JustNow,
      patch.features.GetOr(p.features), patch.style.GetOr(p.style),
      patch.colorScheme.GetOr(p.colorScheme),
      if patch.url.Some? then patch.url else p.url)
  }

  /** `projects.map(p => p.id === id ? Merge(p, patch) : p)`. */
  function UpdateAll(ps: seq<Project>, id: string, patch: Patch): (r: seq<Project>)
    ensures |r| == |ps|
    ensures forall i :: 0 <= i < |ps| ==> r[i] == if ps[i].id == id then Merge(ps[i], patch) else ps[i]
  {
    if ps == [] then []
    else [if ps[0].id == id then Merge(ps[0], patch) else ps[0]] + UpdateAll(ps[1..], id, patch)
  }

  /** `projects.filter(p => p.id !== id)`. */
  function DeleteAll(ps: seq<Project>, id: string): (r: seq<Project>)
    ensures |r| <= |ps|
    ensures forall i :: 0 <= i < |r| ==> r[i].id != id
    ensures forall p :: p in r <==> p in ps && p.id != id
  {
    if ps == [] then []
    else if ps[0].id == id then DeleteAll(ps[1..], id)
    else [ps[0]] + DeleteAll(ps[1..], id)
  }

  // ---------------------------------------------------------------------------
  // Properties of the list operations
  // ---------------------------------------------------------------------------

  /** A list holds an id exactly when its head or its tail does. */
  lemma HasIdCons(ps: seq<Project>, id: string)
    requires ps != []
    ensures HasId(ps, id) <==> ps[0].id == id || HasId(ps[1..], id)
  {
    if HasId(ps[1..], id) {
      var i :| 0 <= i < |ps[1..]| && ps[1..][i].id == id;
      assert ps[i + 1] == ps[1..][i];
    }
    if HasId(ps, id) && ps[0].id != id {
      var i :| 0 <= i < |ps| && ps[i].id == id;
      assert ps[1..][i - 1] == ps[i];
    }
  }

  /** Looking up in a list with one record appended. */
  lemma {:induction false} FindAppend(ps: seq<Project>, p: Project, id: string)
    ensures Find(ps + [p], id) ==
      if HasId(ps, id) then Find(ps, id) else if p.id == id then Some(p) else None
  {
    if ps == [] {
      assert [] + [p] == [p];
    } else {
      var qs := ps + [p];
      assert qs[0] == ps[0] && qs[1..] == ps[1..] + [p];
      HasIdCons(ps, id);
      FindAppend(ps[1..], p, id);
    }
  }

  /** A record created under an id the list does not hold is what a lookup of that id finds. */
  lemma CreateThenFind(ps: seq<Project>, p: Project)
    requires !HasId(ps, p.id)
    ensures Find(ps + [p], p.id) == Some(p)
  {
    FindAppend(ps, p, p.id);
  }

  /** Appending a record under a fresh id keeps the ids distinct. */
  lemma CreateKeepsIdsDistinct(ps: seq<Project>, p: Project)
    requires DistinctIds(ps) && !HasId(ps, p.id)
    ensures DistinctIds(ps + [p])
  {
    var qs := ps + [p];
    forall i, j | 0 <= i < j < |qs| ensures qs[i].id != qs[j].id {
      assert qs[i] == ps[i];
      if j < |ps| {
        assert qs[j] == ps[j];
      }
    }
  }

  /** Updating an id the list does not hold leaves the list exactly as it was. */
  lemma UpdateAbsent(ps: seq<Project>, id: string, patch: Patch)
    requires !HasId(ps, id)
    ensures UpdateAll(ps, id, patch) == ps
  {
  }

  /** Applying the same patch twice is the same as applying it once, even if the patch renames the id. */
  lemma UpdateIdempotent(ps: seq<Project>, id: string, patch: Patch)
    ensures UpdateAll(UpdateAll(ps, id, patch), id, patch) == UpdateAll(ps, id, patch)
  {
    var once := UpdateAll(ps, id, patch);
    var twice := UpdateAll(once, id, patch);
    forall i | 0 <= i < |ps| ensures twice[i] == once[i] {
      if ps[i].id == id {
        assert Merge(Merge(ps[i], patch), patch) == Merge(ps[i], patch);
      }
    }
  }

  /**
   * After an update that keeps the id, a lookup of that id finds the first
   * matching record with every patched field replaced and every other field kept.
   */
  lemma {:induction false} UpdateThenFind(ps: seq<Project>, id: string, patch: Patch)
    requires patch.id.None? || patch.id == Some(id)
    ensures Find(UpdateAll(ps, id, patch), id) ==
      if HasId(ps, id) then Some(Merge(Find(ps, id).value, patch)) else None
  {
    if ps != [] {
      var us := UpdateAll(ps, id, patch);
      assert us == [us[0]] + UpdateAll(ps[1..], id, patch);
      assert us[1..] == UpdateAll(ps[1..], id, patch);
      assert us[0].id == id <==> ps[0].id == id;
      HasIdCons(ps, id);
      UpdateThenFind(ps[1..], id, patch);
    }
  }

  /**
   * An update whose patch moves the record to another id leaves nothing under
   * the old id: a lookup of it then finds nothing.
   */
  lemma UpdateAwayThenFind(ps: seq<Project>, id: string, patch: Patch)
    requires patch.id.Some? && patch.id.value != id
    ensures Find(UpdateAll(ps, id, patch), id) == None
  {
  }

  /** The patch that carries no field. */
  const EmptyPatch := Patch(None, None, None, None, None, None, None, None, None, None)

  /**
   * Renaming a project and then looking it up gives the old record with the
   * new name and the `"just now"` stamp, every other field unchanged.
   */
  lemma RenameThenFind(ps: seq<Project>, id: string, name: string)
    requires HasId(ps, id)
    ensures Find(UpdateAll(ps, id, EmptyPatch.(name := Some(name))), id) ==
      Some(Find(ps, id).value.(name := name, lastModified := JustNow))
  {
    UpdateThenFind(ps, id, EmptyPatch.(name := Some(name)));
  }

  /** An update that keeps ids unchanged keeps them distinct. */
  lemma UpdateKeepsIdsDistinct(ps: seq<Project>, id: string, patch: Patch)
    requires DistinctIds(ps) && (patch.id.None? || patch.id == Some(id))
    ensures DistinctIds(UpdateAll(ps, id, patch))
  {
    var us := UpdateAll(ps, id, patch);
    assert forall i :: 0 <= i < |ps| ==> us[i].id == ps[i].id;
  }

  /** Prepending one record to a concatenation prepends it to the first part. */
  lemma PrependAssoc(p: Project, r: seq<Project>, s: seq<Project>)
    ensures [p] + (r + s) == ([p] + r) + s
  {
  }

  /** Deleting distributes over concatenation: the surviving records keep their order. */
  lemma {:induction false} DeleteAppend(a: seq<Project>, b: seq<Project>, id: string)
    ensures DeleteAll(a + b, id) == DeleteAll(a, id) + DeleteAll(b, id)
  {
    if a == [] {
      assert a + b == b;
    } else {
      var ab := a + b;
      assert ab[0] == a[0] && ab[1..] == a[1..] + b;
      DeleteAppend(a[1..], b, id);
      if a[0].id != id {
        PrependAssoc(a[0], DeleteAll(a[1..], id), DeleteAll(b, id));
      }
    }
  }

  /** Deleting an id the list does not hold changes nothing, and otherwise shortens the list. */
  lemma {:induction false} DeleteAbsent(ps: seq<Project>, id: string)
    ensures DeleteAll(ps, id) == ps <==> !HasId(ps, id)
    ensures HasId(ps, id) ==> |DeleteAll(ps, id)| < |ps|
  {
    if ps != [] {
      DeleteAbsent(ps[1..], id);
      HasIdCons(ps, id);
      if ps[0].id == id {
        assert |DeleteAll(ps, id)| < |ps|;
      }
    }
  }

  /** Deleting twice is deleting once. */
  lemma DeleteIdempotent(ps: seq<Project>, id: string)
    ensures DeleteAll(DeleteAll(ps, id), id) == DeleteAll(ps, id)
  {
    DeleteAbsent(DeleteAll(ps, id), id);
  }

  /** After a delete, no lookup of the deleted id succeeds. */
  lemma DeleteThenFind(ps: seq<Project>, id: string)
    ensures Find(DeleteAll(ps, id), id) == None
  {
  }

  /** A list with a head has distinct ids when its tail does and the head's id is not in the tail. */
  lemma DistinctIdsCons(p: Project, ps: seq<Project>)
    ensures DistinctIds([p] + ps) <==> DistinctIds(ps) && !HasId(ps, p.id)
  {
    var qs := [p] + ps;
    if DistinctIds(qs) {
      forall i, j | 0 <= i < j < |ps| ensures ps[i].id != ps[j].id {
        assert qs[i + 1] == ps[i] && qs[j + 1] == ps[j];
      }
      forall i | 0 <= i < |ps| ensures ps[i].id != p.id {
        assert qs[0] == p && qs[i + 1] == ps[i];
      }
    }
    if DistinctIds(ps) && !HasId(ps, p.id) {
      forall i, j | 0 <= i < j < |qs| ensures qs[i].id != qs[j].id {
        assert qs[j] == ps[j - 1];
        if i > 0 {
          assert qs[i] == ps[i - 1];
        }
      }
    }
  }

  /** Deleting keeps the ids of the surviving records distinct. */
  lemma {:induction false} DeleteKeepsIdsDistinct(ps: seq<Project>, id: string)
    requires DistinctIds(ps)
    ensures DistinctIds(DeleteAll(ps, id))
  {
    if ps != [] {
      assert ps == [ps[0]] + ps[1..];
      DistinctIdsCons(ps[0], ps[1..]);
      DeleteKeepsIdsDistinct(ps[1..], id);
      var rest := DeleteAll(ps[1..], id);
      if ps[0].id != id {
        DistinctIdsCons(ps[0], rest);
      }
    }
  }

  // ---------------------------------------------------------------------------
  // The store
  // ---------------------------------------------------------------------------

  /** The state `ProjectProvider` keeps, and the four operations it exposes. */
  class ProjectStore {
    var projects: seq<Project>

    constructor ()
      ensures projects == SeedProjects
    {
      projects := SeedProjects;
    }

    /**
     * `createProject`, with the generation delay as one atomic step and the
     * time-based id taken as a parameter: build the record as `building`,
     * flip it to `deployed`, append it and return it.
     */
    method CreateProject(id: string, input: CreateInput) returns (p: Project)
      modifies this
      ensures p == NewProject(id, input).(status := Deployed)
      ensures p.status == Deployed && p.lastModified == JustNow && p.url == Some(ProjectUrl(input.name))
      ensures projects == old(projects) + [p]
    {
      p := NewProject(id, input);
      p := p.(status := Deployed);
      projects := projects + [p];
    }

    /** `getProject`: a lookup in the current list, none exactly when no record has the id. */
    function GetProject(id: string): (r: Option<Project>)
      reads this
      ensures r.None? <==> !HasId(projects, id)
      ensures r.Some? ==> r.value.id == id && r.value in projects
    {
      Find(projects, id)
    }

    /** `updateProject`: merge the patch into every record with that id. */
    method UpdateProject(id: string, patch: Patch)
      modifies this
      ensures projects == UpdateAll(old(projects), id, patch)
      ensures |projects| == |old(projects)|
    {
      projects := UpdateAll(projects, id, patch);
    }

    /** `deleteProject`: drop every record with that id. */
    method DeleteProject(id: string)
      modifies this
      ensures projects == DeleteAll(old(projects), id)
      ensures GetProject(id) == None
    {
      projects := DeleteAll(projects, id);
      DeleteThenFind(old(projects), id);
    }
  }

  /** The creation scenario: a new site named "Test Site" is found, deployed, under its address. */
  method CreateScenario() {
    var store := new ProjectStore();
    SeedFacts();
    assert !HasId(store.projects, "4");
    var input := CreateInput("Test Site", "d", "website", Some(["Auth"]), Some("modern"), Some("blue"));
    var p := store.CreateProject("4", input);
    TestSiteUrl();
    assert p.status == Deployed && p.features == ["Auth"];
    assert p.url == Some("https://test-site.proctify.ai");
    CreateThenFind(SeedProjects, p);
    assert store.GetProject("4") == Some(p);
    assert |store.projects| == 4;
  }
}
