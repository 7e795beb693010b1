/**
 * The project wizard of `src/components/BuilderFlow.tsx`: a four-step form
 * whose step counter moves with Next and Back, whose Next button is gated on
 * the first step's name and idea, whose feature checkboxes toggle entries of a
 * selection list, and whose last Next hands the draft to the project store.
 */
module Builder {
  import opened Wrappers
  import Projects

  /** The titles of `steps`; the wizard's step counter indexes this list. */
  const StepTitles: seq<string> := ["Project Vision", "Design DNA", "Feature Matrix", "AI Generation"]

  /** `steps.length - 1`: the generation step. */
  const LastStep: nat := |StepTitles| - 1

  /** The `projectData` form state. */
  datatype Draft = Draft(
    projectType: string,
    name: string,
    description: string,
    idea: string,
    targetAudience: string,
    features: seq<string>,
    style: string,
    colorScheme: string,
    additionalRequirements: string)

  /**
   * The initial form: the `type` query parameter (`None` when absent), or
   * `website` when it is absent or empty; everything else blank, `modern`,
   * `blue` and no features.
   */
  function InitialDraft(typeParam: Option<string>): (d: Draft)
    ensures d.projectType == if typeParam.Some? && typeParam.value != "" then typeParam.value else "website"
    ensures d.features == [] && d.style == "modern" && d.colorScheme == "blue"
    ensures d.name == "" && d.description == "" && d.idea == ""
    ensures d.targetAudience == "" && d.additionalRequirements == ""
  {
    Draft(Projects.OrDefault(typeParam, "website"), "", "", "", "", [], "modern", "blue", "")
  }

  // ---------------------------------------------------------------------------
  // The step counter
  // ---------------------------------------------------------------------------

  /** The step `handleNext` moves to; at the last step it generates instead and stays. */
  function AfterNext(step: nat): (r: nat)
    ensures r == step + 1 <==> step < LastStep
    ensures r != step + 1 ==> r == step
    ensures step <= LastStep ==> r <= LastStep
  {
    if step < LastStep then step + 1 else step
  }

  /** The step `handleBack` moves to; at the first step it does nothing. */
  function AfterBack(step: nat): (r: nat)
    ensures step > 0 ==> r + 1 == step
    ensures step == 0 ==> r == 0
    ensures r <= step
  {
    if step > 0 then step - 1 else step
  }

  datatype Press = NextPress | BackPress

  /** The step reached by a sequence of button presses. */
  function Walk(step: nat, presses: seq<Press>): nat
    decreases |presses|
  {
    if presses == [] then step
    else Walk(if presses[0].NextPress? then AfterNext(step) else AfterBack(step), presses[1..])
  }

  /** Whatever the presses, the step counter stays within the wizard's steps. */
  lemma {:induction false} WalkStaysInRange(step: nat, presses: seq<Press>)
    requires step <= LastStep
    ensures Walk(step, presses) <= LastStep
    decreases |presses|
  {
    if presses != [] {
      var next := if presses[0].NextPress? then AfterNext(step) else AfterBack(step);
      WalkStaysInRange(next, presses[1..]);
    }
  }

  /** `n` presses of Next from step `k` reach step `k + n`, capped at the last step. */
  lemma {:induction false} RepeatedNext(k: nat, n: nat)
    requires k <= LastStep
    ensures Walk(k, seq(n, _ => NextPress)) == if k + n < LastStep then k + n else LastStep
    decreases n
  {
    var presses := seq(n, _ => NextPress);
    if n > 0 {
      assert presses[0].NextPress?;
      assert presses[1..] == seq(n - 1, _ => NextPress);
      RepeatedNext(AfterNext(k), n - 1);
    }
  }

  /** Next then Back from a step before the last returns to that step; Back at the first step is a no-op. */
  lemma NextThenBack(k: nat)
    requires k < LastStep
    ensures AfterBack(AfterNext(k)) == k
    ensures AfterNext(k) == k + 1
    ensures AfterBack(0) == 0
  {
  }

  // ---------------------------------------------------------------------------
  // Button guards
  // ---------------------------------------------------------------------------

  /**
   * The Next button's `disabled`: at the first step while the name or the
   * idea is empty, and at every step while a generation is running.
   */
  predicate NextDisabled(step: nat, d: Draft, isGenerating: bool) {
    (step == 0 && (d.name == "" || d.idea == "")) || isGenerating
  }

  /** The Back button's `disabled`. */
  predicate BackDisabled(step: nat) {
    step == 0
  }

  /**
   * The description never gates Next; past the first step only a running
   * generation does; and Back is disabled exactly where it would do nothing.
   */
  lemma GuardFacts(step: nat, d: Draft, isGenerating: bool, text: string)
    ensures NextDisabled(step, d.(description := text), isGenerating) == NextDisabled(step, d, isGenerating)
    ensures step > 0 ==> (NextDisabled(step, d, isGenerating) <==> isGenerating)
    ensures BackDisabled(step) <==> AfterBack(step) == step
  {
  }

  // ---------------------------------------------------------------------------
  // The feature selection
  // ---------------------------------------------------------------------------

  /** `features.filter(x => x !== f)`. */
  function Without(fs: seq<string>, f: string): (r: seq<string>)
    ensures |r| <= |fs|
    ensures f !in r
    ensures forall g :: g in r <==> g in fs && g != f
  {
    if fs == [] then []
    else if fs[0] == f then Without(fs[1..], f)
    else [fs[0]] + Without(fs[1..], f)
  }

  /** `handleFeatureToggle`: drop every copy of a selected feature, or append an unselected one. */
  function Toggle(fs: seq<string>, f: string): (r: seq<string>)
    ensures f in r <==> f !in fs
    ensures forall g :: g != f ==> (g in r <==> g in fs)
    ensures f !in fs ==> |r| == |fs| + 1 && r[..|fs|] == fs && r[|fs|] == f
  {
    if f in fs then Without(fs, f) else fs + [f]
  }

  predicate NoDuplicates(fs: seq<string>) {
    forall i, j :: 0 <= i < j < |fs| ==> fs[i] != fs[j]
  }

  /** Filtering out a feature that is not there changes nothing. */
  lemma {:induction false} WithoutAbsent(fs: seq<string>, f: string)
    requires f !in fs
    ensures Without(fs, f) == fs
  {
    if fs != [] {
      assert fs[0] != f;
      WithoutAbsent(fs[1..], f);
    }
  }

  /** Filtering distributes over concatenation, so the kept features keep their order. */
  lemma {:induction false} WithoutAppend(a: seq<string>, b: seq<string>, f: string)
    ensures Without(a + b, f) == Without(a, f) + Without(b, f)
  {
    if a == [] {
      assert a + b == b;
    } else {
      var ab := a + b;
      assert ab[0] == a[0] && ab[1..] == a[1..] + b;
      WithoutAppend(a[1..], b, f);
      if a[0] == f {
        assert Without(ab, f) == Without(a[1..] + b, f);
      } else {
        assert Without(ab, f) == [a[0]] + Without(a[1..] + b, f);
      }
    }
  }

  /** Filtering keeps a duplicate-free list duplicate-free. */
  lemma {:induction false} WithoutKeepsNoDuplicates(fs: seq<string>, f: string)
    requires NoDuplicates(fs)
    ensures NoDuplicates(Without(fs, f))
  {
    if fs != [] {
      var tail := fs[1..];
      assert NoDuplicates(tail) by {
        forall i, j | 0 <= i < j < |tail| ensures tail[i] != tail[j] {
          assert tail[i] == fs[i + 1] && tail[j] == fs[j + 1];
        }
      }
      assert fs[0] !in tail by {
        forall i | 0 <= i < |tail| ensures tail[i] != fs[0] {
          assert tail[i] == fs[i + 1];
        }
      }
      WithoutKeepsNoDuplicates(tail, f);
      if fs[0] != f {
        var rest := Without(tail, f);
        var r := [fs[0]] + rest;
        forall i, j | 0 <= i < j < |r| ensures r[i] != r[j] {
          assert r[j] == rest[j - 1];
          if i > 0 {
            assert r[i] == rest[i - 1];
          } else {
            assert rest[j - 1] in tail;
          }
        }
      }
    }
  }

  /** Toggling keeps a duplicate-free selection duplicate-free. */
  lemma ToggleKeepsNoDuplicates(fs: seq<string>, f: string)
    requires NoDuplicates(fs)
    ensures NoDuplicates(Toggle(fs, f))
  {
    if f in fs {
      WithoutKeepsNoDuplicates(fs, f);
    } else {
      var r := fs + [f];
      forall i, j | 0 <= i < j < |r| ensures r[i] != r[j] {
        assert r[i] == fs[i];
        if j < |fs| {
          assert r[j] == fs[j];
        }
      }
    }
  }

  /** Toggling an unselected feature twice restores the selection exactly. */
  lemma ToggleTwiceRestores(fs: seq<string>, f: string)
    requires f !in fs
    ensures Toggle(Toggle(fs, f), f) == fs
  {
    WithoutAppend(fs, [f], f);
    WithoutAbsent(fs, f);
    assert Without([f], f) == [];
  }

  /** Apart from the toggled feature, the selection is the same list in the same order. */
  lemma ToggleKeepsOthersInOrder(fs: seq<string>, f: string)
    ensures Without(Toggle(fs, f), f) == Without(fs, f)
  {
    if f in fs {
      WithoutAbsent(Without(fs, f), f);
    } else {
      WithoutAppend(fs, [f], f);
      assert Without([f], f) == [];
      assert Without(fs, f) + [] == Without(fs, f);
    }
  }

  /** The selection after a series of toggles. */
  function ToggleAll(fs: seq<string>, toggles: seq<string>): seq<string>
    decreases |toggles|
  {
    if toggles == [] then fs else ToggleAll(Toggle(fs, toggles[0]), toggles[1..])
  }

  /** However the checkboxes are clicked, a duplicate-free selection stays duplicate-free. */
  lemma {:induction false} ToggleAllKeepsNoDuplicates(fs: seq<string>, toggles: seq<string>)
    requires NoDuplicates(fs)
    ensures NoDuplicates(ToggleAll(fs, toggles))
    decreases |toggles|
  {
    if toggles != [] {
      ToggleKeepsNoDuplicates(fs, toggles[0]);
      ToggleAllKeepsNoDuplicates(Toggle(fs, toggles[0]), toggles[1..]);
    }
  }

  // ---------------------------------------------------------------------------
  // The project-type tables
  // ---------------------------------------------------------------------------

  /** The display name and description of an entry of `projectTypes`. */
  datatype TypeInfo = TypeInfo(name: string, description: string)

  predicate KnownType(t: string) {
    t == "website" || t == "chatbot" || t == "app"
  }

  /** `projectTypes[type]`, `None` where the table has no entry. */
  function ProjectTypeInfo(t: string): Option<TypeInfo> {
    if t == "website" then Some(TypeInfo("Next.js Website", "Full-stack web application with SSR"))
    else if t == "chatbot" then Some(TypeInfo("AI Chatbot", "Intelligent conversational agent"))
    else if t == "app" then Some(TypeInfo("React Native App", "Cross-platform mobile application"))
    else None
  }

  /** The feature names of `featureOptions[type]`, `None` where the table has no entry. */
  function FeatureOptions(t: string): Option<seq<string>> {
    if t == "website" then
      Some(["Authentication System", "Database Integration", "API Routes", "SEO Optimization",
            "Payment Integration", "Admin Dashboard", "Real-time Features", "Email System"])
    else if t == "chatbot" then
      Some(["Natural Language Processing", "Multi-language Support", "Integration APIs",
            "Analytics Dashboard", "Custom Workflows", "Voice Support", "File Processing",
            "Live Chat Handoff"])
    else if t == "app" then
      Some(["User Authentication", "Push Notifications", "Offline Support", "Social Login",
            "In-app Purchases", "Analytics Tracking", "Cloud Storage", "Real-time Chat"])
    else None
  }

  /**
   * Both tables are defined for exactly the three known types, and the
   * default draft's type is one of them.
   */
  lemma TablesDefinedForKnownTypes(t: string)
    ensures ProjectTypeInfo(t).Some? <==> KnownType(t)
    ensures FeatureOptions(t).Some? <==> KnownType(t)
    ensures FeatureOptions(t).Some? ==> |FeatureOptions(t).value| == 8
    ensures KnownType(InitialDraft(None).projectType)
  {
  }

  // ---------------------------------------------------------------------------
  // Editing and handing over the draft
  // ---------------------------------------------------------------------------

  /** The form fields set by the text inputs and the style and colour pickers. */
  datatype Field = Name | Description | Idea | TargetAudience | AdditionalRequirements | Style | ColorScheme

  /**
   * The step whose panel holds the input for a field: name, description, idea
   * and audience on the first, style and colour on the second, the additional
   * requirements beside the feature checkboxes on the third.
   */
  function FieldStep(field: Field): (step: nat)
    ensures step < LastStep
    ensures step == 0 <==> field in {Name, Description, Idea, TargetAudience}
  {
    match field
    case Name => 0
    case Description => 0
    case Idea => 0
    case TargetAudience => 0
    case Style => 1
    case ColorScheme => 1
    case AdditionalRequirements => FeatureStep
  }

  /** The step whose panel holds the feature checkboxes. */
  const FeatureStep: nat := 2

  /**
   * `{ ...prev, [field]: value }`: no edit touches the type or the feature
   * selection, and only the name and idea inputs change the name and idea.
   */
  function WithField(d: Draft, field: Field, value: string): (r: Draft)
    ensures r.projectType == d.projectType && r.features == d.features
    ensures field != Name ==> r.name == d.name
    ensures field != Idea ==> r.idea == d.idea
  {
    match field
    case Name => d.(name := value)
    case Description => d.(description := value)
    case Idea => d.(idea := value)
    case TargetAudience => d.(targetAudience := value)
    case AdditionalRequirements => d.(additionalRequirements := value)
    case Style => d.(style := value)
    case ColorScheme => d.(colorScheme := value)
  }

  /** The draft as the argument of `createProject`: the store reads six of its fields. */
  function DraftInput(d: Draft): Projects.CreateInput {
    Projects.CreateInput(d.name, d.description, d.projectType, Some(d.features), Some(d.style), Some(d.colorScheme))
  }

  /**
   * The project generated from a draft carries the draft's name, description,
   * type and feature list verbatim, and its style and colour unless they are empty.
   */
  lemma GeneratedFromDraft(id: string, d: Draft)
    ensures Projects.NewProject(id, DraftInput(d)).name == d.name
    ensures Projects.NewProject(id, DraftInput(d)).description == d.description
    ensures Projects.NewProject(id, DraftInput(d)).projectType == d.projectType
    ensures Projects.NewProject(id, DraftInput(d)).features == d.features
    ensures Projects.NewProject(id, DraftInput(d)).style == if d.style == "" then "modern" else d.style
    ensures Projects.NewProject(id, DraftInput(d)).colorScheme == if d.colorScheme == "" then "blue" else d.colorScheme
  {
  }

  // ---------------------------------------------------------------------------
  // The component
  // ---------------------------------------------------------------------------

  /** The wizard's state: `currentStep`, `isGenerating` and `projectData`. */
  class Wizard {
    var currentStep: nat
    var isGenerating: bool
    var data: Draft

    /**
     * The step is one of the wizard's steps, the selection holds no feature
     * twice, and the type is one the lookup tables know (the page reads
     * `currentProjectType.gradient` on every render, so an unknown type never
     * gets past the first render). Past the first step the name and the idea
     * are filled in, since Next left the first step only with both set and
     * their inputs exist only there.
     */
    ghost predicate Valid()
      reads this
    {
      && currentStep <= LastStep
      && NoDuplicates(data.features)
      && KnownType(data.projectType)
      && (currentStep > 0 ==> data.name != "" && data.idea != "")
    }

    /** `currentProjectType`: every state the page renders has an entry in `projectTypes`. */
    function CurrentProjectType(): (info: TypeInfo)
      reads this
      requires Valid()
      ensures ProjectTypeInfo(data.projectType) == Some(info)
    {
      TablesDefinedForKnownTypes(data.projectType);
      ProjectTypeInfo(data.projectType).value
    }

    /** `currentFeatures`: the eight checkbox names offered for the draft's type. */
    function CurrentFeatures(): (names: seq<string>)
      reads this
      requires Valid()
      ensures FeatureOptions(data.projectType) == Some(names) && |names| == 8
    {
      TablesDefinedForKnownTypes(data.projectType);
      FeatureOptions(data.projectType).value
    }

    /** Mounting the page; a `type` parameter the tables do not know makes the first render throw. */
    constructor (typeParam: Option<string>)
      requires KnownType(InitialDraft(typeParam).projectType)
      ensures Valid()
      ensures currentStep == 0 && !isGenerating && data == InitialDraft(typeParam)
      ensures NextDisabled(currentStep, data, isGenerating)
    {
      currentStep := 0;
      isGenerating := false;
      data := InitialDraft(typeParam);
    }

    /**
     * `handleNext`: advance one step, or at the last step start generation.
     * Returns the id of the project page it opens, if it opens one. The
     * handler runs only from the Next button, so only while it is enabled.
     */
    method Next(store: Projects.ProjectStore, newId: string) returns (page: Option<string>)
      requires Valid()
      requires !NextDisabled(currentStep, data, isGenerating)
      modifies this, store
      ensures Valid()
      ensures currentStep == AfterNext(old(currentStep)) && data == old(data)
      ensures old(currentStep) < LastStep ==>
        page.None? && isGenerating == old(isGenerating) && store.projects == old(store.projects)
      ensures old(currentStep) == LastStep ==>
        isGenerating && page == Some(newId)
        && store.projects == old(store.projects) + [Projects.NewProject(newId, DraftInput(data)).(status := Projects.Deployed)]
        && KnownType(store.projects[|store.projects| - 1].projectType)
        && store.projects[|store.projects| - 1].name != ""
        && NextDisabled(currentStep, data, isGenerating)
    {
      if currentStep < LastStep {
        currentStep := currentStep + 1;
        page := None;
      } else {
        var id := Generate(store, newId);
        page := Some(id);
      }
    }

    /** `handleBack`: go back one step, except at the first. */
    method Back()
      requires Valid()
      modifies this
      ensures Valid()
      ensures currentStep == AfterBack(old(currentStep))
      ensures isGenerating == old(isGenerating) && data == old(data)
    {
      if currentStep > 0 {
        currentStep := currentStep - 1;
      }
    }

    /**
     * `handleGenerate`, its wait for the store as one step: mark the wizard
     * as generating, create the project from the draft, and return the id
     * whose page it navigates to. Only Next on the last step calls it, and
     * only while no generation runs.
     */
    method Generate(store: Projects.ProjectStore, newId: string) returns (id: string)
      requires Valid()
      requires currentStep == LastStep && !isGenerating
      modifies this, store
      ensures Valid()
      ensures isGenerating && currentStep == old(currentStep) && data == old(data)
      ensures id == newId
      ensures store.projects == old(store.projects) + [Projects.NewProject(newId, DraftInput(data)).(status := Projects.Deployed)]
      ensures KnownType(store.projects[|store.projects| - 1].projectType)
      ensures store.projects[|store.projects| - 1].name != ""
      ensures NextDisabled(currentStep, data, isGenerating)
    {
      isGenerating := true;
      var p := store.CreateProject(newId, DraftInput(data));
      id := p.id;
    }

    /** `handleFeatureToggle`, from a checkbox of the feature step. */
    method ToggleFeature(f: string)
      requires Valid() && currentStep == FeatureStep
      modifies this
      ensures Valid()
      ensures data == old(data).(features := Toggle(old(data.features), f))
      ensures currentStep == old(currentStep) && isGenerating == old(isGenerating)
    {
      ToggleKeepsNoDuplicates(data.features, f);
      data := data.(features := Toggle(data.features, f));
    }

    /** The `onChange`/`onClick` handlers that set one field of the form, from the step that shows it. */
    method Edit(field: Field, value: string)
      requires Valid() && currentStep == FieldStep(field)
      modifies this
      ensures Valid()
      ensures data == WithField(old(data), field, value)
      ensures currentStep == old(currentStep) && isGenerating == old(isGenerating)
    {
      data := WithField(data, field, value);
    }
  }
}
