/** Form logic of the assembly configurator: the local form state with its
    mutually exclusive overlap flags, the request the submit handler builds for
    each assembly type, and which controls the form shows.

    The component receives the assembly type as a string tag and compares it
    with string literals; the functions below do the same. `AssemblyType`
    classifies a tag, and the lemmas state the behaviour per class. */
module SourceAssembly {

  datatype Option<T> = None | Some(value: T)

  // ---------------------------------------------------------------------------
  // Assembly types
  // ---------------------------------------------------------------------------

  const GibsonTag: string := "gibson_assembly"
  const RestrictionTag: string := "restriction_and_ligation"
  const LigationTag: string := "ligation"

  /** The three tags the form knows, in the order the circular-only condition lists them. */
  const KnownTags: seq<string> := [RestrictionTag, GibsonTag, LigationTag]

  /** What a tag means to the form. Any tag other than the three known ones is
      `Other`; the submit handler still sends it a ligation-shaped request. */
  datatype AssemblyType = Gibson | RestrictionAndLigation | Ligation | Other(name: string)

  /** The string dispatch of the submit handler and of the visibility
      conditions: the class of a tag, from which the tag can be recovered. */
  function Classify(tag: string): (t: AssemblyType)
    ensures Canonical(t) && TagOf(t) == tag
    ensures t.Other? <==> tag !in KnownTags
  {
    if tag == GibsonTag then Gibson
    else if tag == RestrictionTag then RestrictionAndLigation
    else if tag == LigationTag then Ligation
    else Other(tag)
  }

  function TagOf(t: AssemblyType): string
  {
    match t
    case Gibson => GibsonTag
    case RestrictionAndLigation => RestrictionTag
    case Ligation => LigationTag
    case Other(name) => name
  }

  /** An `Other` never carries one of the known tags. */
  predicate Canonical(t: AssemblyType)
  {
    t.Other? ==> t.name !in KnownTags
  }

  lemma TagOfThenClassify(t: AssemblyType)
    requires Canonical(t)
    ensures Classify(TagOf(t)) == t
  {
  }

  // ---------------------------------------------------------------------------
  // Input entities and the entity-id map
  // ---------------------------------------------------------------------------

  /** A DNA fragment taking part in the assembly. The form reads only `id`;
      `record` stands for the rest of the entity, passed through untouched. */
  datatype Entity = Entity(id: int, record: string)

  /** The ids of the input entities, in input order. */
  function Ids(entities: seq<Entity>): (ids: seq<int>)
    ensures |ids| == |entities|
    ensures forall i :: 0 <= i < |entities| ==> ids[i] == entities[i].id
  {
    if entities == [] then [] else [entities[0].id] + Ids(entities[1..])
  }

  // ---------------------------------------------------------------------------
  // Form state
  // ---------------------------------------------------------------------------

  /** The minimal homology length: the number 20 until the user edits the
      field, then the field's text as typed. It is never validated. */
  datatype Homology = Number(n: int) | Text(text: string)

  datatype FormState = FormState(
    minimalHomology: Homology,
    allowPartialOverlaps: bool,
    circularOnly: bool,
    bluntLigation: bool,
    enzymes: seq<string>)

  /** The form's invariant: partial overlaps and blunt ligation are never both on. */
  predicate Exclusive(s: FormState)
  {
    !(s.allowPartialOverlaps && s.bluntLigation)
  }

  function InitialState(): (s: FormState)
    ensures Exclusive(s)
  {
    FormState(Number(20), false, false, false, [])
  }

  /** Clicking "Allow partial overlaps": negate it, and clear blunt ligation
      when it is being turned on. Both reads are of the state before the click. */
  function FlippedPartialOverlaps(s: FormState): (r: FormState)
    ensures Exclusive(r)
  {
    var wasOn := s.allowPartialOverlaps;
    s.(allowPartialOverlaps := !wasOn,
       bluntLigation := if !wasOn then false else s.bluntLigation)
  }

  /** Clicking "Blunt ligation": the symmetric handler. */
  function FlippedBluntLigation(s: FormState): (r: FormState)
    ensures Exclusive(r)
  {
    var wasOn := s.bluntLigation;
    s.(bluntLigation := !wasOn,
       allowPartialOverlaps := if !wasOn then false else s.allowPartialOverlaps)
  }

  /** Clicking "Circular assemblies only": only that flag changes. */
  function ToggledCircularOnly(s: FormState): (r: FormState)
    ensures r.circularOnly != s.circularOnly
    ensures r.(circularOnly := s.circularOnly) == s
  {
    s.(circularOnly := !s.circularOnly)
  }

  /** Typing in the homology field: the field's text replaces the homology. */
  function WithHomology(s: FormState, text: string): (r: FormState)
    ensures r.minimalHomology == Text(text)
    ensures r.(minimalHomology := s.minimalHomology) == s
    ensures Exclusive(r) <==> Exclusive(s)
  {
    s.(minimalHomology := Text(text))
  }

  /** The enzyme widget's callback: the chosen list replaces the enzymes. */
  function WithEnzymes(s: FormState, enzymes: seq<string>): (r: FormState)
    ensures r.enzymes == enzymes
    ensures r.(enzymes := s.enzymes) == s
    ensures Exclusive(r) <==> Exclusive(s)
  {
    s.(enzymes := enzymes)
  }

  lemma FlipPartialOverlapsEffect(s: FormState)
    ensures var r := FlippedPartialOverlaps(s);
      && r.allowPartialOverlaps == !s.allowPartialOverlaps
      && (!s.allowPartialOverlaps ==> !r.bluntLigation)
      && (s.allowPartialOverlaps ==> r.bluntLigation == s.bluntLigation)
      && r.minimalHomology == s.minimalHomology
      && r.circularOnly == s.circularOnly
      && r.enzymes == s.enzymes
  {
  }

  lemma FlipBluntLigationEffect(s: FormState)
    ensures var r := FlippedBluntLigation(s);
      && r.bluntLigation == !s.bluntLigation
      && (!s.bluntLigation ==> !r.allowPartialOverlaps)
      && (s.bluntLigation ==> r.allowPartialOverlaps == s.allowPartialOverlaps)
      && r.minimalHomology == s.minimalHomology
      && r.circularOnly == s.circularOnly
      && r.enzymes == s.enzymes
  {
  }

  /** The circular-only toggle undoes itself and keeps the invariant both ways. */
  lemma ToggleCircularOnlyEffect(s: FormState)
    ensures ToggledCircularOnly(ToggledCircularOnly(s)) == s
    ensures Exclusive(ToggledCircularOnly(s)) <==> Exclusive(s)
  {
  }

  /** Two clicks on "Allow partial overlaps" give back the state exactly when
      blunt ligation was off: whichever click turns partial overlaps on clears
      blunt ligation, and nothing turns it back on. */
  lemma FlipPartialTwice(s: FormState)
    ensures FlippedPartialOverlaps(FlippedPartialOverlaps(s)) == s <==> !s.bluntLigation
  {
  }

  lemma FlipBluntTwice(s: FormState)
    ensures FlippedBluntLigation(FlippedBluntLigation(s)) == s <==> !s.allowPartialOverlaps
  {
  }

  // ---------------------------------------------------------------------------
  // The two flags as one three-way choice
  // ---------------------------------------------------------------------------

  /** On states that keep the invariant, the two flags say one of three things. */
  datatype OverlapMode = Neither | PartialOverlaps | BluntEnds

  function Mode(s: FormState): OverlapMode
    requires Exclusive(s)
  {
    if s.allowPartialOverlaps then PartialOverlaps
    else if s.bluntLigation then BluntEnds
    else Neither
  }

  /** A click on a mode's checkbox selects it, or deselects it when it is selected. */
  function Click(current: OverlapMode, clicked: OverlapMode): OverlapMode
    requires clicked != Neither
  {
    if current == clicked then Neither else clicked
  }

  lemma ModeDeterminesFlags(s: FormState, t: FormState)
    requires Exclusive(s) && Exclusive(t)
    ensures Mode(s) == Mode(t)
            <==> s.allowPartialOverlaps == t.allowPartialOverlaps && s.bluntLigation == t.bluntLigation
  {
  }

  lemma FlipPartialOverlapsIsClick(s: FormState)
    requires Exclusive(s)
    ensures Mode(FlippedPartialOverlaps(s)) == Click(Mode(s), PartialOverlaps)
  {
  }

  lemma FlipBluntLigationIsClick(s: FormState)
    requires Exclusive(s)
    ensures Mode(FlippedBluntLigation(s)) == Click(Mode(s), BluntEnds)
  {
  }

  // ---------------------------------------------------------------------------
  // Sequences of user edits
  // ---------------------------------------------------------------------------

  /** One thing the user can do to the form. */
  datatype Edit =
    | ClickPartialOverlaps
    | ClickBluntLigation
    | ClickCircularOnly
    | TypeHomology(text: string)
    | SelectEnzymes(names: seq<string>)

  function Step(s: FormState, e: Edit): FormState
  {
    match e
    case ClickPartialOverlaps => FlippedPartialOverlaps(s)
    case ClickBluntLigation => FlippedBluntLigation(s)
    case ClickCircularOnly => ToggledCircularOnly(s)
    case TypeHomology(text) => WithHomology(s, text)
    case SelectEnzymes(names) => WithEnzymes(s, names)
  }

  function Replay(s: FormState, edits: seq<Edit>): FormState
    decreases |edits|
  {
    if edits == [] then s else Replay(Step(s, edits[0]), edits[1..])
  }

  lemma StepKeepsExclusive(s: FormState, e: Edit)
    requires Exclusive(s)
    ensures Exclusive(Step(s, e))
  {
  }

  lemma {:induction false} ReplayKeepsExclusive(s: FormState, edits: seq<Edit>)
    requires Exclusive(s)
    ensures Exclusive(Replay(s, edits))
    decreases |edits|
  {
    if edits != [] {
      StepKeepsExclusive(s, edits[0]);
      ReplayKeepsExclusive(Step(s, edits[0]), edits[1..]);
    }
  }

  /** Every state the form can reach from its initial state keeps the invariant. */
  lemma {:induction false} ReachableStatesExclusive(edits: seq<Edit>)
    ensures Exclusive(Replay(InitialState(), edits))
  {
    ReplayKeepsExclusive(InitialState(), edits);
  }

  predicate IsOverlapClick(e: Edit)
  {
    e.ClickPartialOverlaps? || e.ClickBluntLigation?
  }

  /** The clicks on the two overlap checkboxes in an edit sequence, in order.
      Only these change the overlap flags; so the flags of a replay equal those
      of the replay of its clicks alone. */
  function OverlapClicks(edits: seq<Edit>): (clicks: seq<Edit>)
    ensures |clicks| <= |edits|
    ensures forall e :: e in clicks <==> e in edits && IsOverlapClick(e)
  {
    if edits == [] then []
    else if IsOverlapClick(edits[0]) then [edits[0]] + OverlapClicks(edits[1..])
    else OverlapClicks(edits[1..])
  }

  /** Extracting the clicks keeps their order: it distributes over concatenation. */
  lemma {:induction false} OverlapClicksAppend(a: seq<Edit>, b: seq<Edit>)
    ensures OverlapClicks(a + b) == OverlapClicks(a) + OverlapClicks(b)
    decreases |a|
  {
    if a != [] {
      assert (a + b)[0] == a[0];
      assert (a + b)[1..] == a[1..] + b;
      OverlapClicksAppend(a[1..], b);
    } else {
      assert a + b == b;
    }
  }

  predicate SameOverlapFlags(s: FormState, t: FormState)
  {
    s.allowPartialOverlaps == t.allowPartialOverlaps && s.bluntLigation == t.bluntLigation
  }

  lemma {:induction false} OverlapFlagsDependOnlyOnClicks(s: FormState, t: FormState, edits: seq<Edit>)
    requires SameOverlapFlags(s, t)
    ensures SameOverlapFlags(Replay(s, edits), Replay(t, OverlapClicks(edits)))
    decreases |edits|
  {
    if edits != [] {
      var e := edits[0];
      if IsOverlapClick(e) {
        assert OverlapClicks(edits) == [e] + OverlapClicks(edits[1..]);
        assert ([e] + OverlapClicks(edits[1..]))[1..] == OverlapClicks(edits[1..]);
        OverlapFlagsDependOnlyOnClicks(Step(s, e), Step(t, e), edits[1..]);
      } else {
        OverlapFlagsDependOnlyOnClicks(Step(s, e), t, edits[1..]);
      }
    }
  }

  // ---------------------------------------------------------------------------
  // Which controls the form shows
  // ---------------------------------------------------------------------------

  predicate ShowsMinimalHomology(tag: string)
    ensures ShowsMinimalHomology(tag) <==> Classify(tag) == Gibson
  {
    tag == GibsonTag
  }

  predicate ShowsEnzymeSelector(tag: string)
    ensures ShowsEnzymeSelector(tag) <==> Classify(tag) == RestrictionAndLigation
  {
    tag == RestrictionTag
  }

  predicate ShowsCircularOnly(tag: string)
    ensures ShowsCircularOnly(tag) <==> !Classify(tag).Other?
  {
    tag in KnownTags
  }

  predicate ShowsPartialOverlaps(tag: string)
    ensures ShowsPartialOverlaps(tag) <==> Classify(tag) == RestrictionAndLigation || Classify(tag) == Ligation
  {
    tag in [RestrictionTag, LigationTag]
  }

  predicate ShowsBluntLigation(tag: string)
    ensures ShowsBluntLigation(tag) <==> Classify(tag) == Ligation
  {
    tag == LigationTag
  }

  /** Submission is blocked for restriction-and-ligation with no enzyme chosen. */
  predicate PreventSubmit(tag: string, enzymes: seq<string>)
    ensures PreventSubmit(tag, enzymes) <==> Classify(tag) == RestrictionAndLigation && enzymes == []
  {
    tag == RestrictionTag && |enzymes| == 0
  }

  /** The submit control is shown for every other tag, and for
      restriction-and-ligation once an enzyme is chosen. */
  predicate ShowsSubmit(tag: string, enzymes: seq<string>)
    ensures ShowsSubmit(tag, enzymes) <==> Classify(tag) != RestrictionAndLigation || |enzymes| > 0
  {
    !PreventSubmit(tag, enzymes)
  }

  datatype Controls = Controls(
    minimalHomology: bool,
    enzymeSelector: bool,
    circularOnly: bool,
    partialOverlaps: bool,
    bluntLigation: bool)

  /** The controls the component shows for a tag. */
  function ShownControls(tag: string): Controls
  {
    Controls(ShowsMinimalHomology(tag), ShowsEnzymeSelector(tag), ShowsCircularOnly(tag),
             ShowsPartialOverlaps(tag), ShowsBluntLigation(tag))
  }

  /** The visibility table, one row per kind of assembly type. */
  function ControlTable(t: AssemblyType): Controls
  {
    match t
    case Gibson                 => Controls(true,  false, true,  false, false)
    case RestrictionAndLigation => Controls(false, true,  true,  true,  false)
    case Ligation               => Controls(false, false, true,  true,  true)
    case Other(_)               => Controls(false, false, false, false, false)
  }

  lemma ShownControlsFollowTable(tag: string)
    ensures ShownControls(tag) == ControlTable(Classify(tag))
  {
  }

  /** The checkboxes nest: blunt ligation is only shown with partial overlaps,
      and partial overlaps only with circular-only, which is shown exactly for
      the known tags. */
  lemma CheckboxesNest(tag: string)
    ensures ShowsBluntLigation(tag) ==> ShowsPartialOverlaps(tag)
    ensures ShowsPartialOverlaps(tag) ==> ShowsCircularOnly(tag)
    ensures ShowsCircularOnly(tag) <==> !Classify(tag).Other?
  {
  }

  // ---------------------------------------------------------------------------
  // The request built on submit
  // ---------------------------------------------------------------------------

  datatype ParamValue = Flag(on: bool) | Length(homology: Homology)

  const MinimalHomologyKey: string := "minimal_homology"
  const CircularOnlyKey: string := "circular_only"
  const AllowPartialOverlapsKey: string := "allow_partial_overlaps"
  const BluntKey: string := "blunt"

  /** `source` of the request body; `restrictionEnzymes` is present only when
      the handler adds it. */
  datatype SourceData = SourceData(input: seq<int>, restrictionEnzymes: Option<seq<string>>)

  datatype RequestData = RequestData(source: SourceData, sequences: seq<Entity>)

  /** One call of the backend's post operation: endpoint, body and query parameters. */
  datatype Request = Request(endpoint: string, data: RequestData, params: map<string, ParamValue>)

  /** The body every request starts from. */
  function BaseData(inputs: seq<Entity>): RequestData
  {
    RequestData(SourceData(Ids(inputs), None), inputs)
  }

  /** The request the submit handler sends for a tag, inputs and form state, or
      `None` when it returns without sending. */
  function BuildRequest(tag: string, inputs: seq<Entity>, s: FormState): (r: Option<Request>)
    ensures r.Some? <==> !PreventSubmit(tag, s.enzymes)
    ensures r.Some? ==> r.value.endpoint == tag
    ensures r.Some? ==> r.value.data.sequences == inputs
    ensures r.Some? ==> r.value.data.source.input == Ids(inputs)
    ensures r.Some? ==> (r.value.data.source.restrictionEnzymes.Some? <==> tag == RestrictionTag)
  {
    var requestData := BaseData(inputs);
    if tag == GibsonTag then
      Some(Request(GibsonTag, requestData,
                   map[MinimalHomologyKey := Length(s.minimalHomology),
                       CircularOnlyKey := Flag(s.circularOnly)]))
    else if tag == RestrictionTag then
      if |s.enzymes| == 0 then None
      else
        var withEnzymes := requestData.(source := requestData.source.(restrictionEnzymes := Some(s.enzymes)));
        Some(Request(RestrictionTag, withEnzymes,
                     map[AllowPartialOverlapsKey := Flag(s.allowPartialOverlaps),
                         CircularOnlyKey := Flag(s.circularOnly)]))
    else
      Some(Request(tag, requestData,
                   map[AllowPartialOverlapsKey := Flag(s.allowPartialOverlaps),
                       CircularOnlyKey := Flag(s.circularOnly),
                       BluntKey := Flag(s.bluntLigation)]))
  }

  /** Every parameter the form can send, with its current value. */
  function AllParams(s: FormState): map<string, ParamValue>
  {
    map[MinimalHomologyKey := Length(s.minimalHomology),
        CircularOnlyKey := Flag(s.circularOnly),
        AllowPartialOverlapsKey := Flag(s.allowPartialOverlaps),
        BluntKey := Flag(s.bluntLigation)]
  }

  /** The parameter names sent for each kind of assembly type. */
  function ParamKeys(t: AssemblyType): set<string>
  {
    match t
    case Gibson => {MinimalHomologyKey, CircularOnlyKey}
    case RestrictionAndLigation => {AllowPartialOverlapsKey, CircularOnlyKey}
    case _ => {AllowPartialOverlapsKey, CircularOnlyKey, BluntKey}
  }

  /** The request's parameters are exactly the form's values for the kind's
      parameter names. */
  lemma {:induction false} ParamsFollowKind(tag: string, inputs: seq<Entity>, s: FormState)
    requires !PreventSubmit(tag, s.enzymes)
    ensures var r := BuildRequest(tag, inputs, s).value;
      && r.params.Keys == ParamKeys(Classify(tag))
      && forall k :: k in r.params ==> k in AllParams(s) && r.params[k] == AllParams(s)[k]
  {
  }

  /** Entity ids and entities line up one to one in every request. */
  lemma {:induction false} InputsLineUp(tag: string, inputs: seq<Entity>, s: FormState)
    requires !PreventSubmit(tag, s.enzymes)
    ensures var d := BuildRequest(tag, inputs, s).value.data;
      && |d.source.input| == |d.sequences| == |inputs|
      && forall i :: 0 <= i < |inputs| ==> d.source.input[i] == d.sequences[i].id
  {
  }

  lemma GibsonRequest(inputs: seq<Entity>, s: FormState)
    ensures var r := BuildRequest(GibsonTag, inputs, s);
      && r.Some?
      && r.value.endpoint == GibsonTag
      && r.value.data == BaseData(inputs)
      && r.value.params.Keys == {MinimalHomologyKey, CircularOnlyKey}
      && r.value.params[MinimalHomologyKey] == Length(s.minimalHomology)
      && r.value.params[CircularOnlyKey] == Flag(s.circularOnly)
  {
  }

  lemma RestrictionRequest(inputs: seq<Entity>, s: FormState)
    ensures var r := BuildRequest(RestrictionTag, inputs, s);
      && (r.None? <==> s.enzymes == [])
      && (r.Some? ==>
            && r.value.endpoint == RestrictionTag
            && r.value.data.source == SourceData(Ids(inputs), Some(s.enzymes))
            && r.value.data.sequences == inputs
            && r.value.params.Keys == {AllowPartialOverlapsKey, CircularOnlyKey}
            && r.value.params[AllowPartialOverlapsKey] == Flag(s.allowPartialOverlaps)
            && r.value.params[CircularOnlyKey] == Flag(s.circularOnly))
  {
  }

  /** Ligation and every unknown tag: a ligation-shaped request to the tag itself. */
  lemma LigationShapedRequest(tag: string, inputs: seq<Entity>, s: FormState)
    requires Classify(tag) == Ligation || Classify(tag).Other?
    ensures var r := BuildRequest(tag, inputs, s);
      && r.Some?
      && r.value.endpoint == tag
      && r.value.data == BaseData(inputs)
      && r.value.params.Keys == {AllowPartialOverlapsKey, CircularOnlyKey, BluntKey}
      && r.value.params[AllowPartialOverlapsKey] == Flag(s.allowPartialOverlaps)
      && r.value.params[CircularOnlyKey] == Flag(s.circularOnly)
      && r.value.params[BluntKey] == Flag(s.bluntLigation)
  {
  }

  /** A request is built exactly when the submit control is shown. */
  lemma RequestIffSubmitShown(tag: string, inputs: seq<Entity>, s: FormState)
    ensures BuildRequest(tag, inputs, s).Some? <==> ShowsSubmit(tag, s.enzymes)
  {
  }

  /** On a reachable state a ligation request never asks for partial overlaps
      and blunt ends together. */
  lemma {:induction false} LigationParamsExclusive(tag: string, inputs: seq<Entity>, edits: seq<Edit>)
    requires Classify(tag) == Ligation || Classify(tag).Other?
    ensures var p := BuildRequest(tag, inputs, Replay(InitialState(), edits)).value.params;
      !(p[AllowPartialOverlapsKey] == Flag(true) && p[BluntKey] == Flag(true))
  {
    ReachableStatesExclusive(edits);
  }

  // ---------------------------------------------------------------------------
  // The form component
  // ---------------------------------------------------------------------------

  /** The component's local state and its event handlers. */
  class AssemblyForm {
    var minimalHomology: Homology
    var allowPartialOverlaps: bool
    var circularOnly: bool
    var bluntLigation: bool
    var enzymes: seq<string>

    function State(): FormState
      reads this
    {
      FormState(minimalHomology, allowPartialOverlaps, circularOnly, bluntLigation, enzymes)
    }

    predicate Valid()
      reads this
    {
      Exclusive(State())
    }

    constructor ()
      ensures Valid()
      ensures State() == InitialState()
    {
      minimalHomology := Number(20);
      allowPartialOverlaps := false;
      circularOnly := false;
      bluntLigation := false;
      enzymes := [];
    }

    method FlipAllowPartialOverlaps()
      modifies this
      ensures Valid()
      ensures State() == FlippedPartialOverlaps(old(State()))
    {
      var wasOn := allowPartialOverlaps;
      allowPartialOverlaps := !wasOn;
      if !wasOn {
        bluntLigation := false;
      }
    }

    method FlipBluntLigation()
      modifies this
      ensures Valid()
      ensures State() == FlippedBluntLigation(old(State()))
    {
      var wasOn := bluntLigation;
      bluntLigation := !wasOn;
      if !wasOn {
        allowPartialOverlaps := false;
      }
    }

    method ToggleCircularOnly()
      requires Valid()
      modifies this
      ensures Valid()
      ensures State() == ToggledCircularOnly(old(State()))
    {
      circularOnly := !circularOnly;
    }

    method SetMinimalHomology(text: string)
      requires Valid()
      modifies this
      ensures Valid()
      ensures State() == WithHomology(old(State()), text)
    {
      minimalHomology := Text(text);
    }

    method SetEnzymes(names: seq<string>)
      requires Valid()
      modifies this
      ensures Valid()
      ensures State() == WithEnzymes(old(State()), names)
    {
      enzymes := names;
    }

    /** The submit handler: builds the body, adds the enzymes in place for
        restriction-and-ligation, and returns the request it would send. */
    method Submit(tag: string, inputs: seq<Entity>) returns (sent: Option<Request>)
      ensures sent == BuildRequest(tag, inputs, State())
    {
      var requestData := RequestData(SourceData(Ids(inputs), None), inputs);
      if tag == GibsonTag {
        var params := map[MinimalHomologyKey := Length(minimalHomology),
                          CircularOnlyKey := Flag(circularOnly)];
        sent := Some(Request(GibsonTag, requestData, params));
      } else if tag == RestrictionTag {
        if |enzymes| == 0 {
          return None;
        }
        requestData := requestData.(source := requestData.source.(restrictionEnzymes := Some(enzymes)));
        var params := map[AllowPartialOverlapsKey := Flag(allowPartialOverlaps),
                          CircularOnlyKey := Flag(circularOnly)];
        sent := Some(Request(RestrictionTag, requestData, params));
      } else {
        var params := map[AllowPartialOverlapsKey := Flag(allowPartialOverlaps),
                          CircularOnlyKey := Flag(circularOnly),
                          BluntKey := Flag(bluntLigation)];
        sent := Some(Request(tag, requestData, params));
      }
    }
  }

  /** One session of the form: blunt ligation on, then partial overlaps on,
      which clears blunt ligation before the ligation request is built; with no
      enzyme chosen, restriction-and-ligation sends nothing. */
  method LigationSession(inputs: seq<Entity>)
  {
    var form := new AssemblyForm();
    form.FlipBluntLigation();
    form.FlipAllowPartialOverlaps();
    var sent := form.Submit(LigationTag, inputs);
    assert sent.Some? && sent.value.params[BluntKey] == Flag(false);
    assert sent.value.params[AllowPartialOverlapsKey] == Flag(true);
    form.SetEnzymes([]);
    sent := form.Submit(RestrictionTag, inputs);
    assert sent.None?;
  }
}
