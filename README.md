# Assembly configurator form logic

A model of the form logic in the assembly configurator component of a cloning-design web application. The component lets the user set up a ligation, a Gibson assembly or a restriction-and-ligation of several DNA fragments and sends the chosen settings to a backend. The model covers four things:

- The local form state: minimal homology length, allow-partial-overlaps, circular-only, blunt-ligation and the enzyme list. The class `AssemblyForm` holds these fields and has one method per event handler. Each handler is specified by a function on the value `FormState`.
- The invariant that allow-partial-overlaps and blunt-ligation are never both on. Both flip handlers establish it from any state, and every sequence of user edits keeps it.
- The request the submit handler sends. Sending is modelled as returning the request: `Some(Request(endpoint, body, params))`, or `None` when the handler returns early.
- Which controls the form shows for each assembly type, and when the submit control is shown.

The component gets the assembly type as a string and compares it with string literals. The model does the same. `AssemblyType` (`Gibson | RestrictionAndLigation | Ligation | Other(name)`) classifies a tag. `Other` matters because an unknown tag shows no checkboxes but still gets a ligation-shaped request, sent to the tag itself.

Everything is in `SourceAssembly.dfy`, module `SourceAssembly`.

## Model

| member | source | states |
|---|---|---|
| SourceAssembly.Classify | src/components/sources/SourceAssembly.jsx:45-59 | Every tag is classified canonically (an `Other` never carries a known tag), the tag can be recovered from its class, and the class is `Other` exactly for tags outside the three known ones |
| SourceAssembly.TagOfThenClassify | src/components/sources/SourceAssembly.jsx:45-66 | Classifying the tag of a canonical assembly type gives that type back |
| SourceAssembly.Ids | src/components/sources/SourceAssembly.jsx:42 | The id list has one entry per input entity, and entry i is the id of entity i |
| SourceAssembly.InitialState | src/components/sources/SourceAssembly.jsx:17-21 | The initial form state (homology 20, three flags off, no enzymes) keeps partial overlaps and blunt ligation exclusive |
| SourceAssembly.FlippedPartialOverlaps | src/components/sources/SourceAssembly.jsx:25-30 | After a click on partial overlaps, partial overlaps and blunt ligation are not both on, whatever the state before |
| SourceAssembly.FlippedBluntLigation | src/components/sources/SourceAssembly.jsx:32-37 | After a click on blunt ligation, the two flags are not both on, whatever the state before |
| SourceAssembly.FlipPartialOverlapsEffect | src/components/sources/SourceAssembly.jsx:25-30 | The click negates partial overlaps. Turning it on clears blunt ligation, turning it off leaves blunt ligation as it was. Homology, circular-only and enzymes are unchanged |
| SourceAssembly.FlipBluntLigationEffect | src/components/sources/SourceAssembly.jsx:32-37 | The click negates blunt ligation. Turning it on clears partial overlaps, turning it off leaves it as it was. Nothing else changes |
| SourceAssembly.ToggledCircularOnly | src/components/sources/SourceAssembly.jsx:96 | The click changes circular-only and no other field |
| SourceAssembly.ToggleCircularOnlyEffect | src/components/sources/SourceAssembly.jsx:96 | Two clicks on circular-only restore the state, and the toggle keeps the exclusivity invariant exactly when it held before |
| SourceAssembly.WithHomology | src/components/sources/SourceAssembly.jsx:85 | The typed text becomes the homology, no other field changes, and the invariant is kept both ways |
| SourceAssembly.WithEnzymes | src/components/sources/SourceAssembly.jsx:92 | The chosen list becomes the enzyme list, no other field changes, and the invariant is kept both ways |
| SourceAssembly.FlipPartialTwice | src/components/sources/SourceAssembly.jsx:25-30 | Two clicks on partial overlaps restore the state if and only if blunt ligation was off |
| SourceAssembly.FlipBluntTwice | src/components/sources/SourceAssembly.jsx:32-37 | Two clicks on blunt ligation restore the state if and only if partial overlaps was off |
| SourceAssembly.ModeDeterminesFlags | src/components/sources/SourceAssembly.jsx:18-20 | On states that keep the invariant, the three-way mode (neither, partial overlaps, blunt ends) determines both flags, and the flags determine the mode |
| SourceAssembly.FlipPartialOverlapsIsClick | src/components/sources/SourceAssembly.jsx:25-30 | On the three-way mode, the partial-overlaps handler selects partial overlaps, or deselects it when it is selected |
| SourceAssembly.FlipBluntLigationIsClick | src/components/sources/SourceAssembly.jsx:32-37 | On the three-way mode, the blunt handler selects blunt ends, or deselects them when they are selected |
| SourceAssembly.StepKeepsExclusive | src/components/sources/SourceAssembly.jsx:25-37 | Every single user edit (either flip, the circular toggle, typing the homology, choosing enzymes) keeps the invariant |
| SourceAssembly.ReplayKeepsExclusive | src/components/sources/SourceAssembly.jsx:25-37 | Any sequence of user edits from a state that keeps the invariant ends in a state that keeps it |
| SourceAssembly.ReachableStatesExclusive | src/components/sources/SourceAssembly.jsx:17-37 | Every state reachable from the initial state keeps the invariant |
| SourceAssembly.OverlapClicks | src/components/sources/SourceAssembly.jsx:101-106 | The result contains exactly the overlap-checkbox clicks that occur in the edit sequence, and is no longer than it |
| SourceAssembly.OverlapClicksAppend | src/components/sources/SourceAssembly.jsx:101-106 | Extracting the clicks distributes over concatenation, so the clicks keep their order |
| SourceAssembly.OverlapFlagsDependOnlyOnClicks | src/components/sources/SourceAssembly.jsx:25-37 | The two overlap flags after any edit sequence are those obtained by replaying only its clicks on the two overlap checkboxes |
| SourceAssembly.ShowsMinimalHomology | src/components/sources/SourceAssembly.jsx:78 | The homology field is shown exactly for the Gibson class |
| SourceAssembly.ShowsEnzymeSelector | src/components/sources/SourceAssembly.jsx:91 | The enzyme selector is shown exactly for the restriction-and-ligation class |
| SourceAssembly.ShowsCircularOnly | src/components/sources/SourceAssembly.jsx:94 | The circular-only checkbox is shown exactly for the three known classes, never for `Other` |
| SourceAssembly.ShowsPartialOverlaps | src/components/sources/SourceAssembly.jsx:99 | The partial-overlaps checkbox is shown exactly for the restriction-and-ligation and ligation classes |
| SourceAssembly.ShowsBluntLigation | src/components/sources/SourceAssembly.jsx:104 | The blunt checkbox is shown exactly for the ligation class |
| SourceAssembly.PreventSubmit | src/components/sources/SourceAssembly.jsx:23 | Submission is prevented exactly for the restriction-and-ligation class with an empty enzyme list |
| SourceAssembly.ShowsSubmit | src/components/sources/SourceAssembly.jsx:109 | The submit control is shown exactly when the class is not restriction-and-ligation or at least one enzyme is chosen |
| SourceAssembly.ShownControlsFollowTable | src/components/sources/SourceAssembly.jsx:78-108 | For every tag, the shown controls are the table row of its class: homology for Gibson only; enzyme selector for restriction-and-ligation only; circular-only for the three known types; partial overlaps for restriction-and-ligation and ligation; blunt for ligation only; nothing for other tags |
| SourceAssembly.CheckboxesNest | src/components/sources/SourceAssembly.jsx:94-108 | Blunt is shown only with partial overlaps, and partial overlaps only with circular-only. Circular-only is shown exactly for the known tags |
| SourceAssembly.BuildRequest | src/components/sources/SourceAssembly.jsx:39-67 | A request is produced exactly when submission is not prevented. It goes to the endpoint equal to the tag. Its sequences are the inputs and its input is their ids. It carries restriction enzymes exactly for restriction-and-ligation |
| SourceAssembly.ParamsFollowKind | src/components/sources/SourceAssembly.jsx:46-64 | The parameter names are exactly those of the tag's class, and each value is the form's current value for that name |
| SourceAssembly.InputsLineUp | src/components/sources/SourceAssembly.jsx:41-44 | In every request, input and sequences have the input's length, and input[i] is the id of sequences[i] |
| SourceAssembly.GibsonRequest | src/components/sources/SourceAssembly.jsx:45-50 | Gibson always yields a request to `gibson_assembly` with the base body and parameters exactly minimal_homology and circular_only, carrying the form's values |
| SourceAssembly.RestrictionRequest | src/components/sources/SourceAssembly.jsx:51-58 | Restriction-and-ligation yields no request if and only if the enzyme list is empty. Otherwise it goes to `restriction_and_ligation` with the enzyme list in the source, and parameters exactly allow_partial_overlaps and circular_only |
| SourceAssembly.LigationShapedRequest | src/components/sources/SourceAssembly.jsx:59-66 | Ligation and every unknown tag yield a request to the tag itself with the base body and parameters exactly allow_partial_overlaps, circular_only and blunt |
| SourceAssembly.RequestIffSubmitShown | src/components/sources/SourceAssembly.jsx:109 | The handler builds a request exactly when the submit control is shown |
| SourceAssembly.LigationParamsExclusive | src/components/sources/SourceAssembly.jsx:60-64 | From any reachable form state, a ligation-shaped request never has allow_partial_overlaps and blunt both true |
| SourceAssembly.AssemblyForm.constructor | src/components/sources/SourceAssembly.jsx:17-21 | The new form is in the initial state and valid |
| SourceAssembly.AssemblyForm.FlipAllowPartialOverlaps | src/components/sources/SourceAssembly.jsx:25-30 | The new state is the flip of the old state, computed from pre-click values only, and is valid |
| SourceAssembly.AssemblyForm.FlipBluntLigation | src/components/sources/SourceAssembly.jsx:32-37 | The new state is the blunt flip of the old state, and is valid |
| SourceAssembly.AssemblyForm.ToggleCircularOnly | src/components/sources/SourceAssembly.jsx:96 | Only circular-only is negated, and validity is kept |
| SourceAssembly.AssemblyForm.SetMinimalHomology | src/components/sources/SourceAssembly.jsx:85 | The homology becomes the typed text, and validity is kept |
| SourceAssembly.AssemblyForm.SetEnzymes | src/components/sources/SourceAssembly.jsx:92 | The enzyme list is replaced, and validity is kept |
| SourceAssembly.AssemblyForm.Submit | src/components/sources/SourceAssembly.jsx:39-67 | Builds the body, adds the enzymes in place for restriction-and-ligation, and returns exactly the request `BuildRequest` specifies for the current state, or none |

## Left out

- Rendering and layout: the form controls, labels, styling and the input/output selector widgets. They have no behaviour to state beyond which controls are shown.
- The store selector that resolves input entities from the source id. The entities are a parameter: a sequence of records of which only `id` is read.
- The network client: `sendPostRequest` is modelled as returning the request, and its request status, sources and entities are not modelled.
- The enzyme selection widget is not part of this model. `SetEnzymes` only replaces the list.
- `event.preventDefault()` and the batching of state updates. Both handlers read the pre-click values, so batching does not change the next state.
- The homology length is not validated by the component. The model stores it as the number 20 or as the typed text, with no bounds.
- The enzyme selection is a list: the code tests its length (lines 23 and 52), so the model uses `seq<string>`.
- Entities carry more fields than an id. `Entity.record` stands for those fields, which pass through to `sequences` untouched.
