/** The wireframe tool's page state: the prompt, the generated layout, the
    selected component and the right-hand panel (properties inspector, style
    suggestions or the raw layout), with the handlers that update them. */
module WireframeTool {
  import opened Common
  import opened Wireframe
  import opened WireframePreview
  import opened StyleSuggestions

  // ---------------------------------------------------------------------------
  // Properties inspector

  /** A value the inspector can show: the JSON strings and numbers of a component. */
  datatype FieldValue = Str(s: string) | Num(n: real)

  /** One `[key, value]` pair of `Object.entries(data)`; an absent key and a
      `null` both read as `None`. */
  datatype Entry = Entry(key: string, value: Option<FieldValue>)

  /** A row of a property group: a key whose value survived the filter. */
  datatype Row = Row(key: string, value: FieldValue)

  /** A titled, non-empty list of rows. */
  datatype Group = Group(title: string, rows: seq<Row>)

  /** What the Properties tab shows. */
  datatype InspectorView =
    | ClickPrompt                                      // no component selected
    | Inspect(typeLabel: string, groups: seq<Group>)   // the type and the non-empty groups

  function StrField(o: Option<string>): Option<FieldValue>
  {
    if o.Some? then Some(Str(o.value)) else None
  }

  function NameField<T>(o: Option<T>, name: T -> string): Option<FieldValue>
  {
    if o.Some? then Some(Str(name(o.value))) else None
  }

  /** The entries of a component's `properties`, in declaration order. */
  function PropertiesEntries(p: Properties): seq<Entry>
  {
    [ Entry("text", StrField(p.text)),
      Entry("placeholder", StrField(p.placeholder)),
      Entry("variant", NameField(p.variant, VariantName)),
      Entry("size", NameField(p.size, SizeName)),
      Entry("color", NameField(p.color, ColorNameText)),
      Entry("backgroundColor", StrField(p.backgroundColor)),
      Entry("alignment", NameField(p.alignment, AlignmentName)),
      Entry("fontWeight", NameField(p.fontWeight, FontWeightName)),
      Entry("fontSize", NameField(p.fontSize, SizeName)) ]
  }

  function PositionEntries(pos: Position): seq<Entry>
  {
    [ Entry("top", Some(Num(pos.top))),
      Entry("left", Some(Num(pos.left))),
      Entry("width", Some(Num(pos.width))),
      Entry("height", Some(Num(pos.height))) ]
  }

  function StyleEntries(st: Style): seq<Entry>
  {
    [ Entry("borderRadius", StrField(st.borderRadius)),
      Entry("boxShadow", StrField(st.boxShadow)),
      Entry("opacity", if st.opacity.Some? then Some(Num(st.opacity.value)) else None) ]
  }

  /** The filter of `PropertyGroup`: neither `undefined`, `null` nor `''`. */
  predicate Shown(e: Entry)
  {
    e.value.Some? && e.value.value != Str("")
  }

  /** The entries that pass the filter, in their original order. */
  function Rows(es: seq<Entry>): (r: seq<Row>)
    ensures |r| <= |es|
  {
    if es == [] then []
    else (if Shown(es[0]) then [Row(es[0].key, es[0].value.value)] else []) + Rows(es[1..])
  }

  /** A row is shown exactly for an entry whose value passes the filter. */
  lemma {:induction false} RowsMembership(es: seq<Entry>, k: string, v: FieldValue)
    ensures Row(k, v) in Rows(es) <==> Entry(k, Some(v)) in es && v != Str("")
  {
    if es != [] {
      RowsMembership(es[1..], k, v);
      assert es == [es[0]] + es[1..];
    }
  }

  /** The filter works entry by entry, so it keeps the order of the entries. */
  lemma {:induction false} RowsAppend(a: seq<Entry>, b: seq<Entry>)
    ensures Rows(a + b) == Rows(a) + Rows(b)
  {
    if a == [] {
      assert a + b == b;
    } else {
      var ab := a + b;
      assert ab != [] && ab[0] == a[0];
      assert ab[1..] == a[1..] + b;
      var head := if Shown(a[0]) then [Row(a[0].key, a[0].value.value)] else [];
      assert Rows(ab) == head + Rows(ab[1..]);
      assert Rows(a) == head + Rows(a[1..]);
      RowsAppend(a[1..], b);
      assert head + (Rows(a[1..]) + Rows(b)) == (head + Rows(a[1..])) + Rows(b);
    }
  }

  /** Nothing is shown exactly when no entry passes the filter. */
  lemma {:induction false} RowsEmpty(es: seq<Entry>)
    ensures Rows(es) == [] <==> forall i :: 0 <= i < |es| ==> !Shown(es[i])
  {
    if es != [] {
      RowsEmpty(es[1..]);
      assert forall i :: 1 <= i < |es| ==> es[i] == es[1..][i - 1];
    }
  }

  /** `PropertyGroup`: nothing for absent data or when every entry is filtered out. */
  function GroupOf(title: string, data: Option<seq<Entry>>): (g: Option<Group>)
    ensures g.Some? ==> g.value.title == title && g.value.rows != []
    ensures g.Some? ==> data.Some? && g.value.rows == Rows(data.value)
    ensures g.None? <==> data.None? || forall i :: 0 <= i < |data.value| ==> !Shown(data.value[i])
  {
    if data.None? then None
    else
      RowsEmpty(data.value);
      var rows := Rows(data.value);
      if rows == [] then None else Some(Group(title, rows))
  }

  /** A group that is present as a one-element list, an absent one as none. */
  function AsList(g: Option<Group>): seq<Group>
  {
    if g.Some? then [g.value] else []
  }

  /** The groups that are present, in order. */
  function Present(gs: seq<Option<Group>>): (r: seq<Group>)
    ensures |r| <= |gs|
  {
    if gs == [] then []
    else (if gs[0].Some? then [gs[0].value] else []) + Present(gs[1..])
  }

  /** Three optional groups keep their order. */
  lemma PresentThree(a: Option<Group>, b: Option<Group>, c: Option<Group>)
    ensures Present([a, b, c]) == AsList(a) + AsList(b) + AsList(c)
  {
    var gs, tail, last := [a, b, c], [b, c], [c];
    assert gs[1..] == tail && tail[1..] == last && last[1..] == [];
    assert Present(last) == AsList(c);
  }

  lemma {:induction false} PresentMembership(gs: seq<Option<Group>>, g: Group)
    ensures g in Present(gs) <==> Some(g) in gs
  {
    if gs != [] {
      PresentMembership(gs[1..], g);
      assert gs == [gs[0]] + gs[1..];
    }
  }

  function PropertiesGroup(c: Component): Option<Group>
  {
    GroupOf("Properties", Some(PropertiesEntries(c.properties)))
  }

  function PositionGroup(c: Component): Option<Group>
  {
    GroupOf("Position", if c.position.Some? then Some(PositionEntries(c.position.value)) else None)
  }

  function StyleGroup(c: Component): Option<Group>
  {
    GroupOf("Style", if c.style.Some? then Some(StyleEntries(c.style.value)) else None)
  }

  /** `PropertiesInspector`: the prompt to click an element, or the component's
      type with underscores shown as spaces and its three property groups,
      each left out when it has nothing to show. */
  function PropertiesInspector(c: Option<Component>): (v: InspectorView)
    ensures v == ClickPrompt <==> c.None?
    ensures v.Inspect? ==> v.typeLabel == UnderscoresToSpaces(c.value.componentType)
    ensures v.Inspect? ==> |v.groups| <= 3 && forall i :: 0 <= i < |v.groups| ==> v.groups[i].rows != []
  {
    if c.None? then ClickPrompt
    else
      var gs := [PropertiesGroup(c.value), PositionGroup(c.value), StyleGroup(c.value)];
      var groups := Present(gs);
      forall i | 0 <= i < |groups| ensures groups[i].rows != [] {
        PresentMembership(gs, groups[i]);
      }
      Inspect(UnderscoresToSpaces(c.value.componentType), groups)
  }

  /** The properties group is shown exactly when some property is set; the
      enumerated properties are never the empty string. */
  lemma PropertiesGroupShown(c: Component)
    ensures PropertiesGroup(c).Some? <==>
      Truthy(c.properties.text) || Truthy(c.properties.placeholder) || Truthy(c.properties.backgroundColor)
      || c.properties.variant.Some? || c.properties.size.Some? || c.properties.color.Some?
      || c.properties.alignment.Some? || c.properties.fontWeight.Some? || c.properties.fontSize.Some?
  {
    var es := PropertiesEntries(c.properties);
    assert Shown(es[0]) <==> Truthy(c.properties.text);
    assert Shown(es[1]) <==> Truthy(c.properties.placeholder);
    assert Shown(es[2]) <==> c.properties.variant.Some?;
    assert Shown(es[3]) <==> c.properties.size.Some?;
    assert Shown(es[4]) <==> c.properties.color.Some?;
    assert Shown(es[5]) <==> Truthy(c.properties.backgroundColor);
    assert Shown(es[6]) <==> c.properties.alignment.Some?;
    assert Shown(es[7]) <==> c.properties.fontWeight.Some?;
    assert Shown(es[8]) <==> c.properties.fontSize.Some?;
    if PropertiesGroup(c).Some? {
      var i :| 0 <= i < |es| && Shown(es[i]);
      assert i in {0, 1, 2, 3, 4, 5, 6, 7, 8};
    }
  }

  /** A position box is shown whenever the component has one, with all four
      coordinates in order: numbers are never filtered out. */
  lemma PositionGroupShown(c: Component)
    ensures PositionGroup(c).Some? <==> c.position.Some?
    ensures c.position.Some? ==> var p := c.position.value;
      PositionGroup(c).value.rows == [Row("top", Num(p.top)), Row("left", Num(p.left)), Row("width", Num(p.width)), Row("height", Num(p.height))]
  {
    if c.position.Some? {
      var p := c.position.value;
      var es := PositionEntries(p);
      assert es == [es[0]] + ([es[1]] + ([es[2]] + ([es[3]] + [])));
      calc {
        Rows(es);
        { RowsAppend([es[0]], [es[1]] + ([es[2]] + ([es[3]] + []))); }
        Rows([es[0]]) + Rows([es[1]] + ([es[2]] + ([es[3]] + [])));
        { RowsAppend([es[1]], [es[2]] + ([es[3]] + []));
          RowsAppend([es[2]], [es[3]] + []); }
        Rows([es[0]]) + Rows([es[1]]) + Rows([es[2]]) + Rows([es[3]] + []);
      }
      assert Shown(es[0]);
    }
  }

  /** The style group is shown exactly when a style with a non-empty radius or
      shadow, or an opacity, is present. */
  lemma StyleGroupShown(c: Component)
    ensures StyleGroup(c).Some? <==>
      c.style.Some? && (Truthy(c.style.value.borderRadius) || Truthy(c.style.value.boxShadow) || c.style.value.opacity.Some?)
  {
    if c.style.Some? {
      var es := StyleEntries(c.style.value);
      assert Shown(es[0]) <==> Truthy(c.style.value.borderRadius);
      assert Shown(es[1]) <==> Truthy(c.style.value.boxShadow);
      assert Shown(es[2]) <==> c.style.value.opacity.Some?;
      if StyleGroup(c).Some? {
        var i :| 0 <= i < |es| && Shown(es[i]);
        assert i in {0, 1, 2};
      }
    }
  }

  /** The inspected groups are those of the three that are present, in the
      order Properties, Position, Style. */
  lemma InspectorGroups(c: Component)
    ensures var v := PropertiesInspector(Some(c));
      forall g :: g in v.groups <==> Some(g) in [PropertiesGroup(c), PositionGroup(c), StyleGroup(c)]
    ensures PropertiesInspector(Some(c)).groups ==
      AsList(PropertiesGroup(c)) + AsList(PositionGroup(c)) + AsList(StyleGroup(c))
  {
    var gs := [PropertiesGroup(c), PositionGroup(c), StyleGroup(c)];
    forall g ensures g in Present(gs) <==> Some(g) in gs {
      PresentMembership(gs, g);
    }
    PresentThree(PropertiesGroup(c), PositionGroup(c), StyleGroup(c));
  }

  // ---------------------------------------------------------------------------
  // Selection

  /** `selectedComponent`: the component at the selected index of the current
      layout; an index past the end reads `undefined` and shows as no selection. */
  function SelectedComponent(selected: Option<nat>, result: Option<WireframeData>): (r: Option<Component>)
    ensures r.Some? <==> selected.Some? && result.Some? && selected.value < |result.value.components|
    ensures r.Some? ==> r.value == result.value.components[selected.value]
  {
    if selected.Some? && result.Some? && selected.value < |result.value.components| then
      Some(result.value.components[selected.value])
    else None
  }

  // ---------------------------------------------------------------------------
  // Page state

  datatype Tab = PropertiesTab | SuggestionsTab | JsonTab

  /** The request `handleSubmit` sends; the system instruction and the response
      schema are fixed texts. */
  datatype GenerateRequest = GenerateRequest(model: string, contents: string, responseMimeType: string)

  /** How the remote call and the `JSON.parse` of its text end. */
  datatype Outcome = Generated(data: WireframeData) | Failed(err: Thrown)

  /** What the right-hand panel shows. */
  datatype RightView = InspectorPanel(inspector: InspectorView) | SuggestionsView(panel: Panel) | JsonView(data: WireframeData)

  const PromptRequired := "Please enter a prompt to generate a wireframe."
  const GenerationFailed := "An unknown error occurred while generating the wireframe."
  const WireframeModel := "gemini-2.5-pro"
  const JsonMime := "application/json"

  /** The error text for a failed generation. */
  function FailureText(err: Thrown): (r: string)
    ensures err.ErrorObject? ==> r == "Error: " + err.message
    ensures err.OtherValue? ==> r == GenerationFailed
  {
    if err.ErrorObject? then "Error: " + err.message else GenerationFailed
  }

  class WireframeState {
    var prompt: string
    var loading: bool
    var result: Option<WireframeData>
    var error: string
    var selected: Option<nat>
    var tab: Tab
    var renderStyle: RenderStyle

    /** A selection always names a component of the shown layout, and while a
        request is in flight there is neither a layout nor a selection. */
    predicate Valid()
      reads this
    {
      (selected.Some? ==> result.Some? && selected.value < |result.value.components|)
      && (loading ==> result.None? && selected.None?)
    }

    constructor()
      ensures Valid()
      ensures prompt == "" && !loading && result.None? && error == ""
      ensures selected.None? && tab == PropertiesTab && renderStyle == Clean
    {
      prompt := "";
      loading := false;
      result := None;
      error := "";
      selected := None;
      tab := PropertiesTab;
      renderStyle := Clean;
    }

    method SetPrompt(p: string)
      requires Valid()
      modifies this
      ensures Valid()
      ensures prompt == p
      ensures loading == old(loading) && result == old(result) && error == old(error)
      ensures selected == old(selected) && tab == old(tab) && renderStyle == old(renderStyle)
    {
      prompt := p;
    }

    /** The part of `handleSubmit` before the `await`: the empty-prompt guard,
        then the resets and the request. */
    method BeginSubmit() returns (request: Option<GenerateRequest>)
      requires Valid()
      modifies this
      ensures Valid()
      ensures prompt == old(prompt) && renderStyle == old(renderStyle)
      // an empty prompt only reports the error
      ensures old(prompt) == "" ==>
        request.None? && error == PromptRequired
        && loading == old(loading) && result == old(result) && selected == old(selected) && tab == old(tab)
      // otherwise everything from the last run is cleared before the request goes out
      ensures old(prompt) != "" ==>
        request == Some(GenerateRequest(WireframeModel, old(prompt), JsonMime))
        && error == "" && result.None? && loading && selected.None? && tab == PropertiesTab
    {
      if prompt == "" {
        error := PromptRequired;
        return None;
      }
      error := "";
      result := None;
      loading := true;
      selected := None;
      tab := PropertiesTab;
      request := Some(GenerateRequest(WireframeModel, prompt, JsonMime));
    }

    /** The part of `handleSubmit` after the `await`: store the layout or the
        error text, then stop loading. */
    method FinishSubmit(outcome: Outcome)
      requires Valid() && loading
      modifies this
      ensures Valid()
      ensures !loading && selected.None?
      ensures prompt == old(prompt) && tab == old(tab) && renderStyle == old(renderStyle)
      ensures outcome.Generated? ==> result == Some(outcome.data) && error == old(error)
      ensures outcome.Failed? ==> result.None? && error == FailureText(outcome.err)
    {
      match outcome {
        case Generated(data) =>
          result := Some(data);
        case Failed(err) =>
          error := FailureText(err);
      }
      loading := false;
    }

    /** `handleSubmit` with the remote outcome given. */
    method HandleSubmit(outcome: Outcome) returns (request: Option<GenerateRequest>)
      requires Valid()
      modifies this
      ensures Valid()
      ensures prompt == old(prompt) && renderStyle == old(renderStyle)
      ensures old(prompt) == "" ==>
        request.None? && error == PromptRequired
        && loading == old(loading) && result == old(result) && selected == old(selected) && tab == old(tab)
      ensures old(prompt) != "" ==>
        request == Some(GenerateRequest(WireframeModel, old(prompt), JsonMime))
        && !loading && selected.None? && tab == PropertiesTab
        && (outcome.Generated? ==> result == Some(outcome.data) && error == "")
        && (outcome.Failed? ==> result.None? && error == FailureText(outcome.err))
      // after a submit the inspector asks for a click again
      ensures old(prompt) != "" ==> PropertiesInspector(SelectedComponent(selected, result)) == ClickPrompt
    {
      request := BeginSubmit();
      if request.Some? {
        FinishSubmit(outcome);
      }
    }

    /** A click in the preview: the argument of the last `onSelect` call
        becomes the selection. */
    method Click(target: ClickTarget)
      requires Valid() && result.Some?
      requires target.OnComponent? ==> target.index < |result.value.components|
      modifies this
      ensures Valid()
      ensures selected == SelectionAfterClick(Compose(old(result).value, old(renderStyle), old(selected)), target)
      ensures target.OnComponent? && KindOf(old(result).value.components[target.index].componentType).Some? ==>
        selected == Some(target.index)
      ensures target.OnComponent? && KindOf(old(result).value.components[target.index].componentType).None? ==>
        selected.None?
      ensures target.OnBackground? ==> selected.None?
      ensures prompt == old(prompt) && loading == old(loading) && result == old(result)
      ensures error == old(error) && tab == old(tab) && renderStyle == old(renderStyle)
    {
      ClickOutcome(result.value, renderStyle, selected, target);
      selected := SelectionAfterClick(Compose(result.value, renderStyle, selected), target);
    }

    method SelectTab(t: Tab)
      requires Valid()
      modifies this
      ensures Valid()
      ensures tab == t
      ensures prompt == old(prompt) && loading == old(loading) && result == old(result)
      ensures error == old(error) && selected == old(selected) && renderStyle == old(renderStyle)
    {
      tab := t;
    }

    /** Switching the render style keeps the selection. */
    method SetRenderStyle(rs: RenderStyle)
      requires Valid()
      modifies this
      ensures Valid()
      ensures renderStyle == rs
      ensures prompt == old(prompt) && loading == old(loading) && result == old(result)
      ensures error == old(error) && selected == old(selected) && tab == old(tab)
    {
      renderStyle := rs;
    }

    /** The right-hand panel of a shown layout, by tab. */
    method RightPanel() returns (v: RightView)
      requires Valid() && result.Some?
      ensures tab == PropertiesTab ==> v == InspectorPanel(PropertiesInspector(SelectedComponent(selected, result)))
      ensures tab == SuggestionsTab ==> v.SuggestionsView? && (v.panel == SelectPrompt <==> selected.None?)
      ensures tab == SuggestionsTab && selected.Some? ==>
        var t := result.value.components[selected.value].componentType;
        (v.panel == NoSuggestions <==> !Curated(t))
        && (v.panel.SuggestionsFor? ==>
              v.panel.tailwind == Join(Table(t, result.value.theme).value.tailwind, "\n")
              && v.panel.css == Join(Table(t, result.value.theme).value.css, "\n"))
      ensures tab == JsonTab ==> v == JsonView(result.value)
    {
      var component := SelectedComponent(selected, result);
      match tab
      case PropertiesTab =>
        v := InspectorPanel(PropertiesInspector(component));
      case SuggestionsTab =>
        var panel := SuggestionsPanel(component, result.value.theme);
        v := SuggestionsView(panel);
      case JsonTab =>
        v := JsonView(result.value);
    }
  }
}
