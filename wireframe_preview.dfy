/** The wireframe preview: `renderComponent` turns one component into an
    abstract visual node, and the composer arranges the rendered nodes into
    the columns of the chosen layout mode. A node records its tag, its
    interactive class groups (base, tilt, selection ring), its per-type class
    groups (each group is one of the source's class literals), its text, the
    classes of the inner element that carries the text (the card's paragraph),
    its inline style and the argument of its click handler. */
module WireframePreview {
  import opened Common
  import opened Wireframe

  datatype RenderStyle = Clean | Sketch

  datatype Tag = H2 | P | Div

  /** The inline style of a node: a percentage box and, in the clean style, the
      component's own style overrides merged in after it. */
  datatype NodeStyle = NodeStyle(box: Option<Position>, overrides: Option<Style>)

  datatype Node = Node(
    tag: Tag,
    interactive: seq<string>,
    classes: seq<string>,
    text: string,
    contentClasses: seq<string>,
    style: NodeStyle,
    onClick: Option<nat>)

  // ---------------------------------------------------------------------------
  // Theme palette

  datatype Palette = Palette(
    bg: string, text: string, textSecondary: string, border: string,
    inputBg: string, placeholder: string, cardBg: string)

  function PaletteOf(t: Theme): (p: Palette)
    ensures p.placeholder == "text-gray-400"
  {
    match t
    case Light => Palette("bg-white", "text-gray-800", "text-gray-500", "border-gray-300", "bg-gray-100", "text-gray-400", "bg-white")
    case Dark => Palette("bg-gray-900/70", "text-white", "text-gray-300", "border-gray-700", "bg-gray-700", "text-gray-400", "bg-gray-800")
  }

  /** The two themes share only the placeholder colour; every other class differs. */
  lemma PalettesDiffer()
    ensures var l, d := PaletteOf(Light), PaletteOf(Dark);
      l.bg != d.bg && l.text != d.text && l.textSecondary != d.textSecondary && l.border != d.border
      && l.inputBg != d.inputBg && l.cardBg != d.cardBg && l.placeholder == d.placeholder
  {
    var l, d := PaletteOf(Light), PaletteOf(Dark);
    assert |l.bg| != |d.bg| && |l.text| != |d.text| && |l.cardBg| != |d.cardBg|;
    assert l.textSecondary[10] != d.textSecondary[10] && l.inputBg[8] != d.inputBg[8] && l.border[12] != d.border[12];
  }

  // ---------------------------------------------------------------------------
  // Class literals. The longer ones are written as concatenations of short
  // pieces, which the verifier handles far more cheaply than one long literal.

  const UnknownClass := "text-red-400"

  const SketchBase := "transition-transform " + "duration-100 " + "cursor-pointer border-2 " + "border-gray-600 " + "dark:border-gray-400 " + "transform " + "hover:scale-105"
  const SketchSelected := "ring-2 ring-purple-500 " + "shadow-xl"

  const CleanBase := "transition-all " + "duration-200 w-full " + "cursor-pointer transform"
  const CleanUnselected := "hover:scale-105 " + "hover:shadow-lg"
  const CleanSelected := "ring-2 ring-purple-500 " + "shadow-xl " + "hover:scale-[1.02] " + "hover:shadow-2xl"
  const LiftOnHover := "hover:-translate-y-1"

  const PrimaryButton := "bg-purple-600 " + "hover:bg-purple-700 " + "text-white"
  const SecondaryButtonDark := "bg-gray-600 " + "hover:bg-gray-500 " + "text-white"
  const SecondaryButtonLight := "bg-gray-200 " + "hover:bg-gray-300 " + "text-gray-800"
  const OutlineButton := "bg-transparent border " + "border-purple-500 " + "text-purple-500 " + "hover:bg-purple-500/10"

  /** The sketch style's rotation table. */
  const Rotations: seq<string> := ["-rotate-1", "rotate-1", "-rotate-2", "rotate-2"]

  /** `rotations[index % rotations.length]`: a reproducible pseudo-random tilt. */
  function Rotation(index: nat): (r: string)
    ensures r in Rotations
  {
    Rotations[index % |Rotations|]
  }

  /** Two indices get the same tilt exactly when they agree modulo four. */
  lemma RotationPeriod(i: nat, j: nat)
    ensures Rotation(i) == Rotation(j) <==> i % 4 == j % 4
  {
    assert forall a, b :: 0 <= a < 4 && 0 <= b < 4 && Rotations[a] == Rotations[b] ==> a == b;
  }

  /** `{ small: 'h-4', medium: 'h-8', large: 'h-16' }[size || 'medium']`. */
  function SpacerHeight(size: Option<Size>): (r: string)
    ensures size.None? ==> r == "h-8"
  {
    match (if size.Some? then size.value else Medium)
    case Small => "h-4"
    case Medium => "h-8"
    case Large => "h-16"
  }

  /** `{ small: 'text-sm', medium: 'text-base', large: 'text-lg' }[fontSize || 'medium']`. */
  function FontSizeClass(size: Option<Size>): (r: string)
    ensures size.None? ==> r == "text-base"
  {
    match (if size.Some? then size.value else Medium)
    case Small => "text-sm"
    case Medium => "text-base"
    case Large => "text-lg"
  }

  /** `getColorClass`: primary and accent share the accent hue; absent or
      'default' falls back to the theme's base text colour. */
  function ColorClass(color: Option<ColorName>, p: Palette): (r: string)
    ensures color == Some(PrimaryColor) || color == Some(Accent) ==> r == "text-purple-400"
    ensures color.None? || color == Some(DefaultColor) ==> r == p.text
    ensures color == Some(SecondaryColor) ==> r == p.textSecondary
    ensures color == Some(Danger) ==> r == "text-red-500"
  {
    match color
    case Some(PrimaryColor) => "text-purple-400"
    case Some(Accent) => "text-purple-400"
    case Some(SecondaryColor) => p.textSecondary
    case Some(Danger) => "text-red-500"
    case _ => p.text
  }

  /** The clean style's text classes: alignment, weight, size and colour. */
  function TextClasses(props: Properties, p: Palette): seq<string>
  {
    [ "text-" + AlignmentName(if props.alignment.Some? then props.alignment.value else AlignLeft),
      "font-" + FontWeightName(if props.fontWeight.Some? then props.fontWeight.value else NormalWeight),
      FontSizeClass(props.fontSize),
      ColorClass(props.color, p) ]
  }

  /** The clean button's colour classes. A non-empty `backgroundColor` wins
      over every variant; only the secondary variant depends on the theme. */
  function ButtonClass(props: Properties, theme: Theme): (r: string)
    ensures Truthy(props.backgroundColor) ==> r == props.backgroundColor.value + " text-white"
    ensures !Truthy(props.backgroundColor) ==>
      r in [PrimaryButton, SecondaryButtonDark, SecondaryButtonLight, OutlineButton]
  {
    var byVariant :=
      if props.variant == Some(Secondary) then (if theme == Dark then SecondaryButtonDark else SecondaryButtonLight)
      else if props.variant == Some(Outline) then OutlineButton
      else PrimaryButton;
    if Truthy(props.backgroundColor) then props.backgroundColor.value + " text-white" else byVariant
  }

  lemma ButtonBackgroundWins(p: Properties, q: Properties, t1: Theme, t2: Theme)
    requires Truthy(p.backgroundColor) && p.backgroundColor == q.backgroundColor
    ensures ButtonClass(p, t1) == ButtonClass(q, t2) == p.backgroundColor.value + " text-white"
  {
  }

  lemma ButtonVariants(p: Properties, theme: Theme)
    requires !Truthy(p.backgroundColor)
    ensures p.variant.None? || p.variant == Some(Primary) ==> ButtonClass(p, theme) == PrimaryButton
    ensures p.variant == Some(Outline) ==> ButtonClass(p, theme) == OutlineButton
    ensures p.variant == Some(Secondary) ==>
      ButtonClass(p, theme) == (if theme == Dark then SecondaryButtonDark else SecondaryButtonLight)
  {
  }

  /** The theme changes a button's classes only for the secondary variant
      without a background colour. */
  lemma ButtonThemeSensitivity(p: Properties)
    ensures ButtonClass(p, Dark) != ButtonClass(p, Light)
        <==> p.variant == Some(Secondary) && !Truthy(p.backgroundColor)
  {
  }

  // ---------------------------------------------------------------------------
  // renderComponent

  /** The element each known type renders as. */
  function TagOf(k: Kind): Tag
  {
    match k
    case Header => H2
    case TextBlock => P
    case _ => Div
  }

  /** The text a known type shows: the same `||` defaults in both styles,
      except for the image placeholder's fixed caption. */
  function TextOf(k: Kind, props: Properties, rs: RenderStyle): string
  {
    match k
    case Header => OrElse(props.text, "Header")
    case TextBlock => OrElse(props.text, "Lorem ipsum dolor sit " + "amet...")
    case Input => OrElse(props.placeholder, "Input Field")
    case Button => OrElse(props.text, "Button")
    case ImagePlaceholder => if rs == Sketch then "Image" else "Image Placeholder"
    case Card => OrElse(props.text, "Card Component")
    case Spacer => ""
  }

  /** The sketch style's per-type classes. */
  function SketchClasses(k: Kind, props: Properties): seq<string>
  {
    match k
    case Header => ["p-2 text-2xl font-bold"]
    case TextBlock => ["p-2"]
    case Input => ["p-3 text-gray-500"]
    case Button => ["p-3 text-center " + "font-semibold " + "bg-gray-300 " + "dark:bg-gray-700 " + "shadow-[2px_2px_0px_currentColor] " + "hover:shadow-[1px_1px_0px_currentColor] " + "active:shadow-none " + "active:translate-x-px " + "active:translate-y-px"]
    case ImagePlaceholder => ["h-32 flex items-center " + "justify-center " + "text-gray-500 " + "dark:text-gray-400 " + "relative overflow-hidden"]
    case Card => ["p-4"]
    case Spacer => [SpacerHeight(props.size), "w-full " + "!border-transparent " + "!shadow-none " + "hover:bg-gray-500/10"]
  }

  /** The clean style's per-type classes. */
  function CleanClasses(k: Kind, props: Properties, theme: Theme): seq<string>
  {
    var p := PaletteOf(theme);
    match k
    case Header => ["text-2xl font-bold " + "rounded-md p-1"] + TextClasses(props, p)
    case TextBlock => ["rounded-md p-1"] + TextClasses(props, p)
    case Input => ["p-3", p.inputBg, p.border, "border rounded-lg", p.placeholder]
    case Button => ["p-3 rounded-lg " + "text-center " + "font-semibold", ButtonClass(props, theme)]
    case ImagePlaceholder => ["h-32", p.inputBg, "border-2 border-dashed", p.border, "rounded-lg flex " + "items-center " + "justify-center", p.placeholder]
    case Card => ["p-4", OrElse(props.backgroundColor, p.cardBg), "border", p.border, "rounded-lg"]
    case Spacer => [SpacerHeight(props.size), "w-full border-2 " + "border-dashed " + "border-transparent " + "hover:border-gray-600 " + "rounded-md"]
  }

  function ClassesOf(k: Kind, props: Properties, theme: Theme, rs: RenderStyle): seq<string>
  {
    if rs == Sketch then SketchClasses(k, props) else CleanClasses(k, props, theme)
  }

  /** The classes of the inner paragraph that holds a card's text in the clean style. */
  function InnerClassesOf(k: Kind, theme: Theme, rs: RenderStyle): seq<string>
  {
    if k == Card && rs == Clean then [PaletteOf(theme).textSecondary] else []
  }

  /** The class group that marks the selected node (ring and shadow). */
  function SelectionMark(rs: RenderStyle): string
  {
    if rs == Sketch then SketchSelected else CleanSelected
  }

  /** `interactiveProps.className`: the classes every clickable node starts with. */
  function Interactive(rs: RenderStyle, layout: LayoutMode, index: nat, isSelected: bool): (r: seq<string>)
    ensures SelectionMark(rs) in r <==> isSelected
    ensures rs == Sketch ==> |r| >= 2 && r[1] == Rotation(index)
  {
    assert Rotation(index) != SketchSelected by {
      assert |SketchSelected| == 32;
    }
    if rs == Sketch then [SketchBase, Rotation(index)] + (if isSelected then [SketchSelected] else [])
    else [CleanBase] + (if !isSelected then [CleanUnselected]
                        else [CleanSelected] + (if layout == Absolute then [] else [LiftOnHover]))
  }

  /** `renderComponent(component, index)` for a given theme, layout mode, render
      style and current selection. */
  function Render(c: Component, index: nat, theme: Theme, layout: LayoutMode, rs: RenderStyle, selected: Option<int>): (r: Node)
    // only the seven known types get a click handler, and it selects this index
    ensures r.onClick == (if KindOf(c.componentType).Some? then Some(index) else None)
    // the percentage box is emitted only for the absolute layout and a present position
    ensures r.style.box == (if layout == Absolute then c.position else None)
    // the clean style merges the style overrides in, with or without a box; sketch never does
    ensures r.style.overrides == (if rs == Clean then c.style else None)
    // an unknown type renders a flagged placeholder without interactive classes, in both styles
    ensures r.onClick.None? ==>
      r.tag == Div && r.interactive == [] && r.classes == [UnknownClass] && r.contentClasses == []
      && r.text == "Unknown component type: " + c.componentType
    // in sketch style the tilt depends on the index alone
    ensures r.onClick.Some? && rs == Sketch ==> |r.interactive| >= 2 && r.interactive[1] == Rotation(index)
    // the selection ring is there exactly when this clickable node is the selected one
    ensures SelectionMark(rs) in r.interactive <==> r.onClick.Some? && selected == Some(index)
  {
    var style := NodeStyle(if layout == Absolute then c.position else None, if rs == Clean then c.style else None);
    match KindOf(c.componentType)
    case None => Node(Div, [], [UnknownClass], "Unknown component type: " + c.componentType, [], style, None)
    case Some(k) =>
      var isSelected := selected == Some(index);
      Node(TagOf(k), Interactive(rs, layout, index, isSelected), ClassesOf(k, c.properties, theme, rs),
           TextOf(k, c.properties, rs), InnerClassesOf(k, theme, rs), style, Some(index))
  }

  /** Selection changes only the interactive classes, never the tag, the
      per-type classes, the text, the style or the click handler. */
  lemma SelectionOnlyChangesEmphasis(c: Component, index: nat, theme: Theme, layout: LayoutMode, rs: RenderStyle, s1: Option<int>, s2: Option<int>)
    ensures Render(c, index, theme, layout, rs, s1).(interactive := []) == Render(c, index, theme, layout, rs, s2).(interactive := [])
  {
  }

  /** Absent texts fall back to fixed per-type defaults, the same in both styles;
      only the image placeholder's caption differs between the styles. */
  lemma DefaultTexts(k: Kind, props: Properties, rs: RenderStyle)
    requires if k == Input then !Truthy(props.placeholder) else !Truthy(props.text)
    ensures var t := TextOf(k, props, rs);
      match k
      case Header => t == "Header"
      case TextBlock => t == "Lorem ipsum dolor sit " + "amet..."
      case Input => t == "Input Field"
      case Button => t == "Button"
      case Card => t == "Card Component"
      case ImagePlaceholder => t == (if rs == Sketch then "Image" else "Image Placeholder")
      case Spacer => t == ""
  {
  }

  /** A present, non-empty text (for an input, placeholder) is shown verbatim,
      and the text never depends on the render style except for the image caption. */
  lemma TextShownVerbatim(k: Kind, props: Properties, rs: RenderStyle)
    requires k != ImagePlaceholder && k != Spacer
    requires if k == Input then Truthy(props.placeholder) else Truthy(props.text)
    ensures TextOf(k, props, rs) == if k == Input then props.placeholder.value else props.text.value
    ensures TextOf(k, props, Sketch) == TextOf(k, props, Clean)
  {
  }

  /** The rendered node of a known type shows that type's element, classes and text. */
  lemma RenderShowsKind(c: Component, index: nat, theme: Theme, layout: LayoutMode, rs: RenderStyle, selected: Option<int>, k: Kind)
    requires KindOf(c.componentType) == Some(k)
    ensures var r := Render(c, index, theme, layout, rs, selected);
      r.tag == TagOf(k) && r.classes == ClassesOf(k, c.properties, theme, rs)
      && r.text == TextOf(k, c.properties, rs)
  {
  }

  /** The spacer's height class is keyed by its size, a missing size counting as
      medium, in both styles. */
  lemma SpacerHeights(props: Properties, theme: Theme, rs: RenderStyle)
    ensures var classes := ClassesOf(Spacer, props, theme, rs);
      |classes| == 2 && classes[0] == SpacerHeight(props.size)
  {
    if rs == Sketch {
      assert ClassesOf(Spacer, props, theme, rs) == SketchClasses(Spacer, props);
    } else {
      assert ClassesOf(Spacer, props, theme, rs) == CleanClasses(Spacer, props, theme);
    }
  }

  // ---------------------------------------------------------------------------
  // Layout composer

  datatype Column = Column(classes: string, nodes: seq<Node>)

  datatype Body =
    | Stack(nodes: seq<Node>)                   // one container holding every node
    | TwoColumns(first: Column, second: Column) // the sidebar layouts

  datatype Preview = Preview(frameClasses: seq<string>, title: string, layoutClass: string, body: Body)

  /** `{ compact: 'gap-2', normal: 'gap-4', loose: 'gap-8' }[spacing]`. */
  function GapClass(s: Spacing): string
  {
    match s
    case Compact => "gap-2"
    case Normal => "gap-4"
    case Loose => "gap-8"
  }

  function LayoutClass(layout: LayoutMode, s: Spacing): (r: string)
    ensures layout != Absolute ==> EndsWith(r, GapClass(s))
    ensures layout == SidebarLeft || layout == SidebarRight ==> StartsWith(r, "grid md:grid-cols-3 ")
    ensures layout == Grid2x2 ==> StartsWith(r, "grid md:grid-cols-2 ")
    ensures layout == SingleColumn ==> StartsWith(r, "flex flex-col ")
  {
    match layout
    case Absolute => "relative h-[600px] " + "w-full"
    case SidebarLeft => "grid md:grid-cols-3 " + GapClass(s)
    case SidebarRight => "grid md:grid-cols-3 " + GapClass(s)
    case Grid2x2 => "grid md:grid-cols-2 " + GapClass(s)
    case SingleColumn => "flex flex-col " + GapClass(s)
  }

  function SidebarColumnClass(s: Spacing): string { "md:col-span-1 flex " + "flex-col " + GapClass(s) }
  function MainColumnClass(s: Spacing): string { "md:col-span-2 flex " + "flex-col " + GapClass(s) }

  /** The outer frame, which also carries the background click handler. */
  function FrameClasses(theme: Theme, rs: RenderStyle): seq<string>
  {
    var p := PaletteOf(theme);
    ["p-4 border", if rs == Sketch then "border-gray-400 " + "bg-amber-50 " + "dark:bg-[#282a2d]" else p.border + " " + p.bg, "rounded-lg"]
      + (if rs == Sketch then ["font-sketch " + "text-gray-800 " + "dark:text-gray-200"] else [])
  }

  /** `Math.ceil(n / 3)`. */
  function SidebarCount(n: nat): nat
  {
    (n + 2) / 3
  }

  lemma SidebarCountIsCeiling(n: nat)
    ensures n <= 3 * SidebarCount(n) < n + 3
    ensures SidebarCount(n) <= n
  {
  }

  /** `data.components.map(renderComponent)`. */
  function RenderAll(d: WireframeData, rs: RenderStyle, selected: Option<int>): (r: seq<Node>)
    ensures |r| == |d.components|
    ensures forall i :: 0 <= i < |r| ==> r[i] == Render(d.components[i], i, d.theme, d.layout, rs, selected)
  {
    seq(|d.components|, i requires 0 <= i < |d.components| => Render(d.components[i], i, d.theme, d.layout, rs, selected))
  }

  /** The nodes of a body in document order. */
  function Flatten(b: Body): seq<Node>
  {
    match b
    case Stack(nodes) => nodes
    case TwoColumns(first, second) => first.nodes + second.nodes
  }

  /** Arranges the rendered nodes for the layout mode: the sidebar layouts
      slice them into two columns, every other mode keeps one container. */
  function Arrange(all: seq<Node>, layout: LayoutMode, spacing: Spacing): (b: Body)
    // every layout keeps all nodes, in their original order
    ensures Flatten(b) == all
    ensures b.TwoColumns? <==> layout == SidebarLeft || layout == SidebarRight
    // left sidebar: the first ceil(n/3) nodes, then the main column
    ensures layout == SidebarLeft ==>
      b.first.classes == SidebarColumnClass(spacing) && b.second.classes == MainColumnClass(spacing)
      && |b.first.nodes| == SidebarCount(|all|)
    // right sidebar: the main column, then the last ceil(n/3) nodes
    ensures layout == SidebarRight ==>
      b.first.classes == MainColumnClass(spacing) && b.second.classes == SidebarColumnClass(spacing)
      && |b.second.nodes| == SidebarCount(|all|)
  {
    var n := |all|;
    var sc := SidebarCount(n);
    SidebarCountIsCeiling(n);
    assert all[..sc] + all[sc..] == all;
    assert all[..n - sc] + all[n - sc..] == all;
    if layout == SidebarLeft then
      TwoColumns(Column(SidebarColumnClass(spacing), all[..sc]), Column(MainColumnClass(spacing), all[sc..]))
    else if layout == SidebarRight then
      TwoColumns(Column(MainColumnClass(spacing), all[..n - sc]), Column(SidebarColumnClass(spacing), all[n - sc..]))
    else Stack(all)
  }

  /** The whole preview of a layout description. */
  function Compose(d: WireframeData, rs: RenderStyle, selected: Option<int>): (p: Preview)
    ensures p.title == d.screenTitle && p.layoutClass == LayoutClass(d.layout, d.spacing)
    // the nodes, read in document order, are the components rendered in list order
    ensures |Flatten(p.body)| == |d.components|
    ensures forall i :: 0 <= i < |d.components| ==>
      Flatten(p.body)[i] == Render(d.components[i], i, d.theme, d.layout, rs, selected)
    // at most the selected node carries the selection ring
    ensures forall i :: 0 <= i < |d.components| ==>
      (SelectionMark(rs) in Flatten(p.body)[i].interactive <==>
         selected == Some(i) && KindOf(d.components[i].componentType).Some?)
  {
    Preview(FrameClasses(d.theme, rs), d.screenTitle, LayoutClass(d.layout, d.spacing),
            Arrange(RenderAll(d, rs, selected), d.layout, d.spacing))
  }

  // ---------------------------------------------------------------------------
  // Clicks

  datatype ClickTarget = OnComponent(index: nat) | OnBackground

  /** The arguments the `onSelect` callback receives for one click, in the
      order the handlers fire. A clickable node calls `stopPropagation`, so the
      frame's handler does not run; a node without a handler (an unknown type)
      lets the click reach the frame, which deselects. */
  function SelectCalls(p: Preview, target: ClickTarget): seq<Option<nat>>
    requires target.OnComponent? ==> target.index < |Flatten(p.body)|
  {
    match target
    case OnBackground => [None]
    case OnComponent(i) =>
      var node := Flatten(p.body)[i];
      if node.onClick.Some? then [node.onClick] else [None]
  }

  /** The selection after a click is the argument of the last `onSelect` call. */
  function SelectionAfterClick(p: Preview, target: ClickTarget): Option<nat>
    requires target.OnComponent? ==> target.index < |Flatten(p.body)|
  {
    var calls := SelectCalls(p, target);
    calls[|calls| - 1]
  }

  /** Clicking component i of any composed preview fires exactly one handler:
      the component's own, selecting i, or, for an unknown type, the
      background's, clearing the selection. Clicking the background always clears it. */
  lemma ClickOutcome(d: WireframeData, rs: RenderStyle, selected: Option<int>, target: ClickTarget)
    requires target.OnComponent? ==> target.index < |d.components|
    ensures target.OnComponent? ==> target.index < |Flatten(Compose(d, rs, selected).body)|
    ensures target.OnComponent? && KindOf(d.components[target.index].componentType).Some? ==>
      SelectCalls(Compose(d, rs, selected), target) == [Some(target.index)]
    ensures target.OnComponent? && KindOf(d.components[target.index].componentType).None? ==>
      SelectCalls(Compose(d, rs, selected), target) == [None]
    ensures target.OnBackground? ==> SelectCalls(Compose(d, rs, selected), target) == [None]
  {
  }
}
