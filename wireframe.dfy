/** The layout description the wireframe generator returns: a screen with a
    theme, a spacing, a layout mode and an ordered list of components.
    A component is identified only by its position in that list. */
module Wireframe {
  import opened Common

  datatype Theme = Light | Dark
  datatype Spacing = Compact | Normal | Loose
  datatype LayoutMode = SingleColumn | SidebarLeft | SidebarRight | Grid2x2 | Absolute

  datatype Variant = Primary | Secondary | Outline
  datatype Size = Small | Medium | Large
  datatype ColorName = PrimaryColor | SecondaryColor | Accent | Danger | DefaultColor
  datatype Alignment = AlignLeft | AlignCenter | AlignRight
  datatype FontWeight = NormalWeight | Bold

  /** The optional semantic attributes of a component. */
  datatype Properties = Properties(
    text: Option<string>,
    placeholder: Option<string>,
    variant: Option<Variant>,
    size: Option<Size>,
    color: Option<ColorName>,
    backgroundColor: Option<string>,
    alignment: Option<Alignment>,
    fontWeight: Option<FontWeight>,
    fontSize: Option<Size>)

  /** A percentage box, used only by the absolute layout. */
  datatype Position = Position(top: real, left: real, width: real, height: real)

  /** Extra inline style overrides. */
  datatype Style = Style(borderRadius: Option<string>, boxShadow: Option<string>, opacity: Option<real>)

  /** A component as decoded from the generator's JSON. Its type stays a
      string: nothing checks it against the seven known names. */
  datatype Component = Component(
    componentType: string,
    properties: Properties,
    position: Option<Position>,
    style: Option<Style>)

  datatype WireframeData = WireframeData(
    screenTitle: string,
    theme: Theme,
    spacing: Spacing,
    layout: LayoutMode,
    components: seq<Component>)

  /** The seven component types the renderer knows. */
  datatype Kind = Header | TextBlock | Input | Button | ImagePlaceholder | Card | Spacer

  function KindName(k: Kind): string
  {
    match k
    case Header => "header"
    case TextBlock => "text_block"
    case Input => "input"
    case Button => "button"
    case ImagePlaceholder => "image_placeholder"
    case Card => "card"
    case Spacer => "spacer"
  }

  /** The `switch (type)` of the renderer: which known type, if any, a type string names. */
  function KindOf(t: string): (r: Option<Kind>)
    ensures r.Some? ==> KindName(r.value) == t
    ensures r.None? ==> forall k: Kind :: KindName(k) != t
  {
    if t == "header" then Some(Header)
    else if t == "text_block" then Some(TextBlock)
    else if t == "input" then Some(Input)
    else if t == "button" then Some(Button)
    else if t == "image_placeholder" then Some(ImagePlaceholder)
    else if t == "card" then Some(Card)
    else if t == "spacer" then Some(Spacer)
    else None
  }

  /** Every known type name is recognised as itself. */
  lemma KindNameRoundTrip(k: Kind)
    ensures KindOf(KindName(k)) == Some(k)
  {
  }

  // Names of the enumerated values, as they appear in the JSON and in class names.

  function SizeName(s: Size): string
  {
    match s
    case Small => "small"
    case Medium => "medium"
    case Large => "large"
  }

  function VariantName(v: Variant): string
  {
    match v
    case Primary => "primary"
    case Secondary => "secondary"
    case Outline => "outline"
  }

  function ColorNameText(c: ColorName): string
  {
    match c
    case PrimaryColor => "primary"
    case SecondaryColor => "secondary"
    case Accent => "accent"
    case Danger => "danger"
    case DefaultColor => "default"
  }

  function AlignmentName(a: Alignment): string
  {
    match a
    case AlignLeft => "left"
    case AlignCenter => "center"
    case AlignRight => "right"
  }

  function FontWeightName(w: FontWeight): string
  {
    match w
    case NormalWeight => "normal"
    case Bold => "bold"
  }
}
