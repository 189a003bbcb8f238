/** The style suggestion engine of the wireframe inspector: a fixed table of
    Tailwind class suggestions and CSS declarations per component type, a few
    of whose literals depend on the theme. */
module StyleSuggestions {
  import opened Common
  import opened Wireframe

  /** The two suggestion lists of one component type. */
  datatype Lists = Lists(tailwind: seq<string>, css: seq<string>)

  /** What `generateSuggestions` returns: each list joined with newlines. */
  datatype Suggestions = Suggestions(tailwind: string, css: string)

  /** `theme === 'dark' ? dark : light`. */
  function ByTheme(theme: Theme, dark: string, light: string): string
  {
    if theme == Dark then dark else light
  }

  // The longer literals are written as concatenations of short pieces, which
  // the verifier handles far more cheaply than one long literal.

  const HeaderTailwind: seq<string> := [
    "text-transparent " + "bg-clip-text " + "bg-gradient-to-r " + "from-purple-400 " + "to-pink-600",
    "tracking-tight pb-2 " + "border-b-2 " + "border-purple-500/50",
    "font-extrabold"]

  function HeaderCss(theme: Theme): seq<string>
  {
    ["text-shadow: 1px " + "1px 3px " + ByTheme(theme, "rgba(0, 0, 0, 0.5)", "rgba(0, 0, 0, 0.2)") + ";"]
  }

  const ButtonTailwind: seq<string> := [
    "transition-transform " + "transform " + "hover:scale-105",
    "shadow-lg " + "hover:shadow-purple-500/50",
    "rounded-full px-8 " + "py-3",
    "flex items-center " + "justify-center " + "space-x-2"]

  function ButtonCss(theme: Theme): seq<string>
  {
    [ "background: " + "linear-gradient(45deg, " + "#8B5CF6, #EC4899);",
      "box-shadow: 0 4px " + "14px 0 " + ByTheme(theme, "rgba(192, 132, 252, " + "0.39)", "rgba(0, 0, 0, 0.2)") + ";" ]
  }

  function InputTailwind(theme: Theme): seq<string>
  {
    [ "focus:ring-2 " + "focus:ring-purple-500 " + "focus:border-transparent",
      "transition " + "duration-300 " + "ease-in-out",
      "shadow-inner " + ByTheme(theme, "bg-gray-800", "bg-gray-50") ]
  }

  function InputCss(theme: Theme): seq<string>
  {
    [ "caret-color: " + "#8B5CF6;",
      "box-shadow: inset 0 " + "2px 4px 0 " + ByTheme(theme, "rgba(0,0,0,0.5)", "rgba(0,0,0,0.06)") + ";" ]
  }

  const CardTailwind: seq<string> := [
    "hover:shadow-2xl " + "hover:-translate-y-1 " + "transition-all " + "duration-300",
    "border-l-4 " + "border-purple-500",
    "rounded-xl"]

  /** The entry the dark theme pushes onto the card's Tailwind list. */
  const CardDarkExtra := "backdrop-blur-sm " + "bg-white/5"

  function CardCss(theme: Theme): seq<string>
  {
    ["box-shadow: " + ByTheme(theme,
       "0 10px 15px -3px " + "rgba(0, 0, 0, 0.3), " + "0 4px 6px -2px " + "rgba(0, 0, 0, 0.2)",
       "0 10px 15px -3px " + "rgba(0, 0, 0, 0.1), " + "0 4px 6px -2px " + "rgba(0, 0, 0, 0.05)") + ";"]
  }

  const ImageTailwind: seq<string> := [
    "rounded-xl " + "overflow-hidden",
    "border-purple-500/50",
    "bg-cover bg-center"]

  const ImageCss: seq<string> := [
    "background-image: " + "url('https://" + "source.unsplash.com" + "/random/400x300" + "?abstract');"]

  /** The component types with curated suggestions: all known types but the
      text block and the spacer. */
  predicate CuratedKind(k: Kind)
  {
    k != TextBlock && k != Spacer
  }

  /** The type strings with curated suggestions. */
  predicate Curated(t: string)
  {
    KindOf(t).Some? && CuratedKind(KindOf(t).value)
  }

  /** Exactly the five names the `switch` lists have suggestions. */
  lemma CuratedNames(t: string)
    ensures Curated(t) <==> t == "header" || t == "button" || t == "input" || t == "card" || t == "image_placeholder"
  {
  }

  /** The suggestion lists of a type and theme, or nothing for a type
      without suggestions. */
  function ListsFor(k: Kind, theme: Theme): (r: Option<Lists>)
    ensures r.Some? <==> CuratedKind(k)
    ensures r.Some? ==> |r.value.tailwind| >= 3 && |r.value.css| >= 1
  {
    if !CuratedKind(k) then None else
    match k
    case Header => Some(Lists(HeaderTailwind, HeaderCss(theme)))
    case Button => Some(Lists(ButtonTailwind, ButtonCss(theme)))
    case Input => Some(Lists(InputTailwind(theme), InputCss(theme)))
    case Card => Some(Lists(if theme == Dark then CardTailwind + [CardDarkExtra] else CardTailwind, CardCss(theme)))
    case ImagePlaceholder => Some(Lists(ImageTailwind, ImageCss))
  }

  /** The suggestion table keyed by the component's type string. */
  function Table(t: string, theme: Theme): (r: Option<Lists>)
    ensures r.Some? <==> Curated(t)
  {
    if KindOf(t).Some? then ListsFor(KindOf(t).value, theme) else None
  }

  /** The `switch` of `generateSuggestions()`: assigns the two local lists
      per component type and pushes the extra dark-theme card entry. */
  method SuggestionLists(componentType: string, theme: Theme) returns (lists: Option<Lists>)
    ensures lists == Table(componentType, theme)
  {
    var tailwindSuggestions: seq<string> := [];
    var cssSuggestions: seq<string> := [];
    // the case labels are the kind names, so the switch is a match on the kind
    var kind := KindOf(componentType);
    if kind.None? {
      return None;
    }
    match kind.value {
      case Header =>
        tailwindSuggestions := HeaderTailwind;
        cssSuggestions := HeaderCss(theme);
      case Button =>
        tailwindSuggestions := ButtonTailwind;
        cssSuggestions := ButtonCss(theme);
      case Input =>
        tailwindSuggestions := InputTailwind(theme);
        cssSuggestions := InputCss(theme);
      case Card =>
        tailwindSuggestions := CardTailwind;
        if theme == Dark {
          tailwindSuggestions := tailwindSuggestions + [CardDarkExtra];
        }
        cssSuggestions := CardCss(theme);
      case ImagePlaceholder =>
        tailwindSuggestions := ImageTailwind;
        cssSuggestions := ImageCss;
      case _ =>
        return None;
    }
    lists := Some(Lists(tailwindSuggestions, cssSuggestions));
  }

  /** `generateSuggestions()`: the lists of the type joined with newlines, or
      `null` for a type without suggestions. */
  method GenerateSuggestions(componentType: string, theme: Theme) returns (r: Option<Suggestions>)
    ensures r.None? <==> !Curated(componentType)
    ensures r.Some? ==> var lists := Table(componentType, theme).value;
      r.value == Suggestions(Join(lists.tailwind, "\n"), Join(lists.css, "\n"))
  {
    var lists := SuggestionLists(componentType, theme);
    if lists.None? {
      return None;
    }
    r := Some(Suggestions(Join(lists.value.tailwind, "\n"), Join(lists.value.css, "\n")));
  }

  /** The card's Tailwind list has the extra glass entry, last, only in the dark theme. */
  lemma CardCounts()
    ensures |ListsFor(Card, Dark).value.tailwind| == 4 && |ListsFor(Card, Light).value.tailwind| == 3
    ensures ListsFor(Card, Dark).value.tailwind == ListsFor(Card, Light).value.tailwind + [CardDarkExtra]
  {
  }

  /** For every curated type other than the card, the theme changes no entry count. */
  lemma CountsThemeIndependent(k: Kind)
    requires CuratedKind(k) && k != Card
    ensures |ListsFor(k, Dark).value.tailwind| == |ListsFor(k, Light).value.tailwind|
    ensures |ListsFor(k, Dark).value.css| == |ListsFor(k, Light).value.css|
  {
  }

  /** The image placeholder's suggestions do not depend on the theme. */
  lemma ImageThemeIndependent()
    ensures ListsFor(ImagePlaceholder, Dark) == ListsFor(ImagePlaceholder, Light)
  {
  }

  /** The theme changes exactly the designated literals. */
  lemma ThemeChangesOnlyDesignated()
    // header: only the text-shadow colour (alpha 0.5 dark, 0.2 light)
    ensures ListsFor(Header, Dark).value.tailwind == ListsFor(Header, Light).value.tailwind
    ensures ListsFor(Header, Dark).value.css[0] != ListsFor(Header, Light).value.css[0]
    // button: only the box-shadow colour
    ensures ListsFor(Button, Dark).value.tailwind == ListsFor(Button, Light).value.tailwind
    ensures ListsFor(Button, Dark).value.css[0] == ListsFor(Button, Light).value.css[0]
    ensures ListsFor(Button, Dark).value.css[1] != ListsFor(Button, Light).value.css[1]
    // input: the inner-shadow background and the inset shadow colour
    ensures ListsFor(Input, Dark).value.tailwind[..2] == ListsFor(Input, Light).value.tailwind[..2]
    ensures ListsFor(Input, Dark).value.tailwind[2] != ListsFor(Input, Light).value.tailwind[2]
    ensures ListsFor(Input, Dark).value.css[0] == ListsFor(Input, Light).value.css[0]
    ensures ListsFor(Input, Dark).value.css[1] != ListsFor(Input, Light).value.css[1]
    // card: the pushed entry and the shadow
    ensures ListsFor(Card, Dark).value.css != ListsFor(Card, Light).value.css
  {
    // the two header shadows differ in the alpha digit
    assert HeaderCss(Dark)[0][41] == '5' && HeaderCss(Light)[0][41] == '2';
    assert |InputCss(Dark)[1]| != |InputCss(Light)[1]|;
    assert |CardCss(Dark)[0]| != |CardCss(Light)[0]|;
  }

  /** What the Suggestions tab shows. */
  datatype Panel =
    | SelectPrompt                                         // no component selected
    | NoSuggestions                                        // a type without curated suggestions
    | SuggestionsFor(typeLabel: string, tailwind: string, css: string)

  /** The `StyleSuggestions` component: the empty state for no selection,
      before any suggestion is computed; otherwise the table lookup. */
  method SuggestionsPanel(component: Option<Component>, theme: Theme) returns (p: Panel)
    ensures p == SelectPrompt <==> component.None?
    ensures component.Some? ==> (p == NoSuggestions <==> !Curated(component.value.componentType))
    ensures p.SuggestionsFor? ==>
      component.Some? && p.typeLabel == UnderscoresToSpaces(component.value.componentType)
      && p.tailwind == Join(Table(component.value.componentType, theme).value.tailwind, "\n")
      && p.css == Join(Table(component.value.componentType, theme).value.css, "\n")
  {
    if component.None? {
      return SelectPrompt;
    }
    var suggestions := GenerateSuggestions(component.value.componentType, theme);
    if suggestions.None? {
      return NoSuggestions;
    }
    p := SuggestionsFor(UnderscoresToSpaces(component.value.componentType), suggestions.value.tailwind, suggestions.value.css);
  }
}
