# UX agent tools, modelled in Dafny

This project models the deterministic core of a browser app with several UX
helper tabs that sit in front of a remote generative model.

- **Wireframe tool.** A prompt yields a layout description: a screen title, a theme, a spacing, a layout mode and an ordered list of components. The preview renders each component as an abstract node. It arranges the nodes into the columns of the layout mode. Clicking selects a component. A right-hand panel shows the selected component's properties, curated style suggestions, or the raw layout.
- **Style suggestion engine.** A fixed table of Tailwind classes and CSS declarations per component type. A few entries depend on the theme.
- **Chat tab.** An ordered message log. Sending appends the user turn, then a `'...'` bot placeholder that the streamed reply overwrites chunk by chunk. A failure appends an error turn. Attachments are checked against a 4 MiB limit.
- **Quick tools tab.** A grounded researcher mode and a fast suggestion mode. The researcher's cited web sources are extracted from the response metadata.

Modules follow the source files:

- `Common`: optional values, JavaScript truthiness, `join`, `split`, `trim`, and concatenation.
- `Wireframe`: the layout data model.
- `WireframePreview`: `renderComponent`, the column composer and click dispatch.
- `StyleSuggestions`: the suggestion table and its panel.
- `WireframeTool`: the properties inspector and the page state as a class.
- `ChatBot`: the chat state as a class.
- `QuickTools`: source extraction and the tab state as a class.

How the model is built:

- **Remote calls.** Every remote call is a parameter, either a given outcome or a given chunk stream. Decoding the generated JSON is likewise an abstract outcome, whose components may carry any type string.
- **Handlers.** Handlers that update React state step by step are methods of a class whose fields are those states.
- **Pure parts.** The renderer, the table and the extraction chain are functions.
- **Type switches.** A `switch` on a component type string is a match on `Wireframe.KindOf`, whose cases are the same seven strings; a string outside them takes the `default` branch.
- **Long literals.** Long class and suggestion strings are written as concatenations of short pieces whose values are the source's strings.

## Model

| member | source | states |
|---|---|---|
| Common.OrElse | components/WireframeTool.tsx:177 | `s \|\| fallback` gives the string when it is present and non-empty, otherwise the fallback |
| Common.MessageOr | components/ChatBot.tsx:139 | an `Error` yields its message, any other thrown value yields the fallback text |
| Common.SplitJoin | components/StyleSuggestions.tsx:100-103 | joining a non-empty list of newline-free entries with `'\n'` and splitting again gives back the list in order, so the joined text keeps every entry and their order |
| Common.TrimStart | components/ChatBot.tsx:86 | the result is a suffix of the input that does not start with white space, and everything removed before it is white space |
| Common.TrimEnd | components/ChatBot.tsx:86 | the result is a prefix of the input that does not end with white space, and everything removed after it is white space |
| Common.Trim | components/ChatBot.tsx:86 | `s.trim()` is no longer than `s` and neither starts nor ends with white space |
| Common.Join | components/StyleSuggestions.tsx:101-102 | `xs.join(sep)`: the empty list joins to `''`; otherwise the text starts with the first entry and ends with the last |
| Common.TrimEmptyIffBlank | components/ChatBot.tsx:86 | `s.trim()` is empty exactly when every character of `s` is ECMAScript white space or a line terminator |
| Common.UnderscoresToSpaces | components/WireframeTool.tsx:134 | same length; each `_` becomes a space and every other character is kept |
| Common.ConcatSnoc | components/ChatBot.tsx:127 | appending a chunk to the running text is concatenation of the chunks in arrival order |
| Common.ConcatEmpty | components/ChatBot.tsx:126-127 | the concatenation is empty exactly when every chunk is empty |
| Wireframe.KindOf | components/WireframeTool.tsx:175-196 | recognises exactly the seven type names; any other string is unknown |
| Wireframe.KindNameRoundTrip | components/WireframeTool.tsx:8 | each known type's name is recognised as that type |
| WireframePreview.Rotation | components/WireframeTool.tsx:168-169 | the sketch tilt is always one of the four rotation classes |
| WireframePreview.RotationPeriod | components/WireframeTool.tsx:168-169 | two indices get the same tilt exactly when they are congruent modulo 4, so the tilt depends on the index alone |
| WireframePreview.SpacerHeight | components/WireframeTool.tsx:193 | a missing spacer size counts as medium (`h-8`) |
| WireframePreview.FontSizeClass | components/WireframeTool.tsx:212 | a missing font size counts as medium (`text-base`) |
| WireframePreview.PaletteOf | components/WireframeTool.tsx:146-149 | both themes use `text-gray-400` for placeholders |
| WireframePreview.PalettesDiffer | components/WireframeTool.tsx:146-149 | the light and dark palettes share only the placeholder colour and differ in every other class |
| WireframePreview.ColorClass | components/WireframeTool.tsx:206-208 | the whole `getColorClass` map: primary and accent give `text-purple-400`, secondary the theme's secondary text colour, danger `text-red-500`, and absent or `default` the theme's text colour |
| WireframePreview.ButtonClass | components/WireframeTool.tsx:223-226 | a non-empty background colour gives that colour with `text-white`; otherwise one of the four variant classes |
| WireframePreview.ButtonBackgroundWins | components/WireframeTool.tsx:226 | a non-empty background colour decides the clean button's classes, whatever the variant and theme |
| WireframePreview.ButtonVariants | components/WireframeTool.tsx:223-225 | without a background colour: primary by default, the outline classes for `outline`, the theme's secondary classes for `secondary` |
| WireframePreview.ButtonThemeSensitivity | components/WireframeTool.tsx:223-226 | the theme changes a button's classes exactly for the secondary variant without a background colour |
| WireframePreview.Interactive | components/WireframeTool.tsx:165-203 | the selection ring classes appear exactly for the selected node; in the sketch style the second class group is the node's tilt |
| WireframePreview.Render | components/WireframeTool.tsx:152-237 | only known types get a click handler, which selects this index; the box only for the absolute layout; clean style always merges the style overrides; an unknown type gives the flagged `Unknown component type: …` node without interactive classes; the sketch tilt is `Rotation(index)`; the selection ring appears exactly on the selected clickable node |
| WireframePreview.SelectionOnlyChangesEmphasis | components/WireframeTool.tsx:154-203 | the selection changes only the interactive classes, never tag, content classes, text, style or handler |
| WireframePreview.DefaultTexts | components/WireframeTool.tsx:177-231 | a node without its own text (the placeholder for an input, the text otherwise) falls back to 'Header', 'Lorem ipsum dolor sit amet...', 'Input Field', 'Button', 'Card Component'; the image caption is 'Image' (sketch) or 'Image Placeholder' (clean) |
| WireframePreview.TextShownVerbatim | components/WireframeTool.tsx:177-231 | a present non-empty text (placeholder for inputs) is shown as is, identically in both styles |
| WireframePreview.RenderShowsKind | components/WireframeTool.tsx:175-234 | a known type's node has that type's element, per-style classes and text |
| WireframePreview.SpacerHeights | components/WireframeTool.tsx:192-234 | in both styles the spacer's first class is the height keyed by its size |
| WireframePreview.SidebarCountIsCeiling | components/WireframeTool.tsx:252 | the sidebar count is `ceil(n/3)`: `n <= 3c < n + 3`, and never more than n |
| WireframePreview.RenderAll | components/WireframeTool.tsx:243 | node i is the rendering of component i, for every i, and nothing else |
| WireframePreview.LayoutClass | components/WireframeTool.tsx:241-249 | every layout but the absolute one ends in the spacing's gap class; the sidebar layouts start with the three-column grid, the 2x2 grid with the two-column grid, the single column with the flex column |
| WireframePreview.Arrange | components/WireframeTool.tsx:245-277 | every layout keeps all nodes in order; the sidebar layouts alone split into two columns; left: the sidebar holds the first `ceil(n/3)`; right: the sidebar holds the last `ceil(n/3)` |
| WireframePreview.Compose | components/WireframeTool.tsx:241-277 | the preview shows the title and, in document order, the components rendered in list order; at most the selected known node has the selection ring |
| WireframePreview.ClickOutcome | components/WireframeTool.tsx:156-161 | clicking component i fires only its own handler and selects i (propagation stops); an unknown node has no handler, so the background's deselect fires; the background deselects |
| StyleSuggestions.CuratedNames | components/StyleSuggestions.tsx:39-97 | a type string has suggestions exactly when it is one of `header`, `button`, `input`, `card`, `image_placeholder` |
| StyleSuggestions.ListsFor | components/StyleSuggestions.tsx:39-98 | lists exist exactly for the header, button, input, card and image placeholder kinds, each with at least three classes and one declaration |
| StyleSuggestions.Table | components/StyleSuggestions.tsx:39-98 | a type string has lists exactly when it has curated suggestions; an unknown string has none |
| StyleSuggestions.SuggestionLists | components/StyleSuggestions.tsx:36-98 | the `switch`, including the in-place push of the dark card entry, builds exactly the table's lists |
| StyleSuggestions.GenerateSuggestions | components/StyleSuggestions.tsx:35-104 | `null` exactly for types without curated suggestions; otherwise both lists joined with `'\n'` in list order |
| StyleSuggestions.CardCounts | components/StyleSuggestions.tsx:73-81 | the dark card list is the light one plus `backdrop-blur-sm bg-white/5` last: 4 entries against 3 |
| StyleSuggestions.CountsThemeIndependent | components/StyleSuggestions.tsx:40-72 | for header, button, input and image_placeholder the theme changes no entry count |
| StyleSuggestions.ImageThemeIndependent | components/StyleSuggestions.tsx:86-94 | the image placeholder's suggestions are the same for both themes |
| StyleSuggestions.ThemeChangesOnlyDesignated | components/StyleSuggestions.tsx:47-83 | the theme changes exactly the header shadow, the button's second declaration, the input's inner-shadow class and inset shadow, and the card's shadow; all other compared entries agree |
| StyleSuggestions.SuggestionsPanel | components/StyleSuggestions.tsx:26-125 | no component gives the selection prompt; a type without suggestions gives the empty notice; otherwise the type label and the joined lists |
| WireframeTool.Rows | components/WireframeTool.tsx:117 | the filtered rows are never more than the entries |
| WireframeTool.RowsMembership | components/WireframeTool.tsx:117 | a row is shown exactly for an entry whose value is neither absent, null nor `''` |
| WireframeTool.RowsAppend | components/WireframeTool.tsx:117 | the filter works entry by entry, so rows keep the entry order |
| WireframeTool.RowsEmpty | components/WireframeTool.tsx:117-118 | no rows exactly when no entry passes the filter |
| WireframeTool.GroupOf | components/WireframeTool.tsx:115-118 | a group is hidden exactly when its data is absent or every entry is filtered out; a shown group carries its title and exactly the filtered rows of its entries |
| WireframeTool.Present | components/WireframeTool.tsx:136-138 | at most as many groups are shown as are given |
| WireframeTool.PropertiesInspector | components/WireframeTool.tsx:99-141 | the click prompt exactly when nothing is selected; otherwise the type with underscores as spaces and at most three non-empty groups |
| WireframeTool.PropertiesGroupShown | components/WireframeTool.tsx:136 | the Properties group shows exactly when some property is set (text, placeholder and background colour non-empty) |
| WireframeTool.PositionGroupShown | components/WireframeTool.tsx:137 | the Position group shows exactly when there is a position, with top, left, width and height in order |
| WireframeTool.StyleGroupShown | components/WireframeTool.tsx:138 | the Style group shows exactly when a style has a non-empty radius or shadow, or an opacity |
| WireframeTool.InspectorGroups | components/WireframeTool.tsx:136-138 | the shown groups are exactly the present ones, in the order Properties, Position, Style |
| WireframeTool.SelectedComponent | components/WireframeTool.tsx:333 | a component exactly when an index is selected, a layout is shown and the index is in range; it is the component at that index |
| WireframeTool.FailureText | components/WireframeTool.tsx:319 | `Error: <message>` for an `Error`, the fixed fallback text otherwise |
| WireframeTool.WireframeState.constructor | components/WireframeTool.tsx:282-289 | empty prompt, no layout, no selection, Properties tab, clean style |
| WireframeTool.WireframeState.SetPrompt | components/WireframeTool.tsx:344 | only the prompt changes |
| WireframeTool.WireframeState.BeginSubmit | components/WireframeTool.tsx:292-313 | an empty prompt only sets the error; otherwise the error, layout and selection are cleared, loading starts, the tab resets to Properties, and the request names `gemini-2.5-pro`, the prompt and JSON output; the page invariant is kept |
| WireframeTool.WireframeState.FinishSubmit | components/WireframeTool.tsx:315-323 | a parsed layout is stored, or the failure text is shown with no layout; loading stops and nothing is selected |
| WireframeTool.WireframeState.HandleSubmit | components/WireframeTool.tsx:292-324 | the two steps together; afterwards the inspector asks for a click again |
| WireframeTool.WireframeState.Click | components/WireframeTool.tsx:154-161 | the selection becomes the last `onSelect` argument: i for a known component i, none for an unknown one or the background; nothing else changes |
| WireframeTool.WireframeState.SelectTab | components/WireframeTool.tsx:378-386 | only the tab changes; the selection is kept |
| WireframeTool.WireframeState.SetRenderStyle | components/WireframeTool.tsx:360-361 | only the render style changes; the selection is kept |
| WireframeTool.WireframeState.RightPanel | components/WireframeTool.tsx:388-400 | Properties: the inspector of the selected component; Suggestions: the prompt exactly without a selection, else the table's joined lists for its type and the layout's theme; JSON: the layout |
| ChatBot.BotText | components/ChatBot.tsx:122-133 | the bot turn reads `'...'` until some chunk with text has arrived, then the running text |
| ChatBot.SetLastBotText | components/ChatBot.tsx:128-135 | the log keeps its length and every turn but the last; the last is rewritten only when it is a bot turn |
| ChatBot.PartsFor | components/ChatBot.tsx:104-117 | one part for the attachment, if any, and one for the text unless it is blank; the attachment's inline data exactly at index 0 and nowhere else; the untrimmed text last |
| ChatBot.ErrorTurn | components/ChatBot.tsx:139-141 | a bot turn reading `Error: ` and the message or the fallback |
| ChatBot.ReplyTurnCounts | components/ChatBot.tsx:99-141 | a send appends one or two bot turns, two exactly for a stream that breaks off; whenever an error is shown the last turn reports it |
| ChatBot.ReplyTurns | components/ChatBot.tsx:120-141 | a send appends at least one turn, all from the bot; a stream starts with the bot turn of its concatenated chunks; a missing session or a rejected request appends exactly one `Error: ` turn |
| ChatBot.StreamedText | components/ChatBot.tsx:125-137 | the bot turn is `'...'` exactly when no chunk had text, otherwise all chunk texts concatenated in order |
| ChatBot.SpinnerVisible | components/ChatBot.tsx:165 | the spinner shows only while loading, and while loading always shows when the log has no bot turn |
| ChatBot.PlaceholderHidesSpinner | components/ChatBot.tsx:165 | while the placeholder is the last turn, the spinner is hidden |
| ChatBot.SpinnerReturnsDuringStream | components/ChatBot.tsx:165 | for any log without a bot turn ending in `...`: the spinner is hidden while the placeholder is pending and shows again once a non-empty reply not ending in `...` replaces it |
| ChatBot.ChatState.constructor | components/ChatBot.tsx:31-45 | the session is ready exactly when creation did not throw; otherwise its message or 'Failed to initialize chat.' is shown |
| ChatBot.ChatState.SetInput | components/ChatBot.tsx:205 | only the input changes |
| ChatBot.ChatState.RemoveAttachment | components/ChatBot.tsx:80-82 | only the attachment is cleared |
| ChatBot.ChatState.HandleFileChange | components/ChatBot.tsx:59-78 | a file over 4 MiB only sets the size error and keeps the attachment; otherwise the error clears and the file becomes the attachment, or the read error shows and the attachment stays |
| ChatBot.ChatState.RecordFailure | components/ChatBot.tsx:138-141 | the error text is set and one error turn is appended after every existing turn |
| ChatBot.ChatState.ConsumeStream | components/ChatBot.tsx:122-137 | the placeholder is appended and, after the stream, it holds the concatenated chunk texts; no turn is added or removed while streaming |
| ChatBot.ChatState.ReceiveReply | components/ChatBot.tsx:120-141 | the log grows by exactly the turns of the reply, and the error is that of the reply |
| ChatBot.ChatState.HandleSendMessage | components/ChatBot.tsx:84-145 | no-op for a blank input without attachment or while loading; otherwise the user turn with the untrimmed input, then the reply's turns; input and attachment cleared; loading off; parts sent only to a ready session |
| QuickTools.RequestFor | components/QuickTools.tsx:46-47 | the researcher uses `gemini-2.5-flash` with Google Search; otherwise `gemini-flash-lite-latest` with no config |
| QuickTools.ChunksOf | components/QuickTools.tsx:58 | the first candidate's grounding chunks, or the empty list when any link of the chain is missing |
| QuickTools.Webs | components/QuickTools.tsx:60 | one page per chunk, in order |
| QuickTools.KeepGrounded | components/QuickTools.tsx:61 | only pages with a non-empty address and title are kept, never more than given |
| QuickTools.ToSources | components/QuickTools.tsx:62 | one source per page, carrying its address and title |
| QuickTools.ExtractSources | components/QuickTools.tsx:58-62 | never more sources than chunks; every source has a non-empty address and title |
| QuickTools.KeepGroundedMembership | components/QuickTools.tsx:61 | a page is kept exactly when it is given and grounded |
| QuickTools.KeepGroundedAppend | components/QuickTools.tsx:61 | the filter works page by page, keeping their order |
| QuickTools.ExtractMembership | components/QuickTools.tsx:58-62 | a source is extracted exactly for a chunk whose page has that non-empty address and title |
| QuickTools.ExtractAppend | components/QuickTools.tsx:58-62 | extraction of concatenated chunk lists is the concatenation of the extractions: the original order is kept |
| QuickTools.NoMetadataNoSources | components/QuickTools.tsx:58 | missing candidates or metadata yield no sources |
| QuickTools.QuickToolsState.constructor | components/QuickTools.tsx:10-15 | the researcher tool with everything empty |
| QuickTools.QuickToolsState.SetPrompt | components/QuickTools.tsx:108-109 | only the prompt changes |
| QuickTools.QuickToolsState.ResetState | components/QuickTools.tsx:17-23 | prompt, result, sources and error empty, loading off; the tool is kept |
| QuickTools.QuickToolsState.HandleToolChange | components/QuickTools.tsx:25-28 | the tool is switched and everything else is reset |
| QuickTools.QuickToolsState.HandleSubmit | components/QuickTools.tsx:30-71 | an empty prompt only sets the error; otherwise the request for the active tool goes out, the answer text is shown, sources are extracted only for the researcher (so the suggestion tool ends with none), a failure shows its message with an empty result and sources; loading ends off |

## Left out

- Remote calls: content generation, chat session creation, streaming, API keys. The model takes their outcome as a parameter: a parsed layout or a thrown value, a reply stream of chunk texts, an optional failure at creation.
- System instruction, response schema and chat model name. These are fixed request texts, and the model does not carry them.
- `JSON.parse`. It is an abstract outcome. The source trusts the parsed object without validation, so no validator is modelled. Component types remain arbitrary strings.
- Concurrency of `await` and `for await`. Each handler is one sequential step, or two steps for the wireframe submit. Chunks arrive only while the send is in flight.
- A second wireframe submit while one is in flight. The button is disabled then, and the model does not track it.
- A tool change during a request in flight. When that request completes in the source, it writes into the reset state; the model does not capture this.
- Browser glue: the clipboard, the timeout that resets "Copied!", markdown download, `scrollIntoView` and clearing the file input.
- `FileReader`. Reading a file is a given payload or a read failure. The data-URL split `result.split(',')[1]` is not modelled: the payload is given directly.
- Presentation:
  - the JSX structure, hover effects and the meaning of Tailwind classes
  - the whitespace between class tokens: classes are kept as an ordered list of the source's literal groups
  - the two diagonal lines inside the sketch image placeholder
  - `capitalize`, the camel-case splitting of property labels, and `String(value)` for numbers
- JSON key order and `JSON.stringify`. Properties are listed in declaration order, and the JSON tab carries the layout value itself.
- Out-of-set enumeration strings. The response schema declares `theme`, `spacing`, `layout`, `variant`, `size`, `color`, `alignment`, `fontWeight` and `fontSize` as plain strings (components/WireframeTool.tsx:48-50, 63-69), and the parsed object is not validated. The model types these fields as closed enumerations of the listed options, so what the source does with any other string is not modelled. Examples are the `themeClasses.dark` and `'gap-4'` fallbacks (:150, :241), the `undefined` height or font-size token for an unknown size (:193, :212), and class tokens such as `text-justify` built from an unknown alignment (:210).
- `ImageTools.tsx`, `UXGenius.tsx`, `icons.tsx`, `App.tsx`, `constants.ts` and `Spinner`. These files are not part of this model.
- Common.SplitJoin: not discharged for the suggestion literals. The statement that no suggestion entry contains a newline is not proved, so the lemma states the round trip for any newline-free list.

## Behaviour worth noting

- **Failed generation.** A failed generation ends with no selection, because `handleSubmit` clears the selection before the request (components/WireframeTool.tsx:300).
- **Unknown component type.** Clicking the node of an unknown-type component clears the selection. That node has no click handler (components/WireframeTool.tsx:196, 236), so the click reaches the background handler (`WireframePreview.ClickOutcome`).
- **Chat spinner.** The spinner returns once streamed text replaces the `'...'` placeholder. The condition at components/ChatBot.tsx:165 only looks for a bot turn ending in `'...'` (`ChatBot.SpinnerReturnsDuringStream`). An earlier bot reply ending in an ellipsis hides it for later sends too.
