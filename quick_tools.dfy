/** The quick tools tab: a researcher mode whose answers are grounded in web
    search results, whose sources are extracted from the response, and a fast
    suggestion mode; both share one prompt and one result area. */
module QuickTools {
  import opened Common

  datatype Tool = Researcher | Suggest

  /** A cited web page. */
  datatype GroundingSource = GroundingSource(uri: string, title: string)

  // The part of a generation response the tab reads.
  datatype Web = Web(uri: Option<string>, title: Option<string>)
  datatype GroundingChunk = GroundingChunk(web: Option<Web>)
  datatype Metadata = Metadata(groundingChunks: Option<seq<GroundingChunk>>)
  datatype Candidate = Candidate(groundingMetadata: Option<Metadata>)
  datatype Response = Response(text: string, candidates: Option<seq<Candidate>>)

  /** The generation config: the Google Search tool, or none. */
  datatype Config = SearchGrounded | NoConfig

  datatype ToolRequest = ToolRequest(model: string, contents: string, config: Config)

  /** How the remote call ends. */
  datatype Outcome = Answered(response: Response) | Failed(err: Thrown)

  const PromptRequired := "Please enter a prompt."
  const UnknownError := "An unknown error occurred."
  const ResearchModel := "gemini-2.5-flash"
  const SuggestModel := "gemini-flash-lite-latest"

  /** The model and config chosen for the active tool. */
  function RequestFor(tool: Tool, prompt: string): (r: ToolRequest)
    ensures r.contents == prompt
    ensures r.config == SearchGrounded <==> tool == Researcher
    ensures r.model == ResearchModel <==> tool == Researcher
    ensures r.model == SuggestModel <==> tool == Suggest
  {
    ToolRequest(if tool == Researcher then ResearchModel else SuggestModel, prompt,
                if tool == Researcher then SearchGrounded else NoConfig)
  }

  // ---------------------------------------------------------------------------
  // Source extraction

  /** `response.candidates?.[0]?.groundingMetadata?.groundingChunks || []`. */
  function ChunksOf(r: Response): (cs: seq<GroundingChunk>)
    ensures (r.candidates.None? || r.candidates.value == []
             || r.candidates.value[0].groundingMetadata.None?
             || r.candidates.value[0].groundingMetadata.value.groundingChunks.None?) ==> cs == []
    ensures r.candidates.Some? && r.candidates.value != []
            && r.candidates.value[0].groundingMetadata.Some?
            && r.candidates.value[0].groundingMetadata.value.groundingChunks.Some? ==>
      cs == r.candidates.value[0].groundingMetadata.value.groundingChunks.value
  {
    if r.candidates.Some? && r.candidates.value != []
       && r.candidates.value[0].groundingMetadata.Some?
       && r.candidates.value[0].groundingMetadata.value.groundingChunks.Some?
    then r.candidates.value[0].groundingMetadata.value.groundingChunks.value
    else []
  }

  /** `.map(chunk => chunk.web)`. */
  function Webs(chunks: seq<GroundingChunk>): (ws: seq<Option<Web>>)
    ensures |ws| == |chunks| && forall i :: 0 <= i < |chunks| ==> ws[i] == chunks[i].web
  {
    seq(|chunks|, i requires 0 <= i < |chunks| => chunks[i].web)
  }

  /** The filter `web?.uri && web.title`: a page with a non-empty address and title. */
  predicate Grounded(w: Option<Web>)
  {
    w.Some? && Truthy(w.value.uri) && Truthy(w.value.title)
  }

  /** `.filter(web => web?.uri && web.title)`. */
  function KeepGrounded(ws: seq<Option<Web>>): (r: seq<Option<Web>>)
    ensures |r| <= |ws|
    ensures forall i :: 0 <= i < |r| ==> Grounded(r[i])
  {
    if ws == [] then []
    else (if Grounded(ws[0]) then [ws[0]] else []) + KeepGrounded(ws[1..])
  }

  /** `.map(web => ({ uri: web.uri!, title: web.title! }))`. */
  function ToSources(ws: seq<Option<Web>>): (r: seq<GroundingSource>)
    requires forall i :: 0 <= i < |ws| ==> Grounded(ws[i])
    ensures |r| == |ws|
    ensures forall i :: 0 <= i < |ws| && Grounded(ws[i]) ==> r[i] == GroundingSource(ws[i].value.uri.value, ws[i].value.title.value)
  {
    seq(|ws|, i requires 0 <= i < |ws| && Grounded(ws[i]) => GroundingSource(ws[i].value.uri.value, ws[i].value.title.value))
  }

  /** The extraction chain of the researcher tool. */
  function ExtractSources(chunks: seq<GroundingChunk>): (r: seq<GroundingSource>)
    ensures |r| <= |chunks|
    ensures forall i :: 0 <= i < |r| ==> r[i].uri != "" && r[i].title != ""
  {
    ToSources(KeepGrounded(Webs(chunks)))
  }

  lemma {:induction false} KeepGroundedMembership(ws: seq<Option<Web>>, w: Option<Web>)
    ensures w in KeepGrounded(ws) <==> w in ws && Grounded(w)
  {
    if ws != [] {
      KeepGroundedMembership(ws[1..], w);
      assert ws == [ws[0]] + ws[1..];
    }
  }

  lemma {:induction false} KeepGroundedAppend(a: seq<Option<Web>>, b: seq<Option<Web>>)
    ensures KeepGrounded(a + b) == KeepGrounded(a) + KeepGrounded(b)
  {
    if a == [] {
      assert a + b == b;
    } else {
      assert (a + b)[1..] == a[1..] + b;
      KeepGroundedAppend(a[1..], b);
    }
  }

  /** A source is extracted exactly for a chunk whose page has that non-empty
      address and title. */
  lemma ExtractMembership(chunks: seq<GroundingChunk>, u: string, t: string)
    ensures GroundingSource(u, t) in ExtractSources(chunks) <==>
      u != "" && t != "" && GroundingChunk(Some(Web(Some(u), Some(t)))) in chunks
  {
    var ws := Webs(chunks);
    var kept := KeepGrounded(ws);
    var w := Some(Web(Some(u), Some(t)));
    KeepGroundedMembership(ws, w);
    if GroundingSource(u, t) in ExtractSources(chunks) {
      var i :| 0 <= i < |kept| && ExtractSources(chunks)[i] == GroundingSource(u, t);
      assert kept[i] == w;
      var j :| 0 <= j < |ws| && ws[j] == w;
      assert chunks[j] == GroundingChunk(w);
    }
    if u != "" && t != "" && GroundingChunk(w) in chunks {
      var j :| 0 <= j < |chunks| && chunks[j] == GroundingChunk(w);
      assert ws[j] == w;
      var i :| 0 <= i < |kept| && kept[i] == w;
      assert ExtractSources(chunks)[i] == GroundingSource(u, t);
    }
  }

  /** The extraction works chunk by chunk, so the sources keep the order of the chunks. */
  lemma ExtractAppend(a: seq<GroundingChunk>, b: seq<GroundingChunk>)
    ensures ExtractSources(a + b) == ExtractSources(a) + ExtractSources(b)
  {
    assert Webs(a + b) == Webs(a) + Webs(b);
    KeepGroundedAppend(Webs(a), Webs(b));
  }

  /** A response without candidates, metadata or chunks has no sources. */
  lemma NoMetadataNoSources(r: Response)
    requires r.candidates.None? || r.candidates.value == [] || r.candidates.value[0].groundingMetadata.None?
    ensures ExtractSources(ChunksOf(r)) == []
  {
  }

  // ---------------------------------------------------------------------------
  // Page state

  class QuickToolsState {
    var activeTool: Tool
    var prompt: string
    var loading: bool
    var result: string
    var sources: seq<GroundingSource>
    var error: string

    constructor()
      ensures activeTool == Researcher && prompt == "" && !loading && result == "" && sources == [] && error == ""
    {
      activeTool := Researcher;
      prompt := "";
      loading := false;
      result := "";
      sources := [];
      error := "";
    }

    method SetPrompt(p: string)
      modifies this
      ensures prompt == p
      ensures activeTool == old(activeTool) && loading == old(loading) && result == old(result)
      ensures sources == old(sources) && error == old(error)
    {
      prompt := p;
    }

    /** `resetState`: everything but the active tool back to empty. */
    method ResetState()
      modifies this
      ensures prompt == "" && result == "" && sources == [] && error == "" && !loading
      ensures activeTool == old(activeTool)
    {
      prompt := "";
      result := "";
      sources := [];
      error := "";
      loading := false;
    }

    /** `handleToolChange`: switch the tool and reset the rest. */
    method HandleToolChange(tool: Tool)
      modifies this
      ensures activeTool == tool
      ensures prompt == "" && result == "" && sources == [] && error == "" && !loading
    {
      activeTool := tool;
      ResetState();
    }

    /** `handleSubmit` with the remote outcome given. Returns the request when
        one goes out. */
    method HandleSubmit(outcome: Outcome) returns (request: Option<ToolRequest>)
      modifies this
      ensures activeTool == old(activeTool) && prompt == old(prompt)
      // an empty prompt only reports the error
      ensures old(prompt) == "" ==>
        request.None? && error == PromptRequired
        && loading == old(loading) && result == old(result) && sources == old(sources)
      ensures old(prompt) != "" ==> request == Some(RequestFor(activeTool, prompt)) && !loading
      ensures old(prompt) != "" && outcome.Answered? ==>
        result == outcome.response.text && error == ""
        && sources == (if activeTool == Researcher then ExtractSources(ChunksOf(outcome.response)) else [])
      ensures old(prompt) != "" && outcome.Failed? ==>
        result == "" && sources == [] && error == MessageOr(outcome.err, UnknownError)
      // the suggestion tool never shows sources after a submit
      ensures old(prompt) != "" && activeTool == Suggest ==> sources == []
    {
      if prompt == "" {
        error := PromptRequired;
        return None;
      }
      loading := true;
      error := "";
      result := "";
      sources := [];
      request := Some(RequestFor(activeTool, prompt));
      match outcome {
        case Answered(response) =>
          result := response.text;
          if activeTool == Researcher {
            sources := ExtractSources(ChunksOf(response));
          }
        case Failed(err) =>
          error := MessageOr(err, UnknownError);
      }
      loading := false;
    }
  }
}
