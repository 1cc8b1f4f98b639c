/** `analyze_avatar_ultra_detailed` of the analysis client: research the segment,
    ask the language model for the analysis, clean up and parse its answer, and
    fall back to the built-in analysis whenever any of that fails. The model, the
    search engine, page fetching, JSON parsing and the clock are parameters. */
module Client {
  import opened Text
  import opened Values
  import opened Research
  import opened Fallback

  const JsonFence: string := "```json"
  const Fence: string := "```"

  /** The services the client talks to. `generate` is `None` when no model is
      configured; otherwise it gives the text of the model's reply to a prompt,
      `None` when the call raises or the reply has no text. `parseJson` is
      `json.loads`, `None` standing for JSONDecodeError. `now` is `time.time()`. */
  datatype Services = Services(
    search: string -> Option<seq<Anchor>>,
    fetch: string -> Option<string>,
    generate: Option<string -> Option<string>>,
    parseJson: string -> Option<Value>,
    parseFloat: string -> Option<real>,
    repr: Value -> string,
    now: real)

  // ---------------------------------------------------------------- the reply

  /** The clean-up of the reply before parsing: strip whitespace, drop a leading
      "```json", then drop a trailing "```". */
  function StripFences(text: string): (r: string)
    ensures |r| <= |Strip(text)|
    ensures !StartsWith(Strip(text), JsonFence) && !EndsWith(Strip(text), Fence) ==> r == Strip(text)
  {
    var t := Strip(text);
    var t' := if StartsWith(t, JsonFence) then t[|JsonFence|..] else t;
    if EndsWith(t', Fence) then t'[..|t'| - |Fence|] else t'
  }

  /** A body fenced as a JSON code block comes out exactly, whatever it holds. */
  lemma FencedRoundTrip(body: string)
    ensures StripFences(JsonFence + body + Fence) == body
  {
    var s := JsonFence + body + Fence;
    assert IsStripped(s);
    assert s[..|JsonFence|] == JsonFence;
    var t' := s[|JsonFence|..];
    assert t' == body + Fence;
    assert t'[|t'| - |Fence|..] == Fence;
    assert t'[..|t'| - |Fence|] == body;
  }

  /** A lone opening "```json" is dropped even when the closing fence is missing. */
  lemma LeadingFenceDropped(body: string)
    requires |body| == 0 || !IsSpace(body[|body| - 1])
    requires !EndsWith(body, Fence)
    ensures StripFences(JsonFence + body) == body
  {
    var s := JsonFence + body;
    assert IsStripped(s);
    assert s[..|JsonFence|] == JsonFence;
    assert s[|JsonFence|..] == body;
  }

  /** A lone closing "```" is dropped even when the opening fence is missing. */
  lemma TrailingFenceDropped(body: string)
    requires |body| == 0 || !IsSpace(body[0])
    requires !StartsWith(body, JsonFence)
    ensures StripFences(body + Fence) == body
  {
    var s := body + Fence;
    ClosedStripped(body);
    StillUntagged(body);
    assert s[..|s| - 3] == body;
  }

  lemma ClosedStripped(body: string)
    requires |body| == 0 || !IsSpace(body[0])
    ensures Strip(body + Fence) == body + Fence
  {
    var s := body + Fence;
    assert s[|s| - 1] == '`';
    assert s[0] == if |body| == 0 then '`' else body[0];
  }

  /** Closing a text that does not open with "```json" does not make it open so. */
  lemma StillUntagged(body: string)
    requires !StartsWith(body, JsonFence)
    ensures !StartsWith(body + Fence, JsonFence)
    ensures EndsWith(body + Fence, Fence)
  {
    var s := body + Fence;
    if 4 <= |body| < 7 {
      assert s[6] == '`';
    } else if |body| >= 7 {
      assert s[..7] == body[..7];
    }
    assert s[|s| - 3..] == Fence;
  }

  /** A code block opened without the "json" tag keeps its opening fence, so the
      text handed to the parser still starts with "```". */
  lemma BareFenceKept(body: string)
    requires !StartsWith(body, "json")
    ensures StripFences(Fence + body + Fence) == Fence + body
  {
    var s := Fence + body + Fence;
    assert IsStripped(s);
    assert !StartsWith(s, JsonFence) by {
      if 0 < |body| < 4 {
        assert s[6] == '`';
      } else if |body| >= 4 {
        assert s[3..7] == body[..4] && JsonFence[3..7] == "json";
      }
    }
    assert s[|s| - 3..] == Fence;
    assert s[..|s| - 3] == Fence + body;
  }

  // --------------------------------------------------------------- the prompt

  /** `data.get('segmento', data.get('nicho', ''))`: the segment the client
      researches and quotes. */
  function ClientSegment(data: Assoc<Value>): (v: Value)
    ensures "segmento" in Keys(data) ==> ("segmento", v) in data
    ensures "segmento" !in Keys(data) && "nicho" in Keys(data) ==> ("nicho", v) in data
    ensures "segmento" !in Keys(data) && "nicho" !in Keys(data) ==> v == Str("")
  {
    Get(data, "segmento", Get(data, "nicho", Str("")))
  }

  /** The labels of the request fields quoted in the prompt, with the key each reads. */
  const ParameterLabels: seq<(string, string)> := [
    ("- Produto: ", "produto"),
    ("- Preço: R$ ", "preco"),
    ("- Público: ", "publico"),
    ("- Objetivo de Receita: R$ ", "objetivo_receita"),
    ("- Orçamento Marketing: R$ ", "orcamento_marketing")
  ]

  /** One line per quoted field: the label and `str(data.get(key, ''))`. */
  function ParameterLines(data: Assoc<Value>, repr: Value -> string): (lines: seq<string>)
    ensures |lines| == 1 + |ParameterLabels|
    ensures lines[0] == "- Segmento: " + Display(ClientSegment(data), repr)
    ensures forall i :: 0 <= i < |ParameterLabels| ==>
      lines[i + 1] == ParameterLabels[i].0 + Display(Get(data, ParameterLabels[i].1, Str("")), repr)
  {
    ["- Segmento: " + Display(ClientSegment(data), repr)]
    + seq(|ParameterLabels|, i requires 0 <= i < |ParameterLabels| =>
        ParameterLabels[i].0 + Display(Get(data, ParameterLabels[i].1, Str("")), repr))
  }

  function JoinLines(lines: seq<string>): string {
    if |lines| == 0 then "" else lines[0] + "\n" + JoinLines(lines[1..])
  }

  /** The part of `_create_ultra_detailed_prompt` that depends on the request:
      the quoted fields, then the research summary. */
  function Prompt(data: Assoc<Value>, research: ResearchData, repr: Value -> string): string {
    "DADOS DO PRODUTO/SERVIÇO:\n" + JoinLines(ParameterLines(data, repr)) + "\nDADOS DE PESQUISA:\n" + Digest(research)
  }

  /** A field the request leaves out is quoted as an empty value. */
  lemma MissingFieldQuotedEmpty(data: Assoc<Value>, repr: Value -> string, i: nat)
    requires i < |ParameterLabels| && ParameterLabels[i].1 !in Keys(data)
    ensures ParameterLines(data, repr)[i + 1] == ParameterLabels[i].0
  {
  }

  // ------------------------------------------------------------ the outcome

  /** The reply is used: it has text, the cleaned text parses, and the parsed
      value is a JSON object (storing metadata into anything else raises). */
  predicate Accepted(reply: Option<string>, parseJson: string -> Option<Value>) {
    && reply.Some? && |reply.value| > 0
    && parseJson(StripFences(reply.value)).Some?
    && parseJson(StripFences(reply.value)).value.Dict?
  }

  /** The parsed analysis with the research and the time stored into it. */
  function WithMetadata(fields: Assoc<Value>, research: ResearchData, now: real): Assoc<Value> {
    Put(Put(fields, "research_data", ResearchValue(research)), "generated_at", Float(now))
  }

  /** What the client returns for a reply: the parsed analysis with its metadata
      when the reply is accepted, the fallback otherwise. */
  function Respond(reply: Option<string>, parseJson: string -> Option<Value>, research: ResearchData,
                   now: real, fallback: Value): (r: Value)
    ensures !Accepted(reply, parseJson) ==> r == fallback
  {
    if Accepted(reply, parseJson) then
      Dict(WithMetadata(parseJson(StripFences(reply.value)).value.fields, research, now))
    else fallback
  }

  /** An accepted reply keeps every field the model produced, except that
      `research_data` and `generated_at` are set to the research and the time. */
  lemma RespondAccepted(reply: Option<string>, parseJson: string -> Option<Value>, research: ResearchData,
                        now: real, fallback: Value)
    requires Accepted(reply, parseJson)
    ensures var r := Respond(reply, parseJson, research, now, fallback);
      var parsed := parseJson(StripFences(reply.value)).value;
      && r.Dict?
      && Lookup(r.fields, "research_data") == Some(ResearchValue(research))
      && Lookup(r.fields, "generated_at") == Some(Float(now))
      && (forall k :: k != "research_data" && k != "generated_at" ==> Lookup(r.fields, k) == Lookup(parsed.fields, k))
  {
    var parsed := parseJson(StripFences(reply.value)).value;
    var once := Put(parsed.fields, "research_data", ResearchValue(research));
    assert "generated_at" != "research_data";
    assert Lookup(once, "research_data") == Some(ResearchValue(research));
  }

  /** When the fallback carries no `research_data`, the answer has that field
      exactly when the model's reply was used. */
  lemma RespondResearchIff(reply: Option<string>, parseJson: string -> Option<Value>, research: ResearchData,
                           now: real, fallback: Value)
    requires fallback.Dict? && "research_data" !in Keys(fallback.fields)
    ensures var r := Respond(reply, parseJson, research, now, fallback);
      r.Dict? && ("research_data" in Keys(r.fields) <==> Accepted(reply, parseJson))
  {
    if Accepted(reply, parseJson) {
      RespondAccepted(reply, parseJson, research, now, fallback);
    }
  }

  /** The research of a segment: the six queries, each with its results. */
  function SegmentResearch(data: Assoc<Value>, s: Services): (research: ResearchData)
    ensures Keys(research) == QueryPlan(Display(ClientSegment(data), s.repr))
  {
    Gather(QueryPlan(Display(ClientSegment(data), s.repr)), s.search, s.fetch)
  }

  /** The answer for a configured model, given the fallback to use. */
  function ModelAnalysis(data: Assoc<Value>, s: Services, fallback: Value): Value
    requires s.generate.Some?
  {
    var research := SegmentResearch(data, s);
    Respond(s.generate.value(Prompt(data, research, s.repr)), s.parseJson, research, s.now, fallback)
  }

  /** The model's reply was used. */
  predicate ModelUsed(data: Assoc<Value>, s: Services) {
    s.generate.Some? && Accepted(s.generate.value(Prompt(data, SegmentResearch(data, s), s.repr)), s.parseJson)
  }

  /** `analyze_avatar_ultra_detailed(data)`. */
  function Analysis(data: Assoc<Value>, s: Services): (r: Value)
    ensures s.generate.None? ==> r == FallbackAnalysis(data, s.parseFloat, s.repr)
  {
    var fallback := FallbackAnalysis(data, s.parseFloat, s.repr);
    if s.generate.None? then fallback else ModelAnalysis(data, s, fallback)
  }

  /** With a configured model the answer carries the research exactly when the
      reply was used, and is the fallback otherwise. */
  lemma ModelAnalysisOutcome(data: Assoc<Value>, s: Services, fallback: Value)
    requires s.generate.Some?
    requires fallback.Dict? && "research_data" !in Keys(fallback.fields)
    ensures var r := ModelAnalysis(data, s, fallback);
      && r.Dict?
      && ("research_data" in Keys(r.fields) <==> ModelUsed(data, s))
      && (!ModelUsed(data, s) ==> r == fallback)
  {
    var research := SegmentResearch(data, s);
    RespondResearchIff(s.generate.value(Prompt(data, research, s.repr)), s.parseJson, research, s.now, fallback);
  }

  /** The client never fails: it answers with a JSON object, which carries the
      research exactly when a configured model gave a usable reply, and is the
      fallback analysis otherwise. */
  lemma AnalysisOutcome(data: Assoc<Value>, s: Services)
    ensures var r := Analysis(data, s);
      && r.Dict?
      && ("research_data" in Keys(r.fields) <==> ModelUsed(data, s))
      && (!ModelUsed(data, s) ==> r == FallbackAnalysis(data, s.parseFloat, s.repr))
  {
    var fallback := FallbackAnalysis(data, s.parseFloat, s.repr);
    FallbackWithoutResearch(data, s.parseFloat, s.repr);
    if s.generate.Some? {
      ModelAnalysisOutcome(data, s, fallback);
    }
  }

  /** The client's entry point, researching the segment query by query. */
  method AnalyzeAvatar(data: Assoc<Value>, s: Services) returns (analysis: Value)
    ensures analysis == Analysis(data, s)
  {
    var fallback := FallbackAnalysis(data, s.parseFloat, s.repr);
    if s.generate.None? {
      return fallback;
    }
    var research := ResearchSegment(Display(ClientSegment(data), s.repr), s.search, s.fetch);
    var reply := s.generate.value(Prompt(data, research, s.repr));
    analysis := Respond(reply, s.parseJson, research, s.now, fallback);
  }
}
