/** The request handling of the analysis routes: `analyze_market` checks and
    completes the request, hands it to the analysis service and turns the result
    into an HTTP status; `get_analysis_summary` extracts a short summary from a
    stored analysis. The analysis service is a parameter, and any exception the
    handlers catch is an outcome of its own. */
module Route {
  import opened Text
  import opened Values

  /** An HTTP answer: a status and a JSON body. */
  datatype Response = Response(status: nat, body: Value)

  /** `jsonify({"error": message})`. */
  function ErrorBody(message: Value): Value {
    Dict([("error", message)])
  }

  // ---------------------------------------------------------- analyze_market

  const SegmentRequired: string := "Segmento é obrigatório"
  const InternalError: string := "Ocorreu um erro interno no servidor ao processar a análise."

  /** `data.get('segmento') or data.get('nicho')`. */
  function RequestSegment(data: Assoc<Value>): (v: Value)
    ensures Truthy(Get(data, "segmento", Null)) ==> v == Get(data, "segmento", Null)
    ensures !Truthy(Get(data, "segmento", Null)) ==> v == Get(data, "nicho", Null)
  {
    var segmento := Get(data, "segmento", Null);
    if Truthy(segmento) then segmento else Get(data, "nicho", Null)
  }

  /** A usable segment comes from `segmento` or, failing that, from `nicho`. */
  lemma SegmentResolution(data: Assoc<Value>)
    ensures Truthy(RequestSegment(data))
      <==> Truthy(Get(data, "segmento", Null)) || Truthy(Get(data, "nicho", Null))
  {
  }

  /** The request fields forwarded to the analysis, with the value each gets when absent. */
  const FieldDefaults: seq<(string, Value)> := [
    ("produto", Str("Produto Digital")),
    ("preco", Str("997.0")),
    ("publico", Str("Empreendedores e Profissionais Liberais")),
    ("objetivo_receita", Str("100000")),
    ("orcamento_marketing", Str("10000"))
  ]

  /** The six-key payload handed to the analysis: the segment, then each field
      as supplied or, when the request leaves it out, its default. */
  function Payload(data: Assoc<Value>, segment: Value): (p: Assoc<Value>)
    ensures |p| == 1 + |FieldDefaults|
    ensures p[0] == ("segmento", segment)
    ensures forall i :: 0 <= i < |FieldDefaults| ==> p[i + 1].0 == FieldDefaults[i].0
    ensures forall i :: 0 <= i < |FieldDefaults| && FieldDefaults[i].0 !in Keys(data) ==>
      p[i + 1].1 == FieldDefaults[i].1
    ensures forall i :: 0 <= i < |FieldDefaults| && FieldDefaults[i].0 in Keys(data) ==>
      Lookup(data, FieldDefaults[i].0) == Some(p[i + 1].1)
  {
    [("segmento", segment)]
    + seq(|FieldDefaults|, i requires 0 <= i < |FieldDefaults| =>
        (FieldDefaults[i].0, Get(data, FieldDefaults[i].0, FieldDefaults[i].1)))
  }

  /** `pat in s` for strings. */
  predicate Contains(s: string, pat: string)
    decreases |s|
  {
    StartsWith(s, pat) || (|s| > 0 && Contains(s[1..], pat))
  }

  /** `"error" in result`: a key of a dict, an element of a list, a substring of
      a string; any other value raises. */
  function HasError(result: Value): (r: Option<bool>)
    ensures r.Some? <==> result.Dict? || result.List? || result.Str?
    ensures result.Dict? ==> r == Some("error" in Keys(result.fields))
  {
    match result
    case Dict(fields) => Some("error" in Keys(fields))
    case List(items) => Some(Str("error") in items)
    case Str(s) => Some(Contains(s, "error"))
    case _ => None
  }

  /** `analyze_market()` for the request body `data`. `analyze` is the analysis
      service, `None` when it raises. Storing the result is left out: its
      failure is logged and does not change the answer. */
  function AnalyzeMarket(data: Value, analyze: Assoc<Value> -> Option<Value>): (r: Response)
    ensures r.status == 200 || r.status == 400 || r.status == 500
  {
    if !data.Dict? then Response(500, ErrorBody(Str(InternalError)))
    else
      var segment := RequestSegment(data.fields);
      if !Truthy(segment) then Response(400, ErrorBody(Str(SegmentRequired)))
      else match analyze(Payload(data.fields, segment))
        case None => Response(500, ErrorBody(Str(InternalError)))
        case Some(result) =>
          match HasError(result)
          case None => Response(500, ErrorBody(Str(InternalError)))
          case Some(false) => Response(200, result)
          case Some(true) =>
            if result.Dict? then Response(500, ErrorBody(Get(result.fields, "error", Null)))
            else Response(500, ErrorBody(Str(InternalError)))
  }

  /** A request without a usable segment is refused before any analysis. */
  lemma MissingSegmentRefused(data: Assoc<Value>, analyze: Assoc<Value> -> Option<Value>)
    requires !Truthy(Get(data, "segmento", Null)) && !Truthy(Get(data, "nicho", Null))
    ensures AnalyzeMarket(Dict(data), analyze) == Response(400, ErrorBody(Str(SegmentRequired)))
  {
  }

  /** For an analysis that is a JSON object, the answer is 500 with its `error`
      exactly when it has that key, and otherwise 200 with the analysis unchanged. */
  lemma AnalysisStatus(data: Assoc<Value>, analyze: Assoc<Value> -> Option<Value>)
    requires Truthy(RequestSegment(data))
    requires var result := analyze(Payload(data, RequestSegment(data))); result.Some? && result.value.Dict?
    ensures var result := analyze(Payload(data, RequestSegment(data))).value;
      var r := AnalyzeMarket(Dict(data), analyze);
      && ("error" in Keys(result.fields) ==> r == Response(500, ErrorBody(Get(result.fields, "error", Null))))
      && ("error" !in Keys(result.fields) ==> r == Response(200, result))
  {
  }

  /** Any answer other than 400 comes after the analysis ran, on the completed
      payload; a 200 answer is the analysis itself. */
  lemma SuccessIsAnalysis(data: Assoc<Value>, analyze: Assoc<Value> -> Option<Value>)
    requires AnalyzeMarket(Dict(data), analyze).status == 200
    ensures Truthy(RequestSegment(data))
    ensures var result := analyze(Payload(data, RequestSegment(data)));
      result.Some? && AnalyzeMarket(Dict(data), analyze).body == result.value
      && HasError(result.value) == Some(false)
  {
  }

  // ---------------------------------------------------- get_analysis_summary

  const MissingAnalysis: string := "Dados da análise não fornecidos."
  const DefaultTitle: string := "Análise de Mercado"
  const NA: Value := Str("N/A")

  const Phase1Key: string := "fase_1_result"
  const Phase1Section: string := "fase_1_escavacao_brecha_lucrativa"
  const OpportunitiesKey: string := "melhores_oportunidades_identificadas"
  const PrimaryPainsKey: string := "dores_primarias"
  const Phase2Key: string := "fase_2_result"
  const Phase2Section: string := "fase_2_forja_posicionamento_unico"
  const Phase3Key: string := "fase_3_result"
  const Phase3Section: string := "fase_3_forja_big_idea_paralisante"
  const Phase4Key: string := "fase_4_result"
  const Phase4Section: string := "fase_4_arquitetura_produto_viciante"
  const TraitsKey: string := "caracteristicas_tecnicas_letais"

  /** `v.get(k, default)`; `None` when `v` is not a dict, which raises. */
  function PyGet(v: Value, k: string, default: Value): (r: Option<Value>)
    ensures r.Some? <==> v.Dict?
  {
    if v.Dict? then Some(Get(v.fields, k, default)) else None
  }

  /** `v[0]`: the first item of a list, the first character of a string; an
      empty one, or any other value, raises. */
  function First(v: Value): (r: Option<Value>)
    ensures v.List? && |v.items| > 0 ==> r == Some(v.items[0])
    ensures v.Str? && |v.s| > 0 ==> r == Some(Str([v.s[0]]))
    ensures !(v.List? || v.Str?) ==> r.None?
  {
    match v
    case List(items) => if |items| > 0 then Some(items[0]) else None
    case Str(s) => if |s| > 0 then Some(Str([s[0]])) else None
    case _ => None
  }

  /** The value of `v.get(k1) and v.get(k1).get(k2) and ...`: follow the keys
      while the values are truthy, stopping at the first falsy one; `None` when
      a truthy value on the way is not a dict, which raises. */
  function Chain(v: Value, keys: seq<string>): Option<Value>
    decreases |keys|
  {
    if |keys| == 0 then Some(v)
    else
      var w :- PyGet(v, keys[0], Null);
      if |keys| == 1 || !Truthy(w) then Some(w) else Chain(w, keys[1..])
  }

  /** `v` leads through non-empty dicts along `keys` to the value `end`. */
  predicate Reaches(v: Value, keys: seq<string>, end: Value)
    decreases |keys|
  {
    if |keys| == 0 then v == end
    else (v.Dict? && Truthy(v) && Lookup(v.fields, keys[0]).Some?
      && Reaches(Lookup(v.fields, keys[0]).value, keys[1..], end))
  }

  /** Following `keys` from `v` through dicts meets a missing key or a falsy value. */
  predicate Blocked(v: Value, keys: seq<string>)
    decreases |keys|
  {
    |keys| > 0 && v.Dict?
    && var w := Get(v.fields, keys[0], Null);
       !Truthy(w) || Blocked(w, keys[1..])
  }

  /** Following `keys` from `v` meets a truthy value that is not a dict before the keys run out. */
  predicate Stuck(v: Value, keys: seq<string>)
    decreases |keys|
  {
    |keys| > 0 && Truthy(v) && (!v.Dict? || Stuck(Get(v.fields, keys[0], Null), keys[1..]))
  }

  /** The chain of `get`s yields the value at the end of a path through non-empty dicts. */
  lemma {:induction false} ChainReaches(v: Value, keys: seq<string>, end: Value)
    requires Reaches(v, keys, end)
    ensures Chain(v, keys) == Some(end)
    decreases |keys|
  {
    if |keys| > 1 {
      var w := Lookup(v.fields, keys[0]).value;
      assert Get(v.fields, keys[0], Null) == w;
      assert Truthy(w) by {
        assert w.Dict? && Truthy(w);
      }
      ChainReaches(w, keys[1..], end);
    }
  }

  /** The chain of `get`s yields a falsy value when the path is cut short. */
  lemma {:induction false} ChainBlocked(v: Value, keys: seq<string>)
    requires Blocked(v, keys)
    ensures Chain(v, keys).Some? && !Truthy(Chain(v, keys).value)
    decreases |keys|
  {
    var w := Get(v.fields, keys[0], Null);
    if |keys| > 1 && Truthy(w) {
      ChainBlocked(w, keys[1..]);
    }
  }

  /** The chain of `get`s raises when it meets a truthy non-dict. */
  lemma {:induction false} ChainStuck(v: Value, keys: seq<string>)
    requires Stuck(v, keys)
    ensures Chain(v, keys).None?
    decreases |keys|
  {
    if v.Dict? {
      var w := Get(v.fields, keys[0], Null);
      assert |keys| > 1 && Truthy(w) by {
        assert Stuck(w, keys[1..]);
      }
      ChainStuck(w, keys[1..]);
    }
  }

  /** `titulo_analise`: the first of the best opportunities of phase 1 when
      there are any, the default title when the path is cut short. */
  function SummaryTitle(analysis: Value): Option<Value> {
    var opportunities :- Chain(analysis, [Phase1Key, Phase1Section, OpportunitiesKey]);
    if Truthy(opportunities) then First(opportunities) else Some(Str(DefaultTitle))
  }

  /** `resumo_executivo`: the `dor` of the first primary pain of phase 1 (or
      "N/A" when it has none), provided that pain is truthy; "N/A" otherwise. */
  function SummaryAbstract(analysis: Value): Option<Value> {
    var pains :- Chain(analysis, [Phase1Key, Phase1Section, PrimaryPainsKey]);
    if !Truthy(pains) then Some(NA)
    else
      var first :- First(pains);
      if !Truthy(first) then Some(NA) else PyGet(first, "dor", NA)
  }

  /** One key point: `section.get(field, 'N/A')` of a phase, when its section is truthy. */
  function KeyPoint(analysis: Value, phase: string, section: string, field: string): (r: Option<seq<Value>>)
    ensures r.Some? ==> |r.value| <= 1
  {
    var s :- Chain(analysis, [phase, section]);
    if !Truthy(s) then Some([])
    else
      var point :- PyGet(s, field, NA);
      Some([point])
  }

  /** The key point of phase 4: the `caracteristica` of its first lethal
      technical trait, when that list is non-empty and its first entry truthy. */
  function TraitPoint(analysis: Value): (r: Option<seq<Value>>)
    ensures r.Some? ==> |r.value| <= 1
  {
    var traits :- Chain(analysis, [Phase4Key, Phase4Section, TraitsKey]);
    if !Truthy(traits) then Some([])
    else
      var first :- First(traits);
      if !Truthy(first) then Some([])
      else
        var point :- PyGet(first, "caracteristica", NA);
        Some([point])
  }

  /** The key points of phases 2, 3 and 4, in that order. */
  function KeyPoints(analysis: Value): (r: Option<seq<Value>>)
    ensures r.Some? ==> |r.value| <= 3
  {
    var p2 :- KeyPoint(analysis, Phase2Key, Phase2Section, "inimigo_principal");
    var p3 :- KeyPoint(analysis, Phase3Key, Phase3Section, "desejo_secreto");
    var p4 :- TraitPoint(analysis);
    Some(p2 + p3 + p4)
  }

  const SummaryKeys: seq<string> := ["titulo_analise", "resumo_executivo", "pontos_chave"]

  /** The summary of a truthy analysis; `None` when extracting it raises. */
  function Summary(analysis: Value): (r: Option<Value>)
    ensures r.Some? ==> r.value.Dict? && Keys(r.value.fields) == SummaryKeys
    ensures r.Some? ==> r.value.fields[2].1.List? && |r.value.fields[2].1.items| <= 3
  {
    var title :- SummaryTitle(analysis);
    var digest :- SummaryAbstract(analysis);
    var points :- KeyPoints(analysis);
    Some(Dict([(SummaryKeys[0], title), (SummaryKeys[1], digest), (SummaryKeys[2], List(points))]))
  }

  /** `get_analysis_summary()` for the request body `data`. An exception answers
      500 with the exception's text, which is not modelled: `Crash` stands for it. */
  datatype SummaryAnswer = Answer(response: Response) | Crash

  function GetAnalysisSummary(data: Value): (r: SummaryAnswer)
    ensures r.Answer? ==> r.response.status == 200 || r.response.status == 400
    ensures data.Dict? && !Truthy(Get(data.fields, "analysis_data", Null)) ==>
      r == Answer(Response(400, ErrorBody(Str(MissingAnalysis))))
  {
    if !data.Dict? then Crash
    else
      var analysis := Get(data.fields, "analysis_data", Null);
      if !Truthy(analysis) then Answer(Response(400, ErrorBody(Str(MissingAnalysis))))
      else match Summary(analysis)
        case Some(summary) => Answer(Response(200, summary))
        case None => Crash
  }

  // ----------------------------------------------------- summary properties

  /** The title is the first best opportunity when phase 1 lists some. */
  lemma TitleFromOpportunities(analysis: Value, opportunities: seq<Value>)
    requires Reaches(analysis, [Phase1Key, Phase1Section, OpportunitiesKey], List(opportunities))
    requires |opportunities| > 0
    ensures SummaryTitle(analysis) == Some(opportunities[0])
  {
    ChainReaches(analysis, [Phase1Key, Phase1Section, OpportunitiesKey], List(opportunities));
  }

  /** The title is the default when the path to the opportunities is cut short. */
  lemma TitleDefault(analysis: Value)
    requires Blocked(analysis, [Phase1Key, Phase1Section, OpportunitiesKey])
    ensures SummaryTitle(analysis) == Some(Str(DefaultTitle))
  {
    ChainBlocked(analysis, [Phase1Key, Phase1Section, OpportunitiesKey]);
  }

  /** The abstract is the `dor` of the first primary pain, "N/A" when it has none. */
  lemma AbstractFromPain(analysis: Value, pains: seq<Value>)
    requires Reaches(analysis, [Phase1Key, Phase1Section, PrimaryPainsKey], List(pains))
    requires |pains| > 0 && pains[0].Dict? && Truthy(pains[0])
    ensures SummaryAbstract(analysis) == Some(Get(pains[0].fields, "dor", NA))
  {
    ChainReaches(analysis, [Phase1Key, Phase1Section, PrimaryPainsKey], List(pains));
  }

  /** The abstract is "N/A" when the path to the pains is cut short. */
  lemma AbstractDefault(analysis: Value)
    requires Blocked(analysis, [Phase1Key, Phase1Section, PrimaryPainsKey])
    ensures SummaryAbstract(analysis) == Some(NA)
  {
    ChainBlocked(analysis, [Phase1Key, Phase1Section, PrimaryPainsKey]);
  }

  /** The abstract is "N/A" when the first primary pain is falsy. */
  lemma AbstractFalsyFirst(analysis: Value, pains: seq<Value>)
    requires Reaches(analysis, [Phase1Key, Phase1Section, PrimaryPainsKey], List(pains))
    requires |pains| > 0 && !Truthy(pains[0])
    ensures SummaryAbstract(analysis) == Some(NA)
  {
    ChainReaches(analysis, [Phase1Key, Phase1Section, PrimaryPainsKey], List(pains));
  }

  /** A truthy first primary pain that is not a dict makes `.get('dor')` raise,
      and with it the whole summary request. */
  lemma FirstPainNotDictCrashes(analysis: Value, pains: seq<Value>)
    requires Reaches(analysis, [Phase1Key, Phase1Section, PrimaryPainsKey], List(pains))
    requires |pains| > 0 && Truthy(pains[0]) && !pains[0].Dict?
    ensures GetAnalysisSummary(Dict([("analysis_data", analysis)])) == Crash
  {
    FirstPainNotDictFails(analysis, pains);
    AbstractFailureCrashes(analysis);
  }

  lemma FirstPainNotDictFails(analysis: Value, pains: seq<Value>)
    requires Reaches(analysis, [Phase1Key, Phase1Section, PrimaryPainsKey], List(pains))
    requires |pains| > 0 && Truthy(pains[0]) && !pains[0].Dict?
    ensures SummaryAbstract(analysis).None?
  {
    ChainReaches(analysis, [Phase1Key, Phase1Section, PrimaryPainsKey], List(pains));
  }

  /** A phase contributes its key point exactly when its section is a non-empty dict. */
  lemma KeyPointPresent(analysis: Value, phase: string, section: string, field: string, s: Value)
    requires Reaches(analysis, [phase, section], s) && s.Dict? && Truthy(s)
    ensures KeyPoint(analysis, phase, section, field) == Some([Get(s.fields, field, NA)])
  {
    ChainReaches(analysis, [phase, section], s);
  }

  lemma KeyPointAbsent(analysis: Value, phase: string, section: string, field: string)
    requires Blocked(analysis, [phase, section])
    ensures KeyPoint(analysis, phase, section, field) == Some([])
  {
    ChainBlocked(analysis, [phase, section]);
  }

  /** A truthy non-dict met on the way to a phase section makes the summary fail. */
  lemma StuckPhaseFails(analysis: Value, phase: string, section: string, field: string)
    requires Stuck(analysis, [phase, section])
    ensures KeyPoint(analysis, phase, section, field).None?
  {
    ChainStuck(analysis, [phase, section]);
  }

  /** A truthy non-dict met on the way to the opportunities makes the whole
      summary request fail rather than answer. */
  lemma StuckTitleCrashes(analysis: Value)
    requires Stuck(analysis, [Phase1Key, Phase1Section, OpportunitiesKey])
    ensures GetAnalysisSummary(Dict([("analysis_data", analysis)])) == Crash
  {
    ChainStuck(analysis, [Phase1Key, Phase1Section, OpportunitiesKey]);
  }

  /** The key points keep the phase order: with phases 2 and 4 present and
      phase 3 cut short, the points are phase 2's enemy then phase 4's trait. */
  lemma KeyPointsInOrder(analysis: Value, s2: Value, traits: seq<Value>)
    requires Reaches(analysis, [Phase2Key, Phase2Section], s2) && s2.Dict? && Truthy(s2)
    requires Blocked(analysis, [Phase3Key, Phase3Section])
    requires Reaches(analysis, [Phase4Key, Phase4Section, TraitsKey], List(traits))
    requires |traits| > 0 && traits[0].Dict? && Truthy(traits[0])
    ensures KeyPoints(analysis) == Some([Get(s2.fields, "inimigo_principal", NA), Get(traits[0].fields, "caracteristica", NA)])
  {
    var a := Get(s2.fields, "inimigo_principal", NA);
    var b := Get(traits[0].fields, "caracteristica", NA);
    KeyPointPresent(analysis, Phase2Key, Phase2Section, "inimigo_principal", s2);
    KeyPointAbsent(analysis, Phase3Key, Phase3Section, "desejo_secreto");
    TraitPointPresent(analysis, traits);
    PointsJoin(KeyPoint(analysis, Phase2Key, Phase2Section, "inimigo_principal"),
      KeyPoint(analysis, Phase3Key, Phase3Section, "desejo_secreto"), TraitPoint(analysis), a, b);
  }

  lemma PointsJoin(p2: Option<seq<Value>>, p3: Option<seq<Value>>, p4: Option<seq<Value>>, a: Value, b: Value)
    requires p2 == Some([a]) && p3 == Some([]) && p4 == Some([b])
    ensures p2.value + p3.value + p4.value == [a, b]
  {
  }

  /** Phase 4 contributes the `caracteristica` of its first trait when that trait is truthy. */
  lemma TraitPointPresent(analysis: Value, traits: seq<Value>)
    requires Reaches(analysis, [Phase4Key, Phase4Section, TraitsKey], List(traits))
    requires |traits| > 0 && traits[0].Dict? && Truthy(traits[0])
    ensures TraitPoint(analysis) == Some([Get(traits[0].fields, "caracteristica", NA)])
  {
    ChainReaches(analysis, [Phase4Key, Phase4Section, TraitsKey], List(traits));
  }

  /** Phase 4 contributes nothing when the path to its traits is cut short. */
  lemma TraitPointAbsent(analysis: Value)
    requires Blocked(analysis, [Phase4Key, Phase4Section, TraitsKey])
    ensures TraitPoint(analysis) == Some([])
  {
    ChainBlocked(analysis, [Phase4Key, Phase4Section, TraitsKey]);
  }

  /** Phase 4 contributes nothing when its first trait is falsy. */
  lemma TraitPointFalsyFirst(analysis: Value, traits: seq<Value>)
    requires Reaches(analysis, [Phase4Key, Phase4Section, TraitsKey], List(traits))
    requires |traits| > 0 && !Truthy(traits[0])
    ensures TraitPoint(analysis) == Some([])
  {
    ChainReaches(analysis, [Phase4Key, Phase4Section, TraitsKey], List(traits));
  }

  /** A truthy first trait that is not a dict makes `.get('caracteristica')`
      raise, and with it the whole summary request. */
  lemma TraitNotDictCrashes(analysis: Value, traits: seq<Value>)
    requires Reaches(analysis, [Phase4Key, Phase4Section, TraitsKey], List(traits))
    requires |traits| > 0 && Truthy(traits[0]) && !traits[0].Dict?
    ensures GetAnalysisSummary(Dict([("analysis_data", analysis)])) == Crash
  {
    TraitNotDictFails(analysis, traits);
    PointsFailureCrashes(analysis);
  }

  lemma TraitNotDictFails(analysis: Value, traits: seq<Value>)
    requires Reaches(analysis, [Phase4Key, Phase4Section, TraitsKey], List(traits))
    requires |traits| > 0 && Truthy(traits[0]) && !traits[0].Dict?
    ensures TraitPoint(analysis).None?
  {
    ChainReaches(analysis, [Phase4Key, Phase4Section, TraitsKey], List(traits));
  }

  /** When extracting the abstract of a truthy analysis raises, the whole
      request fails. */
  lemma AbstractFailureCrashes(analysis: Value)
    requires analysis.Dict? && Truthy(analysis) && SummaryAbstract(analysis).None?
    ensures GetAnalysisSummary(Dict([("analysis_data", analysis)])) == Crash
  {
    assert Summary(analysis).None?;
  }

  /** When extracting phase 4's key point of a truthy analysis raises, the
      whole request fails. */
  lemma PointsFailureCrashes(analysis: Value)
    requires analysis.Dict? && Truthy(analysis) && TraitPoint(analysis).None?
    ensures GetAnalysisSummary(Dict([("analysis_data", analysis)])) == Crash
  {
    assert KeyPoints(analysis).None?;
    assert Summary(analysis).None?;
  }
}
