/** `_create_fallback_analysis` of the analysis client: the complete analysis
    document built from the request alone, used whenever the language model is
    not configured or its answer cannot be used. Its text is templated on the
    segment; its monetary fields are derived from one coerced price. */
module Fallback {
  import opened Text
  import opened Values

  /** The price used when `preco_float` is absent, None or not a number. */
  const DefaultPrice: real := 997.0
  const DefaultName: string := "Produto Digital"

  /** The top-level sections of the document, in order. */
  const SectionKeys: seq<string> := [
    ScopeKey, AvatarKey, PainsKey, CompetitionKey, KeywordsKey,
    MetricsKey, ScenariosKey, PlanKey, InsightsKey
  ]

  // ------------------------------------------------------------------ inputs

  /** `float(v)`; `None` is the ValueError or TypeError Python raises. Parsing a
      string is left to `parseFloat`; infinities and NaN are not modelled. */
  function PyFloat(v: Value, parseFloat: string -> Option<real>): (r: Option<real>)
    ensures v.Int? ==> r == Some(v.i as real)
    ensures v.Float? ==> r == Some(v.r)
    ensures v.Null? || v.List? || v.Dict? ==> r == None
  {
    match v
    case Bool(b) => Some(if b then 1.0 else 0.0)
    case Int(i) => Some(i as real)
    case Float(r) => Some(r)
    case Str(s) => parseFloat(s)
    case _ => None
  }

  /** The price of the fallback: `float(data['preco_float'])` when that key holds
      something other than None, 997.0 when it does not or the conversion fails.
      The `preco` field is never read. */
  function CoercePrice(data: Assoc<Value>, parseFloat: string -> Option<real>): (p: real)
    ensures "preco_float" !in Keys(data) ==> p == DefaultPrice
    ensures Lookup(data, "preco_float") == Some(Null) ==> p == DefaultPrice
    ensures forall v :: Lookup(data, "preco_float") == Some(v) && PyFloat(v, parseFloat).None? ==> p == DefaultPrice
    ensures forall v :: Lookup(data, "preco_float") == Some(v) && !v.Null? && PyFloat(v, parseFloat).Some? ==>
      p == PyFloat(v, parseFloat).value
  {
    match Lookup(data, "preco_float")
    case None => DefaultPrice
    case Some(v) =>
      if v.Null? then DefaultPrice
      else match PyFloat(v, parseFloat)
        case Some(x) => x
        case None => DefaultPrice
  }

  /** `data.get('segmento', data.get('nicho', 'Produto Digital'))`: which key is
      present decides, not whether its value is truthy. */
  function Segment(data: Assoc<Value>): (v: Value)
    ensures "segmento" in Keys(data) ==> ("segmento", v) in data
    ensures "segmento" !in Keys(data) && "nicho" in Keys(data) ==> ("nicho", v) in data
    ensures "segmento" !in Keys(data) && "nicho" !in Keys(data) ==> v == Str(DefaultName)
  {
    Get(data, "segmento", Get(data, "nicho", Str(DefaultName)))
  }

  /** `int(x)`: truncation toward zero. */
  function Trunc(x: real): (n: int)
    ensures 0.0 <= x ==> 0 <= n && n as real <= x < n as real + 1.0
    ensures x < 0.0 ==> n <= 0 && n as real - 1.0 < x <= n as real
  {
    if x >= 0.0 then x.Floor else -((-x).Floor)
  }

  /** `f"R$ {n:,}".replace(',', '.')`. */
  function Money(n: int): string {
    "R$ " + FormatThousands(n)
  }

  // --------------------------------------------------------------- sections

  function Escopo(segment: Value, product: Value, seg: string): Value {
    Dict([
      ("segmento_principal", segment),
      ("subsegmentos", List([Str(seg + " para iniciantes"), Str(seg + " avançado"), Str(seg + " empresarial")])),
      ("produto_ideal", product),
      ("proposta_valor", Str("A metodologia mais completa e prática para dominar " + seg + " no mercado brasileiro")),
      ("tamanho_mercado", Dict([
        ("tam", Str("R$ 3,2 bilhões")),
        ("sam", Str("R$ 480 milhões")),
        ("som", Str("R$ 24 milhões"))]))])
  }

  function Avatar(seg: string): Value {
    Dict([
      ("persona_principal", Dict([
        ("nome", Str("Carlos Eduardo Silva")),
        ("idade", Str("38 anos")),
        ("profissao", Str("Especialista em " + seg)),
        ("renda_mensal", Str("R$ 15.000 - R$ 35.000")),
        ("localizacao", Str("São Paulo, SP")),
        ("estado_civil", Str("Casado, 2 filhos")),
        ("escolaridade", Str("Superior completo com pós-graduação"))])),
      ("demografia_detalhada", Dict([
        ("faixa_etaria_primaria", Str("32-45 anos (65%)")),
        ("distribuicao_genero", Str("65% mulheres, 35% homens")),
        ("distribuicao_geografica", Str("Sudeste (45%), Sul (25%), Nordeste (20%)")),
        ("classes_sociais", Str("Classe A (30%), Classe B (60%), Classe C (10%)")),
        ("nivel_educacional", Str("Superior completo (80%), Pós-graduação (45%)"))])),
      ("psicografia_profunda", Dict([
        ("valores_fundamentais", List([Str("Crescimento pessoal"), Str("Independência financeira"), Str("Reconhecimento profissional")])),
        ("estilo_vida_detalhado", Str("Vida acelerada com foco em produtividade, busca constante por conhecimento")),
        ("personalidade_dominante", Str("Ambicioso, determinado, analítico, orientado a resultados")),
        ("aspiracoes_profissionais", List([Str("Ser reconhecido como autoridade"), Str("Construir negócio escalável")])),
        ("medos_profundos", List([Str("Ficar obsoleto no mercado"), Str("Perder oportunidades"), Str("Falhar financeiramente")])),
        ("motivadores_principais", List([Str("Reconhecimento profissional"), Str("Segurança financeira")]))]))])
  }

  function Dores(seg: string): Value {
    Dict([
      ("dores_nivel_1_criticas", List([Dict([
        ("dor", Str("Dificuldade para se posicionar como autoridade em " + seg)),
        ("intensidade", Str("Alta")),
        ("frequencia", Str("Diária")),
        ("impacto_vida", Str("Baixo reconhecimento profissional e dificuldade para precificar")),
        ("nivel_consciencia", Str("Consciente"))])])),
      ("dores_nivel_2_importantes", List([Dict([
        ("dor", Str("Falta de metodologia estruturada e comprovada")),
        ("intensidade", Str("Alta")),
        ("frequencia", Str("Semanal")),
        ("impacto_vida", Str("Resultados inconsistentes")),
        ("nivel_consciencia", Str("Consciente"))])]))])
  }

  /** The competitors' price range: from 1.5 to 2.5 times the price. */
  function PriceRange(price: real): string {
    Money(Trunc(price * 1.5)) + " - " + Money(Trunc(price * 2.5))
  }

  function Concorrencia(seg: string, price: real): Value {
    Dict([
      ("concorrentes_diretos", List([Dict([
        ("nome", Str("Academia Premium " + seg)),
        ("preco_range", Str(PriceRange(price))),
        ("proposta_valor", Str("Metodologia exclusiva com certificação")),
        ("pontos_fortes", List([Str("Marca estabelecida"), Str("Comunidade ativa")])),
        ("pontos_fracos", List([Str("Preço elevado"), Str("Suporte limitado")])),
        ("posicionamento", Str("Premium e exclusivo"))])])),
      ("gaps_oportunidades", List([Str("Falta de metodologia prática com implementação assistida"), Str("Ausência de suporte contínuo pós-compra"), Str("Preços inacessíveis para profissionais em início de carreira")]))])
  }

  function PalavrasChave(seg: string): Value {
    Dict([
      ("palavras_primarias", List([Dict([
        ("termo", Str("curso " + seg)),
        ("volume_mensal", Str("12.100")),
        ("dificuldade", Str("Média")),
        ("cpc_estimado", Str("R$ 4,20")),
        ("oportunidade", Str("Alta"))])])),
      ("custos_aquisicao_canal", Dict([
        ("google_ads", Dict([
          ("cpc_medio", Str("R$ 3,20")),
          ("ctr_esperado", Str("3,5%")),
          ("cpa_estimado", Str("R$ 420"))])),
        ("facebook_ads", Dict([
          ("cpc_medio", Str("R$ 1,45")),
          ("ctr_esperado", Str("2,8%")),
          ("cpa_estimado", Str("R$ 380"))]))]))])
  }

  function Metricas(price: real): Value {
    Dict([
      ("benchmarks_segmento", Dict([
        ("cac_medio_segmento", Str("R$ 420")),
        ("ltv_medio_segmento", Str("R$ 1.680")),
        ("churn_rate_medio", Str("15%")),
        ("ticket_medio_segmento", Str(Money(Trunc(price))))])),
      ("kpis_criticos", List([Dict([
        ("metrica", Str("CAC (Custo de Aquisição de Cliente)")),
        ("valor_ideal", Str("R$ 420")),
        ("como_medir", Str("Investimento total em marketing / número de clientes adquiridos"))])]))])
  }

  function Scenario(rate: string, ticket: string, cac: string, roi: string): Value {
    Dict([("taxa_conversao", Str(rate)), ("ticket_medio", Str(ticket)), ("cac", Str(cac)), ("roi", Str(roi))])
  }

  function Projecoes(price: real): Value {
    Dict([
      ("cenario_conservador", Scenario("2,0%", Money(Trunc(price)), "R$ 450", "240%")),
      ("cenario_realista", Scenario("3,2%", Money(Trunc(price)), "R$ 420", "380%")),
      ("cenario_otimista", Scenario("5,0%", Money(Trunc(price * 1.2)), "R$ 380", "580%"))])
  }

  function Action(acao: string, responsavel: string, prazo: string): Value {
    Dict([("acao", Str(acao)), ("responsavel", Str(responsavel)), ("prazo", Str(prazo))])
  }

  function PlanoAcao(): Value {
    List([
      Dict([
        ("fase", Str("Fase 1: Validação e Pesquisa")),
        ("duracao", Str("2 semanas")),
        ("acoes", List([Action("Validar proposta de valor com pesquisa qualitativa", "Equipe de pesquisa", "10 dias")]))]),
      Dict([
        ("fase", Str("Fase 2: Desenvolvimento e Preparação")),
        ("duracao", Str("3 semanas")),
        ("acoes", List([Action("Criar landing page otimizada", "Equipe de marketing", "7 dias")]))])])
  }

  function Insights(seg: string): Value {
    List([Str("O segmento " + seg + " está passando por uma transformação digital acelerada"), Str("Há uma lacuna significativa entre oferta premium e básica no mercado"), Str("O público valoriza mais implementação prática do que teoria extensiva"), Str("Oportunidade de diferenciação através de suporte personalizado")])
  }

  /** What the fallback reads from the request: the segment value, the product,
      the segment as it is formatted into text, and the coerced price. */
  datatype Inputs = Inputs(segment: Value, product: Value, seg: string, price: real)

  function ReadInputs(data: Assoc<Value>, parseFloat: string -> Option<real>, repr: Value -> string): (inp: Inputs)
    ensures inp.segment == Segment(data) && inp.seg == Display(Segment(data), repr)
    ensures inp.product == Get(data, "produto", Str(DefaultName))
    ensures inp.price == CoercePrice(data, parseFloat)
  {
    var segment := Segment(data);
    Inputs(segment, Get(data, "produto", Str(DefaultName)), Display(segment, repr), CoercePrice(data, parseFloat))
  }

  function BuildEscopo(inp: Inputs): Value { Escopo(inp.segment, inp.product, inp.seg) }
  function BuildAvatar(inp: Inputs): Value { Avatar(inp.seg) }
  function BuildDores(inp: Inputs): Value { Dores(inp.seg) }
  function BuildConcorrencia(inp: Inputs): Value { Concorrencia(inp.seg, inp.price) }
  function BuildPalavrasChave(inp: Inputs): Value { PalavrasChave(inp.seg) }
  function BuildMetricas(inp: Inputs): Value { Metricas(inp.price) }
  function BuildProjecoes(inp: Inputs): Value { Projecoes(inp.price) }
  function BuildPlanoAcao(inp: Inputs): Value { PlanoAcao() }
  function BuildInsights(inp: Inputs): Value { Insights(inp.seg) }

  /** How each section is built from the inputs, in the order of `SectionKeys`. */
  const Builders: seq<Inputs -> Value> := [
    BuildEscopo, BuildAvatar, BuildDores, BuildConcorrencia, BuildPalavrasChave,
    BuildMetricas, BuildProjecoes, BuildPlanoAcao, BuildInsights
  ]

  /** A document whose sections are `SectionKeys`, each built from `inp`. */
  function Assemble(builders: seq<Inputs -> Value>, inp: Inputs): (doc: Value)
    requires |builders| == |SectionKeys|
    ensures doc.Dict? && Keys(doc.fields) == SectionKeys
  {
    Dict(seq(|SectionKeys|, i requires 0 <= i < |SectionKeys| => (SectionKeys[i], builders[i](inp))))
  }

  /** `_create_fallback_analysis(data)`. Formatting the segment into text uses
      Python's `str()`, whose rendering of floats, lists and dicts is `repr`. */
  function FallbackAnalysis(data: Assoc<Value>, parseFloat: string -> Option<real>, repr: Value -> string): (doc: Value)
    ensures doc.Dict? && Keys(doc.fields) == SectionKeys
  {
    Assemble(Builders, ReadInputs(data, parseFloat, repr))
  }

  // ----------------------------------------------------------------- lemmas

  lemma SectionKeysDistinct(i: nat, j: nat)
    requires i < j < |SectionKeys|
    ensures SectionKeys[i] != SectionKeys[j]
  {
    var ls := [6, 22, 32, 30, 25, 31, 18, 20, 19];
    assert forall k :: 0 <= k < 9 ==> |SectionKeys[k]| == ls[k] by {
      forall k | 0 <= k < 9
        ensures |SectionKeys[k]| == ls[k]
      {
        assert k == 0 || k == 1 || k == 2 || k == 3 || k == 4 || k == 5 || k == 6 || k == 7 || k == 8;
      }
    }
    assert ls[i] != ls[j] by {
      assert i == 0 || i == 1 || i == 2 || i == 3 || i == 4 || i == 5 || i == 6 || i == 7;
      assert j == 1 || j == 2 || j == 3 || j == 4 || j == 5 || j == 6 || j == 7 || j == 8;
    }
  }

  /** Field `k` of a dict value. */
  function Field(v: Value, k: string): Option<Value> {
    if v.Dict? then Lookup(v.fields, k) else None
  }

  /** Every section is found under its own key. */
  lemma AssembleSection(builders: seq<Inputs -> Value>, inp: Inputs, i: nat)
    requires |builders| == |SectionKeys| && i < |SectionKeys|
    ensures Field(Assemble(builders, inp), SectionKeys[i]) == Some(builders[i](inp))
  {
    var d := Assemble(builders, inp).fields;
    forall j | 0 <= j < i
      ensures d[j].0 != SectionKeys[i]
    {
      SectionKeysDistinct(j, i);
    }
    LookupFirst(d, i, SectionKeys[i]);
  }

  lemma FallbackSection(data: Assoc<Value>, parseFloat: string -> Option<real>, repr: Value -> string, i: nat)
    requires i < |SectionKeys|
    ensures Field(FallbackAnalysis(data, parseFloat, repr), SectionKeys[i]) == Some(Builders[i](ReadInputs(data, parseFloat, repr)))
  {
    AssembleSection(Builders, ReadInputs(data, parseFloat, repr), i);
  }

  /** The section stored under `key`, the name of section `i`, is what `build`,
      the builder of that section, makes of the request. */
  lemma FallbackBuilt(data: Assoc<Value>, parseFloat: string -> Option<real>, repr: Value -> string, i: nat, key: string, build: Inputs -> Value)
    requires i < |SectionKeys| && SectionKeys[i] == key && Builders[i] == build
    ensures Field(FallbackAnalysis(data, parseFloat, repr), key) == Some(build(ReadInputs(data, parseFloat, repr)))
  {
    FallbackSection(data, parseFloat, repr, i);
  }

  /** The fallback always has the same nine sections, whatever the request. */
  lemma FallbackSections(data: Assoc<Value>, parseFloat: string -> Option<real>, repr: Value -> string)
    ensures forall i :: 0 <= i < |SectionKeys| ==> Field(FallbackAnalysis(data, parseFloat, repr), SectionKeys[i]).Some?
  {
    forall i | 0 <= i < |SectionKeys|
      ensures Field(FallbackAnalysis(data, parseFloat, repr), SectionKeys[i]).Some?
    {
      FallbackSection(data, parseFloat, repr, i);
    }
  }

  /** The fallback has no `research_data` field: it is not confused with an
      analysis the model produced. */
  lemma FallbackWithoutResearch(data: Assoc<Value>, parseFloat: string -> Option<real>, repr: Value -> string)
    ensures var doc := FallbackAnalysis(data, parseFloat, repr);
      doc.Dict? && "research_data" !in Keys(doc.fields)
  {
    forall i | 0 <= i < |SectionKeys|
      ensures SectionKeys[i] != "research_data"
    {
      assert i == 0 || i == 1 || i == 2 || i == 3 || i == 4 || i == 5 || i == 6 || i == 7 || i == 8;
    }
  }

  /** The scope names the segment first and the product third. */
  lemma EscopoFields(segment: Value, product: Value, seg: string)
    ensures Field(Escopo(segment, product, seg), "segmento_principal") == Some(segment)
    ensures Field(Escopo(segment, product, seg), "produto_ideal") == Some(product)
  {
    var d := Escopo(segment, product, seg).fields;
    LookupFirst(d, 0, "segmento_principal");
    assert |d[0].0| != |"produto_ideal"| && |d[1].0| != |"produto_ideal"|;
    LookupFirst(d, 2, "produto_ideal");
  }

  /** The segment of the fallback is the one the request names under `segmento`,
      else under `nicho`, else "Produto Digital"; the product likewise comes from
      `produto`. */
  lemma FallbackScope(data: Assoc<Value>, parseFloat: string -> Option<real>, repr: Value -> string)
    ensures var escopo := Field(FallbackAnalysis(data, parseFloat, repr), ScopeKey);
      && escopo.Some?
      && Field(escopo.value, "segmento_principal") == Some(Segment(data))
      && Field(escopo.value, "produto_ideal") == Some(Get(data, "produto", Str(DefaultName)))
  {
    var inp := ReadInputs(data, parseFloat, repr);
    FallbackBuilt(data, parseFloat, repr, 0, ScopeKey, BuildEscopo);
    EscopoFields(inp.segment, inp.product, inp.seg);
  }

  /** The metrics section is built from the coerced price. */
  lemma FallbackMetrics(data: Assoc<Value>, parseFloat: string -> Option<real>, repr: Value -> string)
    ensures Field(FallbackAnalysis(data, parseFloat, repr), MetricsKey)
      == Some(Metricas(CoercePrice(data, parseFloat)))
  {
    FallbackBuilt(data, parseFloat, repr, 5, MetricsKey, BuildMetricas);
  }

  /** The scenario projections are built from the coerced price. */
  lemma FallbackProjections(data: Assoc<Value>, parseFloat: string -> Option<real>, repr: Value -> string)
    ensures Field(FallbackAnalysis(data, parseFloat, repr), ScenariosKey)
      == Some(Projecoes(CoercePrice(data, parseFloat)))
  {
    FallbackBuilt(data, parseFloat, repr, 6, ScenariosKey, BuildProjecoes);
  }

  /** The segment's average ticket shows `int(price)`. */
  lemma MetricasTicket(price: real)
    ensures var bench := Field(Metricas(price), "benchmarks_segmento");
      bench.Some? && Field(bench.value, "ticket_medio_segmento") == Some(Str(Money(Trunc(price))))
  {
    var d := Metricas(price).fields;
    LookupFirst(d, 0, "benchmarks_segmento");
    var b := d[0].1.fields;
    assert |b[0].0| != |"ticket_medio_segmento"| && |b[1].0| != |"ticket_medio_segmento"| && |b[2].0| != |"ticket_medio_segmento"|;
    LookupFirst(b, 3, "ticket_medio_segmento");
  }

  /** The competition section names one direct competitor, priced from
      `int(price * 1.5)` to `int(price * 2.5)`. */
  lemma ConcorrenciaPriceRange(seg: string, price: real)
    ensures var rivals := Field(Concorrencia(seg, price), "concorrentes_diretos");
      && rivals.Some? && rivals.value.List? && |rivals.value.items| == 1
      && Field(rivals.value.items[0], "preco_range")
        == Some(Str(Money(Trunc(price * 1.5)) + " - " + Money(Trunc(price * 2.5))))
  {
    var d := Concorrencia(seg, price).fields;
    LookupFirst(d, 0, "concorrentes_diretos");
    var c := d[0].1.items[0].fields;
    assert |c[0].0| != |"preco_range"|;
    LookupFirst(c, 1, "preco_range");
  }

  /** The competition section is built from the segment and the coerced price. */
  lemma FallbackCompetition(data: Assoc<Value>, parseFloat: string -> Option<real>, repr: Value -> string)
    ensures Field(FallbackAnalysis(data, parseFloat, repr), CompetitionKey)
      == Some(Concorrencia(Display(Segment(data), repr), CoercePrice(data, parseFloat)))
  {
    FallbackBuilt(data, parseFloat, repr, 3, CompetitionKey, BuildConcorrencia);
  }

  /** The conservative and realistic scenarios show `int(price)`, the optimistic
      one `int(price * 1.2)`. */
  lemma ProjecoesTickets(price: real)
    ensures Field(Projecoes(price), "cenario_conservador") == Some(Scenario("2,0%", Money(Trunc(price)), "R$ 450", "240%"))
    ensures Field(Projecoes(price), "cenario_realista") == Some(Scenario("3,2%", Money(Trunc(price)), "R$ 420", "380%"))
    ensures Field(Projecoes(price), "cenario_otimista") == Some(Scenario("5,0%", Money(Trunc(price * 1.2)), "R$ 380", "580%"))
  {
    var d := Projecoes(price).fields;
    LookupFirst(d, 0, "cenario_conservador");
    assert |d[0].0| != |"cenario_realista"|;
    LookupFirst(d, 1, "cenario_realista");
    assert |d[0].0| != |"cenario_otimista"| && d[1].0[8] != "cenario_otimista"[8];
    LookupFirst(d, 2, "cenario_otimista");
  }

  /** Reading a ticket back gives the integer it was written from. */
  lemma MoneyRoundTrip(n: int)
    ensures StartsWith(Money(n), "R$ ") && ParseThousands(Money(n)[3..]) == Some(n)
  {
    FormatThousandsRoundTrip(n);
    assert Money(n)[3..] == FormatThousands(n);
  }

  /** Truncation is monotonic, so a higher price never gives a lower ticket. */
  lemma TruncMonotonic(x: real, y: real)
    requires x <= y
    ensures Trunc(x) <= Trunc(y)
  {
  }

  /** For a non-negative price the optimistic ticket is at least the realistic one,
      and the competitor range's lower end does not exceed its upper end. */
  lemma FallbackTicketsOrdered(price: real)
    requires price >= 0.0
    ensures Trunc(price) <= Trunc(price * 1.2)
    ensures Trunc(price * 1.5) <= Trunc(price * 2.5)
    ensures 0 <= Trunc(price)
  {
    TruncMonotonic(price, price * 1.2);
    TruncMonotonic(price * 1.5, price * 2.5);
  }

  /** With a price of 497 the tickets read "R$ 497"; with 1497, "R$ 1.497". */
  lemma TicketExamples()
    ensures Money(Trunc(497.0)) == "R$ 497"
    ensures Money(Trunc(1497.0)) == "R$ 1.497"
  {
    assert Trunc(497.0) == 497;
    assert Trunc(1497.0) == 1497;
    assert NatToString(497) == "497";
    assert NatToString(1) == "1";
    assert Pad3(497) == "497";
  }

  /** With the default price of 997 the optimistic ticket is "R$ 1.196" and the
      competitors' range "R$ 1.495 - R$ 2.492". */
  lemma DefaultPriceExamples()
    ensures Money(Trunc(DefaultPrice * 1.2)) == "R$ 1.196"
    ensures PriceRange(DefaultPrice) == "R$ 1.495 - R$ 2.492"
  {
    assert Trunc(997.0 * 1.2) == 1196;
    assert Trunc(997.0 * 1.5) == 1495;
    assert Trunc(997.0 * 2.5) == 2492;
    assert NatToString(1) == "1";
    assert NatToString(2) == "2";
    assert Pad3(196) == "196";
    assert Pad3(495) == "495";
    assert Pad3(492) == "492";
  }
}
