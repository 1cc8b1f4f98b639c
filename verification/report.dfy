/** The PDF report of an analysis, as the outline `generate_pdf_report` hands to
    the layout engine: a list of styled paragraphs, spacers and page breaks.
    Which sections appear, how many entries each shows, which entries are
    skipped and how they are numbered is decided here; the layout itself is not
    modelled. Any exception while building the outline makes the report fail. */
module Report {
  import opened Text
  import opened Values

  datatype Style =
    | CustomTitle | CustomSubtitle | CustomCaption
    | CustomHeading1 | CustomHeading2 | CustomBodyText | CustomListText

  /** A paragraph, a vertical space of `tenths` tenths of an inch, or a page break. */
  datatype Item = Para(style: Style, text: string) | Spacer(tenths: nat) | PageBreak

  const NA: Value := Str("N/A")
  const UnspecifiedSegment: Value := Str("Segmento não especificado")

  // ------------------------------------------------------------ _safe_get

  /** `_safe_get(v, *keys, default=default)`: follow the keys while the current
      value is a dict (a missing key gives `{}`), return the default as soon as
      it is not, and at the end return the value only when it is truthy. */
  function SafeGet(v: Value, keys: seq<string>, default: Value): Value
    decreases |keys|
  {
    if |keys| == 0 then (if Truthy(v) then v else default)
    else if v.Dict? then SafeGet(Get(v.fields, keys[0], Dict([])), keys[1..], default)
    else default
  }

  /** The value reached by following `keys` through nested dicts, if every key is there. */
  function PathValue(v: Value, keys: seq<string>): Option<Value>
    decreases |keys|
  {
    if |keys| == 0 then Some(v)
    else if !v.Dict? then None
    else match Lookup(v.fields, keys[0])
      case Some(w) => PathValue(w, keys[1..])
      case None => None
  }

  lemma {:induction false} SafeGetEmpty(keys: seq<string>, default: Value)
    ensures SafeGet(Dict([]), keys, default) == default
    decreases |keys|
  {
    if |keys| > 0 {
      SafeGetEmpty(keys[1..], default);
    }
  }

  /** `_safe_get` returns the value at the end of the path when the path exists
      and that value is truthy, and the default in every other case: a missing
      key, a non-dict on the way, or a falsy final value. */
  lemma {:induction false} SafeGetFollowsPath(v: Value, keys: seq<string>, default: Value)
    ensures var p := PathValue(v, keys);
      SafeGet(v, keys, default) == if p.Some? && Truthy(p.value) then p.value else default
    decreases |keys|
  {
    if |keys| > 0 && v.Dict? {
      match Lookup(v.fields, keys[0])
      case Some(w) =>
        SafeGetFollowsPath(w, keys[1..], default);
      case None =>
        SafeGetEmpty(keys[1..], default);
    }
  }

  // ------------------------------------------------------ slicing, enumerate

  /** `v[:n]` iterated: a list gives its first `n` items, a string its first `n`
      characters as one-character strings; anything else raises. */
  function Slice(v: Value, n: nat): (r: Option<seq<Value>>)
    ensures r.Some? <==> v.List? || v.Str?
    ensures r.Some? ==> |r.value| <= n
    ensures v.List? ==> r == Some(Take(v.items, n))
  {
    match v
    case List(items) => Some(Take(items, n))
    case Str(s) => var t := Take(s, n); Some(seq(|t|, i requires 0 <= i < |t| => Str([t[i]])))
    case _ => None
  }

  /** Which entries a list section shows. */
  datatype Filter = Dicts | Strings | Everything

  predicate Keeps(f: Filter, v: Value) {
    match f
    case Dicts => v.Dict?
    case Strings => v.Str?
    case Everything => true
  }

  /** `enumerate(xs, 1)` followed by a type test: the kept entries with their
      1-based positions, which are taken before the test, so a skipped entry
      leaves a gap in the numbers. */
  function Selected(xs: seq<Value>, f: Filter): (r: seq<(nat, Value)>)
    ensures |r| <= |xs|
    ensures forall j :: 0 <= j < |r| ==> 1 <= r[j].0 <= |xs| && r[j].1 == xs[r[j].0 - 1] && Keeps(f, r[j].1)
    ensures forall j, k :: 0 <= j < k < |r| ==> r[j].0 < r[k].0
  {
    if |xs| == 0 then []
    else
      var last := xs[|xs| - 1];
      Selected(xs[..|xs| - 1], f) + (if Keeps(f, last) then [(|xs|, last)] else [])
  }

  /** Entry `i` is shown, numbered `i + 1`, exactly when the filter keeps it. */
  lemma {:induction false} SelectedExactly(xs: seq<Value>, f: Filter, i: nat)
    requires i < |xs|
    ensures (i + 1, xs[i]) in Selected(xs, f) <==> Keeps(f, xs[i])
    decreases |xs|
  {
    var init := xs[..|xs| - 1];
    var tail: seq<(nat, Value)> := if Keeps(f, xs[|xs| - 1]) then [(|xs|, xs[|xs| - 1])] else [];
    assert Selected(xs, f) == Selected(init, f) + tail;
    if i < |xs| - 1 {
      SelectedExactly(init, f, i);
      assert (i + 1, xs[i]) !in tail;
    } else {
      assert (i + 1, xs[i]) !in Selected(init, f);
    }
  }

  /** Dicts, a string, and a dict: the string is skipped and the numbers read 1, 3. */
  lemma SelectedLeavesGap(a: Value, s: string, b: Value)
    requires a.Dict? && b.Dict?
    ensures Selected([a, Str(s), b], Dicts) == [(1, a), (3, b)]
  {
    assert [a, Str(s), b][..2] == [a, Str(s)];
    assert [a, Str(s)][..1] == [a];
    assert [a][..0] == [];
    assert Selected([a], Dicts) == [(1, a)];
    assert Selected([a, Str(s)], Dicts) == [(1, a)];
  }

  // ---------------------------------------------------------------- entries

  /** The kinds of numbered entries, each with its own lines and filter. */
  datatype EntryKind = Pain | Keyword | Competitor | Gap | Action | Insight

  function KindFilter(kind: EntryKind): Filter {
    match kind
    case Gap => Everything
    case Insight => Strings
    case _ => Dicts
  }

  /** How many lines one entry of the kind takes. */
  function EntryLines(kind: EntryKind): nat {
    match kind
    case Pain => 2
    case Competitor => 3
    case Action => 3
    case _ => 1
  }

  /** `f"{d.get(k, 'N/A')}"` for a dict `d`. */
  function Attr(d: Value, k: string, repr: Value -> string): string
    requires d.Dict?
  {
    Display(Get(d.fields, k, NA), repr)
  }

  function Numbered(n: nat): string {
    NatToString(n) + ". "
  }

  function ListLine(text: string): Item {
    Para(CustomListText, text)
  }

  /** The first line of a numbered entry: list text that opens with its number. */
  predicate EntryStart(it: Item) {
    it.Para? && it.style == CustomListText && |it.text| > 0 && IsDigit(it.text[0])
  }

  const PriceLabel: string := "   Preço: "

  /** The line that gives a competitor's price range. */
  predicate PriceLine(it: Item) {
    it.Para? && it.style == CustomListText && StartsWith(it.text, PriceLabel)
  }

  predicate IsHeading2(it: Item) {
    it.Para? && it.style == CustomHeading2
  }

  /** How many of the items satisfy `p`. */
  function Count(items: seq<Item>, p: Item -> bool): nat {
    if |items| == 0 then 0 else (if p(items[0]) then 1 else 0) + Count(items[1..], p)
  }

  lemma CountCons(x: Item, rest: seq<Item>, p: Item -> bool)
    ensures Count([x] + rest, p) == (if p(x) then 1 else 0) + Count(rest, p)
  {
    assert ([x] + rest)[1..] == rest;
  }

  lemma {:induction false} CountAppend(a: seq<Item>, b: seq<Item>, p: Item -> bool)
    ensures Count(a + b, p) == Count(a, p) + Count(b, p)
    decreases |a|
  {
    if |a| == 0 {
      assert a + b == b;
    } else {
      assert a + b == [a[0]] + (a[1..] + b);
      CountCons(a[0], a[1..] + b, p);
      CountAppend(a[1..], b, p);
    }
  }

  lemma {:induction false} CountNone(items: seq<Item>, p: Item -> bool)
    requires forall i :: 0 <= i < |items| ==> !p(items[i])
    ensures Count(items, p) == 0
    decreases |items|
  {
    if |items| > 0 {
      CountNone(items[1..], p);
    }
  }

  /** What the first line of an entry shows after its number. */
  function Lead(kind: EntryKind, v: Value, repr: Value -> string): string
    requires Keeps(KindFilter(kind), v)
  {
    match kind
    case Pain => Attr(v, "dor", repr)
    case Keyword => Attr(v, "termo", repr) + " - Volume: " + Attr(v, "volume_mensal", repr)
      + " - CPC: " + Attr(v, "cpc_estimado", repr)
    case Competitor => Attr(v, "nome", repr)
    case Gap => Display(v, repr)
    case Action => Attr(v, "acao", repr)
    case Insight => v.s
  }

  /** An indented line of an entry: it opens with a space, so it never opens an entry. */
  function Detail(caption: string, value: string): (it: Item)
    requires |caption| > 0 && caption[0] == ' '
    ensures it.Para? && it.style == CustomListText && !EntryStart(it)
    ensures caption == PriceLabel ==> PriceLine(it)
  {
    var text := caption + value;
    assert text[0] == ' ';
    assert caption == PriceLabel ==> text[..|PriceLabel|] == PriceLabel;
    ListLine(text)
  }

  /** A line whose caption differs from the price caption at position `k` is no price line. */
  lemma NoPriceLine(caption: string, value: string, k: nat)
    requires |caption| > 0 && caption[0] == ' '
    requires k < |caption| && k < |PriceLabel| && caption[k] != PriceLabel[k]
    ensures !PriceLine(Detail(caption, value))
  {
    assert (caption + value)[k] == caption[k];
  }

  const IntensityLabel: string := "   Intensidade: "
  const PositionLabel: string := "   Posicionamento: "
  const OwnerLabel: string := "   Responsável: "
  const DeadlineLabel: string := "   Prazo: "

  /** The captions of the indented lines open with a space, and only the price
      caption reads like the price caption. */
  lemma Captions()
    ensures PriceLabel[0] == ' '
    ensures IntensityLabel[0] == ' ' && IntensityLabel[3] != PriceLabel[3]
    ensures PositionLabel[0] == ' ' && PositionLabel[4] != PriceLabel[4]
    ensures OwnerLabel[0] == ' ' && OwnerLabel[3] != PriceLabel[3]
    ensures DeadlineLabel[0] == ' ' && DeadlineLabel[5] != PriceLabel[5]
  {
  }

  /** The indented lines under the first line of an entry; only a competitor's
      include its price. */
  function Details(kind: EntryKind, v: Value, repr: Value -> string): (items: seq<Item>)
    requires Keeps(KindFilter(kind), v)
    ensures |items| == EntryLines(kind) - 1
    ensures forall i :: 0 <= i < |items| ==>
      items[i].Para? && items[i].style == CustomListText && !EntryStart(items[i])
    ensures Count(items, PriceLine) == if kind == Competitor then 1 else 0
  {
    Captions();
    match kind
    case Pain =>
      var text := Attr(v, "intensidade", repr) + " | Frequência: " + Attr(v, "frequencia", repr);
      NoPriceLine(IntensityLabel, text, 3);
      [Detail(IntensityLabel, text)]
    case Competitor =>
      var place := Attr(v, "posicionamento", repr);
      NoPriceLine(PositionLabel, place, 4);
      var lines := [Detail(PriceLabel, Attr(v, "preco_range", repr)), Detail(PositionLabel, place)];
      CountCons(lines[0], [lines[1]], PriceLine);
      lines
    case Action =>
      var who := Attr(v, "responsavel", repr);
      var when := Attr(v, "prazo", repr);
      NoPriceLine(OwnerLabel, who, 3);
      NoPriceLine(DeadlineLabel, when, 5);
      var lines := [Detail(OwnerLabel, who), Detail(DeadlineLabel, when)];
      CountCons(lines[0], [lines[1]], PriceLine);
      lines
    case _ => []
  }

  /** The lines of entry number `n`: one line that opens with the number, then
      its details. */
  function Entry(kind: EntryKind, n: nat, v: Value, repr: Value -> string): (items: seq<Item>)
    requires Keeps(KindFilter(kind), v)
    ensures |items| == EntryLines(kind)
    ensures forall i :: 0 <= i < |items| ==> items[i].Para? && items[i].style == CustomListText
    ensures StartsWith(items[0].text, Numbered(n))
    ensures Count(items, EntryStart) == 1
    ensures Count(items, PriceLine) == if kind == Competitor then 1 else 0
  {
    var text := Numbered(n) + Lead(kind, v, repr);
    var rest := Details(kind, v, repr);
    assert text[..|Numbered(n)|] == Numbered(n);
    assert IsDigit(text[0]) by {
      assert text[0] == NatToString(n)[0];
    }
    assert text[0] != PriceLabel[0];
    CountCons(ListLine(text), rest, EntryStart);
    CountCons(ListLine(text), rest, PriceLine);
    CountNone(rest, EntryStart);
    [ListLine(text)] + rest
  }

  /** Line `i` is a paragraph whose text opens with the number `n`. */
  predicate NumberedAt(items: seq<Item>, i: nat, n: nat) {
    i < |items| && items[i].Para? && StartsWith(items[i].text, Numbered(n))
  }

  /** The lines of all selected entries, in order. */
  function Entries(kind: EntryKind, sel: seq<(nat, Value)>, repr: Value -> string): (items: seq<Item>)
    requires forall j :: 0 <= j < |sel| ==> Keeps(KindFilter(kind), sel[j].1)
    ensures |items| == |sel| * EntryLines(kind)
    ensures forall i :: 0 <= i < |items| ==> items[i].Para? && items[i].style == CustomListText
    ensures Count(items, EntryStart) == |sel|
    ensures Count(items, PriceLine) == if kind == Competitor then |sel| else 0
    ensures forall j :: 0 <= j < |sel| ==> NumberedAt(items, j * EntryLines(kind), sel[j].0)
  {
    if |sel| == 0 then []
    else
      var first := Entry(kind, sel[0].0, sel[0].1, repr);
      var rest := Entries(kind, sel[1..], repr);
      EntriesJoin(kind, sel, first, rest);
      first + rest
  }

  /** The first entry's lines followed by the tail's lines are the lines of
      all the entries: entry `j` of the list starts where entry `j - 1` of the
      tail starts, one entry's lines further on. */
  lemma EntriesJoin(kind: EntryKind, sel: seq<(nat, Value)>, first: seq<Item>, rest: seq<Item>)
    requires 0 < |sel|
    requires |first| == EntryLines(kind)
    requires forall i :: 0 <= i < |first| ==> first[i].Para? && first[i].style == CustomListText
    requires StartsWith(first[0].text, Numbered(sel[0].0))
    requires Count(first, EntryStart) == 1
    requires Count(first, PriceLine) == if kind == Competitor then 1 else 0
    requires |rest| == |sel[1..]| * EntryLines(kind)
    requires forall i :: 0 <= i < |rest| ==> rest[i].Para? && rest[i].style == CustomListText
    requires Count(rest, EntryStart) == |sel[1..]|
    requires Count(rest, PriceLine) == if kind == Competitor then |sel[1..]| else 0
    requires forall j :: 0 <= j < |sel[1..]| ==> NumberedAt(rest, j * EntryLines(kind), sel[1..][j].0)
    ensures |first + rest| == |sel| * EntryLines(kind)
    ensures forall i :: 0 <= i < |first + rest| ==> (first + rest)[i].Para? && (first + rest)[i].style == CustomListText
    ensures Count(first + rest, EntryStart) == |sel|
    ensures Count(first + rest, PriceLine) == if kind == Competitor then |sel| else 0
    ensures forall j :: 0 <= j < |sel| ==> NumberedAt(first + rest, j * EntryLines(kind), sel[j].0)
  {
    CountAppend(first, rest, EntryStart);
    CountAppend(first, rest, PriceLine);
    EntriesShift(kind, sel, first, rest);
  }

  /** Entry `j` of the list starts where entry `j - 1` of its tail starts, one
      entry's lines further on. */
  lemma EntriesShift(kind: EntryKind, sel: seq<(nat, Value)>, first: seq<Item>, rest: seq<Item>)
    requires 0 < |sel| && |first| == EntryLines(kind)
    requires first[0].Para? && StartsWith(first[0].text, Numbered(sel[0].0))
    requires |rest| == |sel[1..]| * EntryLines(kind)
    requires forall j :: 0 <= j < |sel[1..]| ==> NumberedAt(rest, j * EntryLines(kind), sel[1..][j].0)
    ensures |first + rest| == |sel| * EntryLines(kind)
    ensures forall j :: 0 <= j < |sel| ==> NumberedAt(first + rest, j * EntryLines(kind), sel[j].0)
  {
    var n := EntryLines(kind);
    assert |sel| * n == n + |sel[1..]| * n;
    forall j | 0 <= j < |sel| ensures NumberedAt(first + rest, j * n, sel[j].0) {
      if j > 0 {
        var k := j - 1;
        assert j * n == n + k * n;
        assert sel[1..][k] == sel[j];
      }
    }
  }

  /** `for i, x in enumerate(v[:cap], 1)` over the entries the kind accepts;
      slicing anything but a list or a string raises. */
  function Listing(kind: EntryKind, v: Value, cap: nat, repr: Value -> string): (r: Option<seq<Item>>)
    ensures r.Some? <==> v.List? || v.Str?
    ensures r.Some? ==> |r.value| <= cap * EntryLines(kind)
    ensures r.Some? ==> forall i :: 0 <= i < |r.value| ==> r.value[i].Para? && r.value[i].style == CustomListText
    ensures r.Some? ==> Count(r.value, EntryStart) <= cap
    ensures r.Some? ==> Count(r.value, PriceLine) == if kind == Competitor then Count(r.value, EntryStart) else 0
  {
    var xs :- Slice(v, cap);
    var sel := Selected(xs, KindFilter(kind));
    assert |sel| * EntryLines(kind) <= cap * EntryLines(kind) by {
      assert |sel| <= cap;
    }
    Some(Entries(kind, sel, repr))
  }

  // ---------------------------------------------------------- keys and titles

  /** The keys the report reads inside the sections. */
  const PersonaKey: string := "persona_principal"
  const MarketSizeKey: string := "tamanho_mercado"
  const CriticalPainsKey: string := "dores_nivel_1_criticas"
  const PrimaryKeywordsKey: string := "palavras_primarias"
  const RivalsKey: string := "concorrentes_diretos"
  const GapsKey: string := "gaps_oportunidades"
  const BenchmarksKey: string := "benchmarks_segmento"
  const ActionsKey: string := "acoes"

  /** The titles of the optional sections. */
  const AvatarHeading: string := "Perfil do Avatar Principal"
  const ScopeHeading: string := "Escopo de Mercado"
  const PainHeading: string := "Mapeamento de Dores"
  const MarketingHeading: string := "Estratégia de Marketing"
  const CompetitionHeading: string := "Análise Competitiva"
  const MetricsHeading: string := "Métricas de Performance"
  const PlanHeading: string := "Plano de Ação"
  const InsightHeading: string := "Insights Exclusivos"
  const ScenarioHeading: string := "Projeções de Cenários"

  // ---------------------------------------------------------------- headings

  predicate IsHeading1(it: Item) {
    it.Para? && it.style == CustomHeading1
  }

  /** Items none of which is a top-level heading. */
  predicate Plain(items: seq<Item>) {
    forall i :: 0 <= i < |items| ==> !IsHeading1(items[i])
  }

  /** The texts of the top-level headings, in order: the report's table of contents. */
  function Headings(items: seq<Item>): seq<string> {
    if |items| == 0 then []
    else (if IsHeading1(items[0]) then [items[0].text] else []) + Headings(items[1..])
  }

  lemma {:induction false} HeadingsAppend(a: seq<Item>, b: seq<Item>)
    ensures Headings(a + b) == Headings(a) + Headings(b)
    decreases |a|
  {
    if |a| > 0 {
      var h := if IsHeading1(a[0]) then [a[0].text] else [];
      assert (a + b)[0] == a[0];
      assert (a + b)[1..] == a[1..] + b;
      HeadingsAppend(a[1..], b);
      calc {
        Headings(a + b);
        h + Headings(a[1..] + b);
        h + (Headings(a[1..]) + Headings(b));
        (h + Headings(a[1..])) + Headings(b);
      }
    } else {
      assert a + b == b;
    }
  }

  lemma {:induction false} HeadingsPlain(a: seq<Item>)
    requires Plain(a)
    ensures Headings(a) == []
    decreases |a|
  {
    if |a| > 0 {
      HeadingsPlain(a[1..]);
    }
  }

  lemma PlainAppend(a: seq<Item>, b: seq<Item>)
    requires Plain(a) && Plain(b)
    ensures Plain(a + b)
  {
    forall i | 0 <= i < |a + b| ensures !IsHeading1((a + b)[i]) {
      if i >= |a| {
        assert (a + b)[i] == b[i - |a|];
      }
    }
  }

  /** List text holds no top-level heading. */
  lemma ListTextPlain(items: seq<Item>)
    requires forall i :: 0 <= i < |items| ==> items[i].Para? && items[i].style == CustomListText
    ensures Plain(items)
  {
  }

  function Gate(shown: bool, heading: string): seq<string> {
    if shown then [heading] else []
  }

  /** A top-level section: its heading, its body and a spacer. */
  function Section(heading: string, body: seq<Item>): (items: seq<Item>)
    ensures Plain(body) ==> Headings(items) == [heading]
  {
    var items := [Para(CustomHeading1, heading)] + body + [Spacer(3)];
    if Plain(body) then
      HeadingsAppend([Para(CustomHeading1, heading)], body);
      HeadingsAppend([Para(CustomHeading1, heading)] + body, [Spacer(3)]);
      HeadingsPlain(body);
      items
    else items
  }

  /** Counting anything a section's heading and spacer are not counts only its body. */
  lemma SectionCount(heading: string, body: seq<Item>, p: Item -> bool)
    requires !p(Para(CustomHeading1, heading)) && !p(Spacer(3))
    ensures Count(Section(heading, body), p) == Count(body, p)
  {
    CountCons(Para(CustomHeading1, heading), body, p);
    CountAppend([Para(CustomHeading1, heading)] + body, [Spacer(3)], p);
    CountCons(Spacer(3), [], p);
  }

  /** A section's subheadings are its body's. */
  lemma SectionSubheadings(heading: string, body: seq<Item>)
    ensures Subheadings(Section(heading, body)) == Subheadings(body)
  {
    SubheadingsAppend([Para(CustomHeading1, heading)], body);
    SubheadingsAppend([Para(CustomHeading1, heading)] + body, [Spacer(3)]);
    assert Subheadings([Para(CustomHeading1, heading)]) == [];
    assert Subheadings([Spacer(3)]) == [];
  }

  // ------------------------------------------------------------ section parts

  /** `d.get(k, default)` on a dict. */
  function Member(d: Value, k: string, default: Value): Value
    requires d.Dict?
  {
    Get(d.fields, k, default)
  }

  /** A value that is either falsy or a dict, so that `v.get` is reached only on a dict. */
  predicate Mapping(v: Value) {
    !Truthy(v) || v.Dict?
  }

  /** A value that is either falsy or can be sliced and iterated. */
  predicate Listable(v: Value) {
    !Truthy(v) || v.List? || v.Str?
  }

  /** A numbered sub-list under its own heading, shown only when the value is truthy. */
  function SubList(heading: string, kind: EntryKind, v: Value, cap: nat, repr: Value -> string): (r: Option<seq<Item>>)
    ensures r.Some? <==> Listable(v)
    ensures !Truthy(v) ==> r == Some([])
    ensures r.Some? && Truthy(v) ==> |r.value| >= 1 && r.value[0] == Para(CustomHeading2, heading)
    ensures r.Some? ==> |r.value| <= 1 + cap * EntryLines(kind)
    ensures r.Some? ==> Plain(r.value)
    ensures r.Some? ==> Count(r.value, EntryStart) <= cap
    ensures r.Some? ==> Count(r.value, PriceLine) == if kind == Competitor then Count(r.value, EntryStart) else 0
  {
    if !Truthy(v) then Some([])
    else
      var entries :- Listing(kind, v, cap, repr);
      CountCons(Para(CustomHeading2, heading), entries, EntryStart);
      CountCons(Para(CustomHeading2, heading), entries, PriceLine);
      Some([Para(CustomHeading2, heading)] + entries)
  }

  /** Labelled fields of a dict, one paragraph each. */
  function Fields(d: Value, labels: seq<(string, string)>, style: Style, repr: Value -> string): (items: seq<Item>)
    requires d.Dict?
    ensures |items| == |labels|
    ensures forall i :: 0 <= i < |items| ==> items[i] == Para(style, labels[i].0 + Attr(d, labels[i].1, repr))
  {
    seq(|labels|, i requires 0 <= i < |labels| => Para(style, labels[i].0 + Attr(d, labels[i].1, repr)))
  }

  /** A dict-valued part under `heading`, shown only when the value is truthy. */
  function DictPart(v: Value, heading: seq<Item>, labels: seq<(string, string)>, style: Style, repr: Value -> string): (r: Option<seq<Item>>)
    ensures r.Some? <==> Mapping(v)
    ensures !Truthy(v) ==> r == Some([])
    ensures r.Some? && Truthy(v) ==> |r.value| == |heading| + |labels|
    ensures r.Some? && Plain(heading) && style != CustomHeading1 ==> Plain(r.value)
  {
    if !Truthy(v) then Some([])
    else if !v.Dict? then None
    else
      var fields := Fields(v, labels, style, repr);
      if Plain(heading) && style != CustomHeading1 then
        PlainAppend(heading, fields);
        Some(heading + fields)
      else Some(heading + fields)
  }

  const PersonaLabels: seq<(string, string)> := [
    ("Nome: ", "nome"), ("Idade: ", "idade"), ("Profissão: ", "profissao"),
    ("Renda Mensal: ", "renda_mensal"), ("Localização: ", "localizacao"),
    ("Estado Civil: ", "estado_civil"), ("Escolaridade: ", "escolaridade")]

  const ScopeLabels: seq<(string, string)> := [
    ("Segmento Principal: ", "segmento_principal"), ("Produto Ideal: ", "produto_ideal"),
    ("Proposta de Valor: ", "proposta_valor")]

  const MarketLabels: seq<(string, string)> := [
    ("TAM (Total Addressable Market): ", "tam"),
    ("SAM (Serviceable Addressable Market): ", "sam"),
    ("SOM (Serviceable Obtainable Market): ", "som")]

  const BenchmarkLabels: seq<(string, string)> := [
    ("CAC Médio: ", "cac_medio_segmento"), ("LTV Médio: ", "ltv_medio_segmento"),
    ("Churn Rate: ", "churn_rate_medio"), ("Ticket Médio: ", "ticket_medio_segmento")]

  const ScenarioLabels: seq<(string, string)> := [
    ("Taxa de Conversão: ", "taxa_conversao"), ("Ticket Médio: ", "ticket_medio"),
    ("CAC: ", "cac"), ("ROI: ", "roi")]

  // ---------------------------------------------- when each section can be built

  /** `data['avatar_ultra_detalhado']`, or `{}`. */
  function AvatarData(data: Value): Value
    requires data.Dict?
  {
    Member(data, AvatarKey, Dict([]))
  }

  /** The avatar is a dict and its `persona_principal` is falsy or a dict. */
  predicate AvatarOk(data: Value)
    requires data.Dict?
  {
    AvatarData(data).Dict? && Mapping(Member(AvatarData(data), PersonaKey, Dict([])))
  }

  /** Section `key` is falsy or a dict, and when it is truthy its list `inner`
      is falsy or sliceable. */
  predicate ListOk(data: Value, key: string, inner: string)
    requires data.Dict?
  {
    var v := Member(data, key, Dict([]));
    Mapping(v) && (Truthy(v) ==> Listable(Member(v, inner, List([]))))
  }

  /** Section `key` is falsy or a dict, and when it is truthy its part `inner`
      is falsy or a dict. */
  predicate DictOk(data: Value, key: string, inner: string)
    requires data.Dict?
  {
    var v := Member(data, key, Dict([]));
    Mapping(v) && (Truthy(v) ==> Mapping(Member(v, inner, Dict([]))))
  }

  /** Each named member of the dict `v` is falsy or a dict. */
  predicate MembersMapping(v: Value, names: seq<string>)
    requires v.Dict?
  {
    forall i :: 0 <= i < |names| ==> Mapping(Member(v, names[i], Dict([])))
  }

  /** The scenarios are falsy or a dict, and when truthy each named scenario is falsy or a dict. */
  predicate ScenariosOk(data: Value)
    requires data.Dict?
  {
    var v := Member(data, ScenariosKey, Dict([]));
    Mapping(v) && (Truthy(v) ==> MembersMapping(v, ScenarioNames))
  }

  /** A phase's actions are falsy or sliceable. */
  predicate PhaseOk(phase: Value)
    requires phase.Dict?
  {
    Listable(Member(phase, ActionsKey, List([])))
  }

  /** A plan that is falsy or sliceable, and whose first three entries, when
      dicts, have actions that are falsy or sliceable. */
  predicate PlanValueOk(p: Value) {
    Listable(p) && (p.List? ==> forall i :: 0 <= i < |p.items| && i < 3 && p.items[i].Dict? ==> PhaseOk(p.items[i]))
  }

  predicate PlanOk(data: Value)
    requires data.Dict?
  {
    PlanValueOk(Member(data, PlanKey, List([])))
  }

  // ---------------------------------------------------------------- sections

  /** The persona profile, shown when `avatar_ultra_detalhado.persona_principal` is truthy. */
  function AvatarSection(data: Value, repr: Value -> string): (r: Option<seq<Item>>)
    requires data.Dict?
    ensures AvatarData(data).Dict? && !Truthy(Source(data, AvatarPart)) ==> r == Some([])
    ensures r.Some? <==> AvatarOk(data)
    ensures r.Some? ==>
      Headings(r.value) == Gate(Truthy(Source(data, AvatarPart)), HeadingOf(AvatarPart))
  {
    var avatar :- DictGet(AvatarData(data), PersonaKey, Dict([]));
    var fields :- DictPart(avatar, [], PersonaLabels, CustomBodyText, repr);
    Some(if Truthy(avatar) then Section(HeadingOf(AvatarPart), fields) else [])
  }

  function ScopeSection(data: Value, repr: Value -> string): (r: Option<seq<Item>>)
    requires data.Dict?
    ensures !Truthy(Source(data, ScopePart)) ==> r == Some([])
    ensures r.Some? <==> DictOk(data, ScopeKey, MarketSizeKey)
    ensures r.Some? ==> Headings(r.value) == Gate(Truthy(Source(data, ScopePart)), HeadingOf(ScopePart))
  {
    var escopo := Source(data, ScopePart);
    if !Truthy(escopo) then Some([])
    else if !escopo.Dict? then None
    else
      var fields := Fields(escopo, ScopeLabels, CustomBodyText, repr);
      var sizes :- DictPart(Member(escopo, MarketSizeKey, Dict([])),
        [Para(CustomHeading2, "Tamanho do Mercado:")], MarketLabels, CustomListText, repr);
      PlainAppend(fields, sizes);
      Some(Section(HeadingOf(ScopePart), fields + sizes))
  }

  function PainSection(data: Value, repr: Value -> string): (r: Option<seq<Item>>)
    requires data.Dict?
    ensures !Truthy(Source(data, PainPart)) ==> r == Some([])
    ensures r.Some? <==> ListOk(data, PainsKey, CriticalPainsKey)
    ensures r.Some? ==>
      Headings(r.value) == Gate(Truthy(Source(data, PainPart)), HeadingOf(PainPart))
    ensures r.Some? ==> Count(r.value, EntryStart) <= 3
  {
    var dores := Source(data, PainPart);
    if !Truthy(dores) then Some([])
    else if !dores.Dict? then None
    else
      var critical :- SubList("Dores Críticas (Nível 1):", Pain, Member(dores, CriticalPainsKey, List([])), 3, repr);
      SectionCount(HeadingOf(PainPart), critical, EntryStart);
      Some(Section(HeadingOf(PainPart), critical))
  }

  function MarketingSection(data: Value, repr: Value -> string): (r: Option<seq<Item>>)
    requires data.Dict?
    ensures !Truthy(Source(data, MarketingPart)) ==> r == Some([])
    ensures r.Some? <==> ListOk(data, KeywordsKey, PrimaryKeywordsKey)
    ensures r.Some? ==>
      Headings(r.value) == Gate(Truthy(Source(data, MarketingPart)), HeadingOf(MarketingPart))
    ensures r.Some? ==> Count(r.value, EntryStart) <= 5
  {
    var marketing := Source(data, MarketingPart);
    if !Truthy(marketing) then Some([])
    else if !marketing.Dict? then None
    else
      var words :- SubList("Palavras-Chave Primárias:", Keyword, Member(marketing, PrimaryKeywordsKey, List([])), 5, repr);
      SectionCount(HeadingOf(MarketingPart), words, EntryStart);
      Some(Section(HeadingOf(MarketingPart), words))
  }

  function CompetitionSection(data: Value, repr: Value -> string): (r: Option<seq<Item>>)
    requires data.Dict?
    ensures !Truthy(Source(data, CompetitionPart)) ==> r == Some([])
    ensures r.Some? <==> (ListOk(data, CompetitionKey, RivalsKey)
      && ListOk(data, CompetitionKey, GapsKey))
    ensures r.Some? ==>
      Headings(r.value) == Gate(Truthy(Source(data, CompetitionPart)), HeadingOf(CompetitionPart))
    ensures r.Some? ==> Count(r.value, PriceLine) <= 3
    ensures r.Some? ==> Count(r.value, EntryStart) - Count(r.value, PriceLine) <= 3
  {
    var competicao := Source(data, CompetitionPart);
    if !Truthy(competicao) then Some([])
    else if !competicao.Dict? then None
    else
      var rivals :- SubList("Principais Concorrentes:", Competitor, Member(competicao, RivalsKey, List([])), 3, repr);
      var gaps :- SubList("Oportunidades de Mercado:", Gap, Member(competicao, GapsKey, List([])), 3, repr);
      PlainAppend(rivals, gaps);
      CountAppend(rivals, gaps, EntryStart);
      CountAppend(rivals, gaps, PriceLine);
      SectionCount(HeadingOf(CompetitionPart), rivals + gaps, EntryStart);
      SectionCount(HeadingOf(CompetitionPart), rivals + gaps, PriceLine);
      Some(Section(HeadingOf(CompetitionPart), rivals + gaps))
  }

  function MetricsSection(data: Value, repr: Value -> string): (r: Option<seq<Item>>)
    requires data.Dict?
    ensures !Truthy(Source(data, MetricsPart)) ==> r == Some([])
    ensures r.Some? <==> DictOk(data, MetricsKey, BenchmarksKey)
    ensures r.Some? ==>
      Headings(r.value) == Gate(Truthy(Source(data, MetricsPart)), HeadingOf(MetricsPart))
  {
    var metricas := Source(data, MetricsPart);
    if !Truthy(metricas) then Some([])
    else if !metricas.Dict? then None
    else
      var benchmarks :- DictPart(Member(metricas, BenchmarksKey, Dict([])),
        [Para(CustomHeading2, "Benchmarks do Segmento:")], BenchmarkLabels, CustomListText, repr);
      Some(Section(HeadingOf(MetricsPart), benchmarks))
  }

  /** One phase of the action plan: its name, its duration and at most two actions. */
  function Phase(v: Value, repr: Value -> string): (r: Option<seq<Item>>)
    requires v.Dict?
    ensures r.Some? <==> PhaseOk(v)
    ensures r.Some? ==> |r.value| <= 8 && Plain(r.value)
    ensures r.Some? ==> Count(r.value, IsHeading2) == 1 && Count(r.value, EntryStart) <= 2
  {
    var actions :- PhaseActions(Member(v, ActionsKey, List([])), repr);
    var head := PhaseHead(v, repr);
    PlainAppend(head, actions);
    CountAppend(head, actions, IsHeading2);
    CountAppend(head, actions, EntryStart);
    Some(head + actions)
  }

  /** The name and duration of a phase. */
  function PhaseHead(v: Value, repr: Value -> string): (items: seq<Item>)
    requires v.Dict?
    ensures |items| == 2 && Plain(items)
    ensures Count(items, IsHeading2) == 1 && Count(items, EntryStart) == 0
  {
    var name := Para(CustomHeading2, Display(Get(v.fields, "fase", Str("Fase")), repr));
    var duration := Para(CustomBodyText, "Duração: " + Attr(v, "duracao", repr));
    CountCons(name, [duration], IsHeading2);
    CountCons(name, [duration], EntryStart);
    [name, duration]
  }

  /** The first two actions of a phase, when it has any. */
  function PhaseActions(acoes: Value, repr: Value -> string): (r: Option<seq<Item>>)
    ensures r.Some? <==> Listable(acoes)
    ensures r.Some? ==> |r.value| <= 6 && Plain(r.value)
    ensures r.Some? ==> Count(r.value, IsHeading2) == 0 && Count(r.value, EntryStart) <= 2
  {
    if !Truthy(acoes) then Some([])
    else
      var items :- Listing(Action, acoes, 2, repr);
      ListTextPlain(items);
      CountNone(items, IsHeading2);
      Some(items)
  }

  function Phases(sel: seq<(nat, Value)>, repr: Value -> string): (r: Option<seq<Item>>)
    requires forall j :: 0 <= j < |sel| ==> sel[j].1.Dict?
    ensures r.Some? <==> forall j :: 0 <= j < |sel| ==> PhaseOk(sel[j].1)
    ensures r.Some? ==> |r.value| <= 8 * |sel| && Plain(r.value)
    ensures r.Some? ==> Count(r.value, IsHeading2) == |sel| && Count(r.value, EntryStart) <= 2 * |sel|
  {
    if |sel| == 0 then Some([])
    else
      PhasesOkStep(sel);
      var first :- Phase(sel[0].1, repr);
      var rest :- Phases(sel[1..], repr);
      PhasesJoin(first, rest, |sel| - 1);
      Some(first + rest)
  }

  /** Every phase is acceptable exactly when the first one is and all later ones are. */
  lemma PhasesOkStep(sel: seq<(nat, Value)>)
    requires 0 < |sel| && forall j :: 0 <= j < |sel| ==> sel[j].1.Dict?
    ensures (forall j :: 0 <= j < |sel| ==> PhaseOk(sel[j].1))
      <==> PhaseOk(sel[0].1) && forall j :: 0 <= j < |sel[1..]| ==> PhaseOk(sel[1..][j].1)
  {
    if PhaseOk(sel[0].1) && forall j :: 0 <= j < |sel[1..]| ==> PhaseOk(sel[1..][j].1) {
      forall j | 0 < j < |sel| ensures PhaseOk(sel[j].1) {
        assert sel[j] == sel[1..][j - 1];
      }
    }
  }

  /** One more phase in front of `n` phases: one more name, at most two more actions. */
  lemma PhasesJoin(first: seq<Item>, rest: seq<Item>, n: nat)
    requires |first| <= 8 && Plain(first) && Plain(rest) && |rest| <= 8 * n
    requires Count(first, IsHeading2) == 1 && Count(first, EntryStart) <= 2
    requires Count(rest, IsHeading2) == n && Count(rest, EntryStart) <= 2 * n
    ensures |first + rest| <= 8 * (n + 1) && Plain(first + rest)
    ensures Count(first + rest, IsHeading2) == n + 1 && Count(first + rest, EntryStart) <= 2 * (n + 1)
  {
    PlainAppend(first, rest);
    CountAppend(first, rest, IsHeading2);
    CountAppend(first, rest, EntryStart);
  }

  /** The dicts among `xs` all have acceptable actions exactly when the selected ones do. */
  lemma SelectedPhasesOk(xs: seq<Value>)
    ensures var sel := Selected(xs, Dicts);
      (forall j :: 0 <= j < |sel| ==> PhaseOk(sel[j].1))
      <==> (forall i :: 0 <= i < |xs| && xs[i].Dict? ==> PhaseOk(xs[i]))
  {
    var sel := Selected(xs, Dicts);
    if forall j :: 0 <= j < |sel| ==> PhaseOk(sel[j].1) {
      forall i | 0 <= i < |xs| && xs[i].Dict? ensures PhaseOk(xs[i]) {
        SelectedExactly(xs, Dicts, i);
        var j :| 0 <= j < |sel| && sel[j] == (i + 1, xs[i]);
        assert PhaseOk(sel[j].1);
      }
    }
    if forall i :: 0 <= i < |xs| && xs[i].Dict? ==> PhaseOk(xs[i]) {
      forall j | 0 <= j < |sel| ensures PhaseOk(sel[j].1) {
        assert sel[j].1 == xs[sel[j].0 - 1];
      }
    }
  }

  /** Slicing a plan to three entries keeps exactly the phases the plan's condition inspects. */
  lemma SlicedPhasesOk(p: Value)
    requires p.List? || p.Str?
    ensures var sel := Selected(Slice(p, 3).value, Dicts);
      (forall j :: 0 <= j < |sel| ==> PhaseOk(sel[j].1)) <==> PlanValueOk(p)
  {
    var xs := Slice(p, 3).value;
    SelectedPhasesOk(xs);
    if p.List? {
      assert forall i :: 0 <= i < |xs| ==> xs[i] == p.items[i];
      assert |xs| == if |p.items| <= 3 then |p.items| else 3;
    }
  }

  function PlanSection(data: Value, repr: Value -> string): (r: Option<seq<Item>>)
    requires data.Dict?
    ensures !Truthy(Source(data, PlanPart)) ==> r == Some([])
    ensures r.Some? <==> PlanOk(data)
    ensures r.Some? ==> Headings(r.value) == Gate(Truthy(Source(data, PlanPart)), HeadingOf(PlanPart))
    ensures r.Some? ==> Count(r.value, IsHeading2) <= 3
    ensures r.Some? ==> Count(r.value, EntryStart) <= 2 * Count(r.value, IsHeading2)
  {
    var plano := Member(data, PlanKey, List([]));
    assert plano == Source(data, PlanPart);
    if !Truthy(plano) then
      assert PlanValueOk(plano) by {
        assert plano.List? ==> |plano.items| == 0;
      }
      Some([])
    else
      var phases :- PlanBody(plano, repr);
      SectionCount(PlanHeading, phases, IsHeading2);
      SectionCount(PlanHeading, phases, EntryStart);
      Some(Section(PlanHeading, phases))
  }

  /** The first three phases of a truthy plan, those that are dicts. */
  function PlanBody(plano: Value, repr: Value -> string): (r: Option<seq<Item>>)
    requires Truthy(plano)
    ensures r.Some? <==> PlanValueOk(plano)
    ensures r.Some? ==> Plain(r.value)
    ensures r.Some? ==> Count(r.value, IsHeading2) <= 3
    ensures r.Some? ==> Count(r.value, EntryStart) <= 2 * Count(r.value, IsHeading2)
  {
    var xs :- Slice(plano, 3);
    SlicedPhasesOk(plano);
    var sel := Selected(xs, Dicts);
    assert forall j :: 0 <= j < |sel| ==> sel[j].1.Dict? by {
      forall j | 0 <= j < |sel| ensures sel[j].1.Dict? {
        assert Keeps(Dicts, sel[j].1);
      }
    }
    Phases(sel, repr)
  }

  function InsightSection(data: Value, repr: Value -> string): (r: Option<seq<Item>>)
    requires data.Dict?
    ensures !Truthy(Source(data, InsightPart)) ==> r == Some([])
    ensures r.Some? <==> Listable(Member(data, InsightsKey, List([])))
    ensures r.Some? ==> Headings(r.value) == Gate(Truthy(Source(data, InsightPart)), HeadingOf(InsightPart))
    ensures r.Some? ==> Count(r.value, EntryStart) <= 5
  {
    var insights := Member(data, InsightsKey, List([]));
    assert insights == Source(data, InsightPart);
    if !Truthy(insights) then Some([])
    else
      var entries :- Listing(Insight, insights, 5, repr);
      ListTextPlain(entries);
      SectionCount(InsightHeading, entries, EntryStart);
      Some(Section(InsightHeading, entries))
  }

  const ScenarioNames: seq<string> := ["cenario_conservador", "cenario_realista", "cenario_otimista"]

  /** `name.replace('cenario_', '').replace('_', ' ').title()`. */
  function ScenarioTitle(name: string): string {
    TitleCase(Replace(Replace(name, "cenario_", ""), "_", " "))
  }

  /** The subtitle a scenario is shown under. */
  function ScenarioSubtitle(name: string): string {
    "Cenário " + ScenarioTitle(name) + ":"
  }

  /** The texts of the second-level headings, in order. */
  function Subheadings(items: seq<Item>): seq<string> {
    if |items| == 0 then []
    else (if IsHeading2(items[0]) then [items[0].text] else []) + Subheadings(items[1..])
  }

  lemma {:induction false} SubheadingsAppend(a: seq<Item>, b: seq<Item>)
    ensures Subheadings(a + b) == Subheadings(a) + Subheadings(b)
    decreases |a|
  {
    if |a| > 0 {
      assert (a + b)[0] == a[0];
      assert (a + b)[1..] == a[1..] + b;
      SubheadingsAppend(a[1..], b);
    } else {
      assert a + b == b;
    }
  }

  lemma {:induction false} SubheadingsNone(items: seq<Item>)
    requires forall i :: 0 <= i < |items| ==> !IsHeading2(items[i])
    ensures Subheadings(items) == []
    decreases |items|
  {
    if |items| > 0 {
      SubheadingsNone(items[1..]);
    }
  }

  /** The subtitles of the named scenarios that are truthy, in the order named. */
  function ShownScenarios(cenarios: Value, names: seq<string>): seq<string>
    requires cenarios.Dict?
  {
    if |names| == 0 then []
    else
      var shown := if Truthy(Member(cenarios, names[0], Dict([]))) then [ScenarioSubtitle(names[0])] else [];
      shown + ShownScenarios(cenarios, names[1..])
  }

  /** The lines of one scenario carry its subtitle when it is truthy, and no
      subtitle otherwise. */
  lemma ScenarioSubheadings(scenario: Value, name: string, repr: Value -> string)
    requires Mapping(scenario)
    ensures var part := DictPart(scenario, [Para(CustomHeading2, ScenarioSubtitle(name))], ScenarioLabels, CustomListText, repr);
      part.Some? && Subheadings(part.value) == if Truthy(scenario) then [ScenarioSubtitle(name)] else []
  {
    if Truthy(scenario) {
      var fields := Fields(scenario, ScenarioLabels, CustomListText, repr);
      SubheadingsNone(fields);
      SubheadingsAppend([Para(CustomHeading2, ScenarioSubtitle(name))], fields);
      assert Subheadings([Para(CustomHeading2, ScenarioSubtitle(name))]) == [ScenarioSubtitle(name)];
    }
  }

  /** The scenarios named, in order, each shown under its subtitle when truthy. */
  function Scenarios(cenarios: Value, names: seq<string>, repr: Value -> string): (r: Option<seq<Item>>)
    requires cenarios.Dict?
    ensures r.Some? <==> MembersMapping(cenarios, names)
    ensures r.Some? ==> Plain(r.value)
    ensures r.Some? ==> Subheadings(r.value) == ShownScenarios(cenarios, names)
  {
    if |names| == 0 then Some([])
    else
      var scenario := Member(cenarios, names[0], Dict([]));
      var first :- DictPart(scenario, [Para(CustomHeading2, ScenarioSubtitle(names[0]))], ScenarioLabels, CustomListText, repr);
      var rest :- Scenarios(cenarios, names[1..], repr);
      PlainAppend(first, rest);
      ScenarioSubheadings(scenario, names[0], repr);
      SubheadingsAppend(first, rest);
      Some(first + rest)
  }

  function ScenarioSection(data: Value, repr: Value -> string): (r: Option<seq<Item>>)
    requires data.Dict?
    ensures !Truthy(Source(data, ScenarioPart)) ==> r == Some([])
    ensures r.Some? <==> ScenariosOk(data)
    ensures r.Some? ==>
      Headings(r.value) == Gate(Truthy(Source(data, ScenarioPart)), HeadingOf(ScenarioPart))
    ensures r.Some? && Truthy(Source(data, ScenarioPart)) ==>
      Subheadings(r.value) == ShownScenarios(Source(data, ScenarioPart), ScenarioNames)
  {
    var cenarios := Member(data, ScenariosKey, Dict([]));
    assert cenarios == Source(data, ScenarioPart);
    if !Truthy(cenarios) then Some([])
    else if !cenarios.Dict? then None
    else
      var body :- Scenarios(cenarios, ScenarioNames, repr);
      SectionSubheadings(ScenarioHeading, body);
      Some(Section(ScenarioHeading, body))
  }

  // ------------------------------------------------------------ the outline

  /** The title page. */
  function Cover(segment: string, stamp: string): (items: seq<Item>)
    ensures Plain(items)
  {
    [Para(CustomTitle, "Relatório de Arqueologia de Avatar"),
     Spacer(3),
     Para(CustomSubtitle, "Análise Ultra-Detalhada: " + segment),
     Spacer(5),
     Para(CustomCaption, "Gerado em: " + stamp),
     PageBreak]
  }

  const SummaryLead: string := "Este relatório apresenta uma análise ultra-detalhada do segmento "
  const SummaryTail: string :=
    ", utilizando inteligência artificial avançada e pesquisa em tempo real na internet. "
    + "A análise revela insights profundos sobre o avatar ideal, estratégias de marketing "
    + "e oportunidades de mercado."

  /** The executive summary, which quotes the segment. */
  function Summary(segment: string): string {
    SummaryLead + segment + SummaryTail
  }

  const ConclusionText: string :=
    "Esta análise ultra-detalhada fornece uma base sólida para o desenvolvimento de "
    + "estratégias de marketing eficazes e o lançamento bem-sucedido do produto no mercado brasileiro. "
    + "Os insights apresentados foram gerados através de inteligência artificial avançada e "
    + "pesquisa em tempo real, garantindo informações atualizadas e relevantes."

  const Signature: string := "Relatório gerado pela plataforma UP Lançamentos - Arqueologia do Avatar com IA"

  /** `_safe_get(data, 'escopo', 'segmento_principal', default=...)` as quoted in the report. */
  function ReportSegment(data: Value, repr: Value -> string): string {
    Display(SafeGet(data, [ScopeKey, "segmento_principal"], UnspecifiedSegment), repr)
  }

  /** The title page and the executive summary. */
  function Opening(segment: string, stamp: string): (items: seq<Item>)
    ensures Headings(items) == ["Resumo Executivo"]
  {
    var cover := Cover(segment, stamp);
    var summary := Section("Resumo Executivo", [Para(CustomBodyText, Summary(segment))]);
    HeadingsAppend(cover, summary);
    HeadingsPlain(cover);
    cover + summary
  }

  /** The closing page. */
  function Closing(): (items: seq<Item>)
    ensures Headings(items) == ["Conclusão"]
  {
    var conclusion := Section("Conclusão", [Para(CustomBodyText, ConclusionText)]);
    HeadingsAppend([PageBreak], conclusion);
    HeadingsAppend([PageBreak] + conclusion, [Para(CustomCaption, Signature)]);
    HeadingsPlain([PageBreak]);
    HeadingsPlain([Para(CustomCaption, Signature)]);
    [PageBreak] + conclusion + [Para(CustomCaption, Signature)]
  }

  /** The optional sections of the report, in report order. */
  datatype Part =
    | AvatarPart | ScopePart | PainPart | MarketingPart | CompetitionPart
    | MetricsPart | PlanPart | InsightPart | ScenarioPart

  const Parts: seq<Part> := [
    AvatarPart, ScopePart, PainPart, MarketingPart, CompetitionPart,
    MetricsPart, PlanPart, InsightPart, ScenarioPart]

  /** Where a part stands in the report. */
  function Position(p: Part): (i: nat)
    ensures i < |Parts| && Parts[i] == p
  {
    match p
    case AvatarPart => 0
    case ScopePart => 1
    case PainPart => 2
    case MarketingPart => 3
    case CompetitionPart => 4
    case MetricsPart => 5
    case PlanPart => 6
    case InsightPart => 7
    case ScenarioPart => 8
  }

  /** The lookups a part makes land on values of the types they need. */
  predicate PartOk(data: Value, p: Part)
    requires data.Dict?
  {
    match p
    case AvatarPart => AvatarOk(data)
    case ScopePart => DictOk(data, ScopeKey, MarketSizeKey)
    case PainPart => ListOk(data, PainsKey, CriticalPainsKey)
    case MarketingPart => ListOk(data, KeywordsKey, PrimaryKeywordsKey)
    case CompetitionPart =>
      ListOk(data, CompetitionKey, RivalsKey)
      && ListOk(data, CompetitionKey, GapsKey)
    case MetricsPart => DictOk(data, MetricsKey, BenchmarksKey)
    case PlanPart => PlanOk(data)
    case InsightPart => Listable(Member(data, InsightsKey, List([])))
    case ScenarioPart => ScenariosOk(data)
  }

  /** Every lookup the outline makes lands on a value of the type it needs: the
      report is produced exactly for such analyses. */
  predicate Readable(data: Value) {
    data.Dict? && forall p :: PartOk(data, p)
  }

  /** The value whose truthiness decides whether a part appears. */
  function Source(data: Value, p: Part): Value
    requires data.Dict? && (p.AvatarPart? ==> AvatarData(data).Dict?)
  {
    match p
    case AvatarPart => Member(AvatarData(data), PersonaKey, Dict([]))
    case ScopePart => Member(data, ScopeKey, Dict([]))
    case PainPart => Member(data, PainsKey, Dict([]))
    case MarketingPart => Member(data, KeywordsKey, Dict([]))
    case CompetitionPart => Member(data, CompetitionKey, Dict([]))
    case MetricsPart => Member(data, MetricsKey, Dict([]))
    case PlanPart => Member(data, PlanKey, List([]))
    case InsightPart => Member(data, InsightsKey, List([]))
    case ScenarioPart => Member(data, ScenariosKey, Dict([]))
  }

  function HeadingOf(p: Part): string {
    match p
    case AvatarPart => AvatarHeading
    case ScopePart => ScopeHeading
    case PainPart => PainHeading
    case MarketingPart => MarketingHeading
    case CompetitionPart => CompetitionHeading
    case MetricsPart => MetricsHeading
    case PlanPart => PlanHeading
    case InsightPart => InsightHeading
    case ScenarioPart => ScenarioHeading
  }

  /** A part of the report: built exactly when its lookups succeed, and then
      headed by its title exactly when its source value is truthy. */
  function Build(data: Value, p: Part, repr: Value -> string): (r: Option<seq<Item>>)
    requires data.Dict?
    ensures r.Some? <==> PartOk(data, p)
    ensures r.Some? ==> Headings(r.value) == Gate(Truthy(Source(data, p)), HeadingOf(p))
    ensures (p.AvatarPart? ==> AvatarData(data).Dict?) && !Truthy(Source(data, p)) ==> r == Some([])
  {
    match p
    case AvatarPart => AvatarSection(data, repr)
    case ScopePart => ScopeSection(data, repr)
    case PainPart => PainSection(data, repr)
    case MarketingPart => MarketingSection(data, repr)
    case CompetitionPart => CompetitionSection(data, repr)
    case MetricsPart => MetricsSection(data, repr)
    case PlanPart => PlanSection(data, repr)
    case InsightPart => InsightSection(data, repr)
    case ScenarioPart => ScenarioSection(data, repr)
  }

  /** The heading each optional section contributes, in report order. */
  function SectionGates(data: Value): (gates: seq<seq<string>>)
    requires Readable(data)
    ensures |gates| == |Parts|
  {
    assert PartOk(data, AvatarPart);
    seq(|Parts|, i requires 0 <= i < |Parts| => Gate(Truthy(Source(data, Parts[i])), HeadingOf(Parts[i])))
  }

  /** The headings of each part. */
  function HeadingsEach(parts: seq<seq<Item>>): (r: seq<seq<string>>)
    ensures |r| == |parts|
    ensures forall i :: 0 <= i < |parts| ==> r[i] == Headings(parts[i])
  {
    seq(|parts|, i requires 0 <= i < |parts| => Headings(parts[i]))
  }

  /** Every part, or `None` when one of them is `None`. */
  function Collect<T>(parts: seq<Option<T>>): (r: Option<seq<T>>)
    ensures r.Some? <==> forall i :: 0 <= i < |parts| ==> parts[i].Some?
    ensures r.Some? ==> |r.value| == |parts| && forall i :: 0 <= i < |parts| ==> r.value[i] == parts[i].value
  {
    if forall i :: 0 <= i < |parts| ==> parts[i].Some? then
      Some(seq(|parts|, i requires 0 <= i < |parts| => parts[i].value))
    else None
  }

  /** The nine optional sections, in report order; `None` when one of them raises. */
  function Sections(data: Value, repr: Value -> string): (r: Option<seq<seq<Item>>>)
    requires data.Dict?
    ensures r.Some? <==> Readable(data)
    ensures r.Some? ==> HeadingsEach(r.value) == SectionGates(data)
  {
    var built := seq(|Parts|, i requires 0 <= i < |Parts| => Build(data, Parts[i], repr));
    var r := Collect(built);
    assert r.Some? <==> Readable(data) by {
      if r.Some? {
        forall p ensures PartOk(data, p) {
          assert built[Position(p)].Some?;
        }
      }
    }
    r
  }

  lemma {:induction false} FlattenHeadings(parts: seq<seq<Item>>)
    ensures Headings(Flatten(parts)) == Flatten(HeadingsEach(parts))
  {
    if |parts| > 0 {
      var init := parts[..|parts| - 1];
      FlattenHeadings(init);
      HeadingsAppend(Flatten(init), parts[|parts| - 1]);
      assert HeadingsEach(parts)[..|parts| - 1] == HeadingsEach(init);
    }
  }

  /** The outline `generate_pdf_report` builds from an analysis; `None` when
      building it raises, in which case no report is produced. `stamp` is the
      formatted generation time. */
  function Outline(data: Value, stamp: string, repr: Value -> string): (r: Option<seq<Item>>)
    ensures r.Some? <==> Readable(data)
  {
    if !data.Dict? then None
    else
      var sections :- Sections(data, repr);
      Some(Opening(ReportSegment(data, repr), stamp) + Flatten(sections) + Closing())
  }

  /** `generate_pdf_report(data, filename)`: whether the report was produced. */
  function GeneratePdfReport(data: Value, stamp: string, repr: Value -> string): (ok: bool)
    ensures ok <==> Readable(data)
  {
    Outline(data, stamp, repr).Some?
  }

  /** A produced report has exactly the expected top-level headings: the summary,
      each optional section exactly when its source value is truthy, in a fixed
      order, and the conclusion. A section left out loses its heading too. */
  lemma OutlineHeadings(data: Value, stamp: string, repr: Value -> string)
    requires Readable(data)
    ensures Headings(Outline(data, stamp, repr).value)
      == ["Resumo Executivo"] + Flatten(SectionGates(data)) + ["Conclusão"]
  {
    var opening := Opening(ReportSegment(data, repr), stamp);
    var sections := Sections(data, repr).value;
    var closing := Closing();
    assert Outline(data, stamp, repr).value == opening + Flatten(sections) + closing;
    FrameHeadings(opening, sections, closing);
  }

  lemma FrameHeadings(opening: seq<Item>, sections: seq<seq<Item>>, closing: seq<Item>)
    ensures Headings(opening + Flatten(sections) + closing)
      == Headings(opening) + Flatten(HeadingsEach(sections)) + Headings(closing)
  {
    FlattenHeadings(sections);
    HeadingsAppend(opening, Flatten(sections));
    HeadingsAppend(opening + Flatten(sections), closing);
  }

  // ---------------------------------------------------------------- examples

  /** Each scenario is headed by the word after `cenario_`, capitalised:
      Conservador, Realista and Otimista, in that order. */
  lemma ScenarioHeadings(i: nat)
    requires i < |ScenarioNames|
    ensures |ScenarioNames[i]| > 8 && ScenarioNames[i][..8] == "cenario_"
    ensures var w := ScenarioNames[i][8..];
      ScenarioTitle(ScenarioNames[i]) == [ToUpper(w[0])] + w[1..]
  {
    var name := ScenarioNames[i];
    var w := name[8..];
    assert name[..8] == "cenario_" && |w| > 0 && IsLowerWord(w) by {
      if i == 0 {
        assert w == "conservador";
      } else if i == 1 {
        assert w == "realista";
      } else {
        assert w == "otimista";
      }
    }
    assert name == "cenario_" + w;
    ScenarioTitleOfWord(w);
  }

  /** A scenario named `cenario_` plus a lower-case word is titled by that word, capitalised. */
  lemma ScenarioTitleOfWord(w: string)
    requires |w| > 0 && IsLowerWord(w)
    ensures ScenarioTitle("cenario_" + w) == [ToUpper(w[0])] + w[1..]
  {
    var s := "cenario_" + w;
    assert s[..8] == "cenario_" && s[8..] == w;
    ReplaceAbsent(w, "cenario_", "", '_');
    assert Replace(s, "cenario_", "") == w;
    ReplaceAbsent(w, "_", " ", '_');
    TitleCaseLowerWord(w);
  }
}
