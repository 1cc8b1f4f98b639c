/** JSON-like values as the Flask handlers and the analysis client see them:
    the result of `request.get_json()` or `json.loads`, and the documents built
    from dictionary literals. A Python dict is an association list in insertion
    order (the order matters when the research data is turned into a digest);
    `dict.get` finds the first entry with the key. */
module Values {
  import opened Text

  datatype Value =
    | Null
    | Bool(b: bool)
    | Int(i: int)
    | Float(r: real)
    | Str(s: string)
    | List(items: seq<Value>)
    | Dict(fields: seq<(string, Value)>)

  /** The body of a Python dict: keys with their values, in insertion order. */
  type Assoc<V> = seq<(string, V)>

  /** Python truthiness: None, False, 0, 0.0, "", [] and {} are false. */
  predicate Truthy(v: Value) {
    match v
    case Null => false
    case Bool(b) => b
    case Int(i) => i != 0
    case Float(r) => r != 0.0
    case Str(s) => |s| > 0
    case List(items) => |items| > 0
    case Dict(fields) => |fields| > 0
  }

  function Keys<V>(d: Assoc<V>): (ks: seq<string>)
    ensures |ks| == |d|
    ensures forall i :: 0 <= i < |d| ==> ks[i] == d[i].0
  {
    if |d| == 0 then [] else [d[0].0] + Keys(d[1..])
  }

  /** `d[k]` when `k in d`: the value of the first entry with key `k`. */
  function Lookup<V>(d: Assoc<V>, k: string): (r: Option<V>)
    ensures r.Some? <==> k in Keys(d)
    ensures r.Some? ==> (k, r.value) in d
  {
    if |d| == 0 then None
    else if d[0].0 == k then Some(d[0].1)
    else Lookup(d[1..], k)
  }

  /** `d.get(k, default)`: the stored value when the key is present, even if that
      value is falsy; `default` only when the key is absent. */
  function Get<V>(d: Assoc<V>, k: string, default: V): (r: V)
    ensures k in Keys(d) ==> (k, r) in d
    ensures k !in Keys(d) ==> r == default
  {
    match Lookup(d, k)
    case Some(v) => v
    case None => default
  }

  /** `d[k] = v`: overwrites the value in place when the key is present, appends otherwise. */
  function Put<V>(d: Assoc<V>, k: string, v: V): (r: Assoc<V>)
    ensures Lookup(r, k) == Some(v)
    ensures forall k' :: k' != k ==> Lookup(r, k') == Lookup(d, k')
  {
    if |d| == 0 then [(k, v)]
    else if d[0].0 == k then [(k, v)] + d[1..]
    else
      var r := [d[0]] + Put(d[1..], k, v);
      assert r[1..] == Put(d[1..], k, v);
      r
  }

  /** Storing under a new key appends one entry and leaves the existing ones in place. */
  lemma {:induction false} PutNewKey<V>(d: Assoc<V>, k: string, v: V)
    requires k !in Keys(d)
    ensures Put(d, k, v) == d + [(k, v)]
  {
    if |d| > 0 {
      var t := d[1..];
      KeysTail(d);
      PutNewKey(t, k, v);
      assert d[0].0 != k by {
        assert Keys(d)[0] == d[0].0;
      }
      assert d == [d[0]] + t;
    }
  }

  /** The keys of a dict without its first entry are the keys after the first. */
  lemma KeysTail<V>(d: Assoc<V>)
    requires |d| > 0
    ensures Keys(d[1..]) == Keys(d)[1..]
  {
  }

  /** `v.get(k, default)` on a value that must be a dict; `None` stands for the
      AttributeError Python raises when `v` is not one. */
  function DictGet(v: Value, k: string, default: Value): (r: Option<Value>)
    ensures r.Some? <==> v.Dict?
    ensures v.Dict? && k !in Keys(v.fields) ==> r == Some(default)
  {
    match v
    case Dict(fields) => Some(Get(fields, k, default))
    case _ => None
  }

  /** Python's `str(v)`, as an f-string renders it. None, booleans, integers and
      strings are rendered exactly; floats, lists and dicts go through `repr`,
      which is left abstract. */
  function Display(v: Value, repr: Value -> string): (r: string)
    ensures v.Str? ==> r == v.s
  {
    match v
    case Null => "None"
    case Bool(b) => if b then "True" else "False"
    case Int(i) => IntToString(i)
    case Str(s) => s
    case _ => repr(v)
  }

  lemma {:induction false} LookupFirst<V>(d: Assoc<V>, i: nat, k: string)
    requires i < |d| && d[i].0 == k
    requires forall j :: 0 <= j < i ==> d[j].0 != k
    ensures Lookup(d, k) == Some(d[i].1)
  {
    if i > 0 {
      LookupFirst(d[1..], i - 1, k);
    }
  }

  /** The parts of a sequence of sequences, one after another. */
  function Flatten<T>(parts: seq<seq<T>>): seq<T> {
    if |parts| == 0 then [] else Flatten(parts[..|parts| - 1]) + parts[|parts| - 1]
  }

  lemma {:induction false} FlattenAppend<T>(a: seq<seq<T>>, b: seq<seq<T>>)
    ensures Flatten(a + b) == Flatten(a) + Flatten(b)
    decreases |b|
  {
    if |b| == 0 {
      assert a + b == a;
    } else {
      var init := b[..|b| - 1];
      assert (a + b)[..|a + b| - 1] == a + init;
      FlattenAppend(a, init);
    }
  }

  lemma FlattenCons<T>(x: seq<T>, rest: seq<seq<T>>)
    ensures Flatten([x] + rest) == x + Flatten(rest)
  {
    FlattenAppend([x], rest);
    assert Flatten([x]) == Flatten([]) + x;
  }

  /** The top-level keys of an analysis document, shared by the documents the
      client builds and the report that renders them. */
  const ScopeKey: string := "escopo"
  const AvatarKey: string := "avatar_ultra_detalhado"
  const PainsKey: string := "mapeamento_dores_ultra_detalhado"
  const CompetitionKey: string := "analise_concorrencia_detalhada"
  const KeywordsKey: string := "estrategia_palavras_chave"
  const MetricsKey: string := "metricas_performance_detalhadas"
  const ScenariosKey: string := "projecoes_cenarios"
  const PlanKey: string := "plano_acao_detalhado"
  const InsightsKey: string := "insights_exclusivos"
}
