# ARQV30 analysis pipeline: a Dafny model

ARQV30 is a Flask service. It turns a market segment into a long market and
avatar analysis, renders that analysis as a PDF report, and summarises stored
analyses. This project models the deterministic logic of three files:

- **The analysis client** (`src/services/gemini_client.py`, modules `Research`, `Fallback`, `Client`):
  - the six research queries planned from a segment;
  - the research loop, which always stores one entry per query;
  - `search_internet`'s cap and link filter;
  - `_extract_snippet`'s whitespace normalisation and 500-character cut;
  - the research digest quoted in the prompt, and the parameter lines around it;
  - clean-up of the model's reply, which removes the fences of a JSON code block;
  - the routing of every failure to the fallback analysis;
  - the fallback document, which is built from the request alone.
- **The report outline** (`src/routes/pdf_generator.py`, module `Report`):
  - `_safe_get`;
  - which sections of `generate_pdf_report` appear, and how many entries each shows;
  - which entries are skipped, and how the shown ones are numbered;
  - when building the report raises, so that it returns `False`.
- **The analysis routes** (`src/routes/analysis.py`, module `Route`):
  - `analyze_market`'s segment resolution, field defaults and status decision;
  - `get_analysis_summary`'s walk through the phase results.

Shared modules:

- `Values` models Python's JSON-like values: truthiness, `dict.get` on insertion-ordered dicts, and `str()`.
- `Text` models `strip`, `startswith`, slicing, `str(n)`, the dotted thousands format `f"{n:,}".replace(',', '.')`, `str.replace` and `str.title`.

Conventions:

- A Python exception that the code catches is an `Option` that is `None`. Any other result comes back as the value.
- The web search, page fetching, the language model, `json.loads`, `float(str)`, `str()` of floats, lists and dicts, and the clock are parameters of the model. They are never built into it.

Notes on what the code does:

- The fallback document has nine top-level sections.
- The client makes one model call, and research runs query by query.
- `analyze_market` forwards the price as `preco`. The fallback reads only `preco_float`, so a price given to the route never reaches the fallback's tickets (`Fallback.CoercePrice`).
- As stored, `src/routes/analysis.py` escapes its quotes with backslashes (`data.get(\'segmento\')`), which Python would not accept. The model reads them as plain quotes.

## Model

| member | source | states |
|---|---|---|
| Research.QueryPlan | src/services/gemini_client.py:133-140 | each planned query is the segment followed by its fixed topic suffix, in the fixed order |
| Research.QueryPlanShape | src/services/gemini_client.py:133-140 | the plan has exactly six queries, all starting with the segment and pairwise different |
| Research.QueryPlanInjective | src/services/gemini_client.py:133-140 | the plan is a one-to-one function of the segment: equal plans come from equal segments |
| Research.SplitLines | src/services/gemini_client.py:121 | the text is cut at every line break: no line holds a break, there is always at least one line, and text without breaks is a single line (the differences from Python's `splitlines` are listed under Left out) |
| Research.SplitDoubleSpace | src/services/gemini_client.py:122 | `split("  ")` yields pieces without double spaces that keep the absence of line breaks, and leaves text without double spaces whole |
| Research.Normalize | src/services/gemini_client.py:120-123 | the normalised page text has no surrounding whitespace, no double space and no line break, and keeps every non-whitespace character of the page in its order |
| Research.NormalizeChunk | src/services/gemini_client.py:120-123 | a non-empty text without surrounding whitespace, double spaces or line breaks is its own normalisation |
| Research.NormalizeIdempotent | src/services/gemini_client.py:120-123 | normalising a normalised text changes nothing |
| Research.Truncate | src/services/gemini_client.py:126 | text of at most 500 characters is unchanged; longer text becomes its first 500 characters plus "...", 503 characters in all |
| Research.TruncateIdempotent | src/services/gemini_client.py:126 | cutting a cut text changes nothing |
| Research.TruncateKeeps | src/services/gemini_client.py:126 | cutting a clean text keeps it free of surrounding spaces and double spaces, and keeps its first 500 characters |
| Research.ExtractSnippet | src/services/gemini_client.py:103-129 | a failed fetch gives ""; otherwise the snippet is the normalised text, cut to 503 characters at most, with no surrounding or double spaces |
| Research.Collect | src/services/gemini_client.py:87-94 | the kept results are no more than the links, each with a non-empty title and url and the snippet of its own page |
| Research.CollectSound | src/services/gemini_client.py:87-94 | every kept result comes from a link of the page that has text and an href |
| Research.CollectComplete | src/services/gemini_client.py:87-94 | every link with text and an href gives a result |
| Research.SearchInternet | src/services/gemini_client.py:68-101 | at most `num_results` results, [] when the search fails, each with a non-empty title and url and its page's snippet |
| Research.SearchKeepsUsableLinks | src/services/gemini_client.py:86-95 | the results are exactly the usable links among the first `num_results` anchors of the page |
| Research.Gather | src/services/gemini_client.py:142-154 | the research data has one key per query, in query order |
| Research.GatherEntries | src/services/gemini_client.py:145-152 | each query's entry is what searching it gave: at most three results, and [] when its search failed |
| Research.ResearchSegment | src/services/gemini_client.py:131-154 | the loop over the six planned queries stores exactly one entry per query, whatever the searches return |
| Research.Condense | src/services/gemini_client.py:230-231 | cutting the research to what the digest shows keeps every query and at most two results per query |
| Research.DropEmpty | src/services/gemini_client.py:228 | dropping the queries without results leaves only queries with results |
| Research.DigestShowsOnlyTopResults | src/services/gemini_client.py:224-231 | the digest depends only on the first two results of each query and the first 150 characters of their snippets |
| Research.DigestSkipsEmptyQueries | src/services/gemini_client.py:224-231 | queries without results leave no trace in the digest |
| Research.DigestEmptyIff | src/services/gemini_client.py:224-231 | the digest is "" exactly when no query found anything, in particular for empty research |
| Research.ResearchValue | src/services/gemini_client.py:200 | the research stored in the analysis is a dict with one key per query, in order |
| Client.StripFences | src/services/gemini_client.py:190-194 | the cleaned reply is no longer than the stripped reply, and is that stripped reply when it is not fenced |
| Client.FencedRoundTrip | src/services/gemini_client.py:190-194 | a body wrapped in "```json" and "```" comes out exactly |
| Client.LeadingFenceDropped | src/services/gemini_client.py:190-194 | a reply that opens with "```json" but has no closing fence loses the opening fence only |
| Client.TrailingFenceDropped | src/services/gemini_client.py:190-194 | a reply that ends with "```" but has no opening "```json" loses the closing fence only |
| Client.BareFenceKept | src/services/gemini_client.py:190-194 | a leading "```" without "json" is not removed, only the closing fence is |
| Client.ClientSegment | src/services/gemini_client.py:163 | the segment is the value under `segmento` when that key is present, else under `nicho`, else "" |
| Client.ParameterLines | src/services/gemini_client.py:217-222 | the prompt quotes the segment and the five request fields, each after its label, as `str(data.get(key, ''))` |
| Client.MissingFieldQuotedEmpty | src/services/gemini_client.py:218-222 | a field the request leaves out is quoted as its bare label |
| Client.Respond | src/services/gemini_client.py:183-208 | a reply that is empty, does not parse, or does not parse to an object gives the fallback |
| Client.RespondAccepted | src/services/gemini_client.py:196-202 | an accepted reply keeps every parsed field, and sets `research_data` to the research and `generated_at` to the time |
| Client.RespondResearchIff | src/services/gemini_client.py:183-208 | the answer carries `research_data` exactly when the reply was used |
| Client.SegmentResearch | src/services/gemini_client.py:163-171 | the research covers exactly the six queries planned from the segment |
| Client.Analysis | src/services/gemini_client.py:159-161 | without a model the answer is the fallback analysis |
| Client.ModelAnalysisOutcome | src/services/gemini_client.py:165-212 | with a model, the answer carries the research exactly when the reply was used, and is the fallback otherwise |
| Client.AnalysisOutcome | src/services/gemini_client.py:156-212 | the client always answers with an object: the model's analysis with the research when the reply was usable, the fallback analysis otherwise |
| Client.AnalyzeAvatar | src/services/gemini_client.py:156-212 | the method that runs the research loop computes the same answer as the functional definition |
| Fallback.PyFloat | src/services/gemini_client.py:413 | `float()` of an int or a float is that number; of None, a list or a dict it raises |
| Fallback.CoercePrice | src/services/gemini_client.py:412-415 | the price is `float(preco_float)` when that key holds a convertible non-None value, and 997.0 when it is absent, None or not convertible |
| Fallback.Segment | src/services/gemini_client.py:409 | the segment is the value under `segmento` when that key is present, else under `nicho`, else "Produto Digital" |
| Fallback.Trunc | src/services/gemini_client.py:481 | `int()` truncates toward zero: the result is the integer between zero and the number that is less than one away from it |
| Fallback.ReadInputs | src/services/gemini_client.py:409-415 | the fallback reads the segment, the product (default "Produto Digital") and the coerced price |
| Fallback.FallbackAnalysis | src/services/gemini_client.py:418-581 | the fallback is a dict whose keys are the nine sections, in order |
| Fallback.FallbackSection | src/services/gemini_client.py:418-581 | each section is found under its own key, built from the inputs |
| Fallback.FallbackSections | src/services/gemini_client.py:418-581 | every one of the nine sections is present, whatever the request |
| Fallback.FallbackWithoutResearch | src/services/gemini_client.py:418-581 | the fallback has no `research_data` key |
| Fallback.FallbackScope | src/services/gemini_client.py:419-422 | the scope names the resolved segment and the requested product |
| Fallback.FallbackMetrics | src/services/gemini_client.py:517-531 | the metrics section is built from the coerced price |
| Fallback.FallbackProjections | src/services/gemini_client.py:532-551 | the scenario projections are built from the coerced price |
| Fallback.FallbackCompetition | src/services/gemini_client.py:477-492 | the competition section of the fallback is built from the resolved segment and the coerced price |
| Fallback.MetricasTicket | src/services/gemini_client.py:518-523 | the segment's average ticket is "R$ " plus the dotted `int(price)` |
| Fallback.ProjecoesTickets | src/services/gemini_client.py:533-550 | the conservative and realistic tickets show `int(price)`, the optimistic one `int(price * 1.2)`, each with its fixed rates |
| Fallback.ConcorrenciaPriceRange | src/services/gemini_client.py:477-481 | the competition section lists one direct competitor whose price range is "R$ " plus the dotted `int(price * 1.5)`, " - ", and "R$ " plus the dotted `int(price * 2.5)` |
| Fallback.MoneyRoundTrip | src/services/gemini_client.py:522 | a ticket reads back as the integer it was written from |
| Fallback.TruncMonotonic | src/services/gemini_client.py:481 | a higher price never gives a lower truncated value |
| Fallback.FallbackTicketsOrdered | src/services/gemini_client.py:481 | for a non-negative price, the optimistic ticket is at least the realistic one and the competitor range's low end is at most its high end |
| Fallback.TicketExamples | src/services/gemini_client.py:522 | a price of 497 shows "R$ 497"; 1497 shows "R$ 1.497" |
| Fallback.DefaultPriceExamples | src/services/gemini_client.py:481 | at the default price the optimistic ticket is "R$ 1.196" and the competitor range "R$ 1.495 - R$ 2.492" |
| Text.Strip | src/services/gemini_client.py:190 | `strip()` gives the infix without surrounding whitespace, removes only whitespace before and after it, leaves stripped text alone, and turns all-space text into "" |
| Text.GroupThousandsDigits | src/services/gemini_client.py:522 | removing the dots of the grouped number gives its plain decimal digits |
| Text.FormatThousandsRoundTrip | src/services/gemini_client.py:522 | the dotted rendering of any integer reads back as that integer |
| Text.TitleCaseLowerWord | src/routes/pdf_generator.py:318 | `title()` raises only the first letter of a lower-case word |
| Values.Get | src/routes/analysis.py:52-56 | `d.get(k, default)` is the stored value when the key is present, even when falsy, and the default otherwise |
| Values.Put | src/services/gemini_client.py:200-201 | `d[k] = v` sets `k` and leaves every other key unchanged |
| Values.PutNewKey | src/services/gemini_client.py:148 | storing under a new key appends one entry at the end |
| Report.SafeGetFollowsPath | src/routes/pdf_generator.py:134-145 | `_safe_get` is the value at the end of the path when the path exists through dicts and that value is truthy, and the default otherwise |
| Report.Slice | src/routes/pdf_generator.py:221 | slicing a list gives at most its first n items, a string its first n characters; anything else raises |
| Report.Selected | src/routes/pdf_generator.py:221-222 | the kept entries keep their 1-based position, pass the type test, and appear in increasing order |
| Report.SelectedExactly | src/routes/pdf_generator.py:221-224 | entry i is shown, numbered i+1, exactly when it passes the type test |
| Report.SelectedLeavesGap | src/routes/pdf_generator.py:221-224 | with a dict, a string and a dict, the string is skipped and the numbers read 1 and 3 |
| Report.Entry | src/routes/pdf_generator.py:221-224 | one entry gives its kind's number of list lines; the first opens with the entry's number and ". ", the others are indented, and only a competitor's entry has a price line |
| Report.Details | src/routes/pdf_generator.py:221-297 | the lines under an entry's first line are indented, and exactly one of them gives the price when the entry is a competitor, none otherwise |
| Report.Entries | src/routes/pdf_generator.py:221-224 | the selected entries give their kind's number of lines each, all list text, with one numbered line per entry and one price line per competitor; entry j starts at line j times its kind's line count and opens with its own 1-based position in the unfiltered list, so a skipped item leaves a gap in the numbers |
| Report.Listing | src/routes/pdf_generator.py:221-224 | a list section raises unless its value is a list or a string, and shows at most cap numbered entries |
| Report.SubList | src/routes/pdf_generator.py:218-224 | a sub-list is empty for a falsy value, raises unless the value can be sliced, is headed by its subtitle, and shows at most cap numbered entries |
| Report.Fields | src/routes/pdf_generator.py:181-193 | each labelled field is its label followed by `str(d.get(key, 'N/A'))` |
| Report.DictPart | src/routes/pdf_generator.py:205-209 | a dict part is empty for a falsy value, raises for a truthy non-dict, and otherwise shows its heading and one line per label |
| Report.Section | src/routes/pdf_generator.py:178-193 | a section's only top-level heading is its title |
| Report.AvatarSection | src/routes/pdf_generator.py:155-193 | the persona section is built exactly when the avatar is a dict and its persona a dict or falsy, and has a heading exactly when the persona is truthy; when the persona is falsy the section is empty, heading and body alike |
| Report.ScopeSection | src/routes/pdf_generator.py:196-212 | the scope section is built exactly when the scope and its market size are dicts or falsy, and has a heading exactly when the scope is truthy; when the scope is falsy the section is empty, heading and body alike |
| Report.PainSection | src/routes/pdf_generator.py:215-226 | the pain section is built exactly when its list can be sliced, has a heading exactly when the pains are truthy, and shows at most three numbered pains; when the pains are falsy the section is empty, heading and body alike |
| Report.MarketingSection | src/routes/pdf_generator.py:229-243 | the marketing section is built exactly when its keyword list can be sliced, has a heading exactly when it is truthy, and shows at most five numbered keywords; when the keyword strategy is falsy the section is empty, heading and body alike |
| Report.CompetitionSection | src/routes/pdf_generator.py:246-266 | the competition section is built exactly when both its lists can be sliced, has a heading exactly when it is truthy, and shows at most three competitors (one price line each) and at most three numbered gaps; when the competition analysis is falsy the section is empty, heading and body alike |
| Report.MetricsSection | src/routes/pdf_generator.py:269-280 | the metrics section is built exactly when the metrics and benchmarks are dicts or falsy, and has a heading exactly when truthy; when the metrics are falsy the section is empty, heading and body alike |
| Report.Phase | src/routes/pdf_generator.py:287-297 | a phase is built exactly when its actions can be sliced, and gives at most eight lines: one phase name and at most two numbered actions |
| Report.Phases | src/routes/pdf_generator.py:286-297 | the phases are built exactly when every phase's actions can be sliced, with one name per phase and at most two numbered actions each |
| Report.SelectedPhasesOk | src/routes/pdf_generator.py:286-287 | the selected phases are all acceptable exactly when every dict among the entries is |
| Report.SlicedPhasesOk | src/routes/pdf_generator.py:286-287 | only the first three entries of the plan decide whether it can be built |
| Report.PlanSection | src/routes/pdf_generator.py:283-299 | the plan is built exactly when it and the actions of its first three phases can be sliced, has a heading exactly when it is truthy, and shows at most three phases with at most two numbered actions each; when the plan is falsy the section is empty, heading and body alike |
| Report.PlanBody | src/routes/pdf_generator.py:286-297 | the body of a truthy plan is built exactly when the plan can be sliced and its first three phases have sliceable actions, and shows at most three phases with at most two numbered actions each |
| Report.InsightSection | src/routes/pdf_generator.py:302-308 | the insights are built exactly when they can be sliced, have a heading exactly when truthy, and show at most five numbered insights; when the insights are falsy the section is empty, heading and body alike |
| Report.Scenarios | src/routes/pdf_generator.py:313-323 | the named scenarios are built exactly when each is a dict or falsy, and their subtitles are "Cenário <title>:" for exactly the truthy ones, in the order named, so a falsy scenario leaves no trace |
| Report.ScenarioSection | src/routes/pdf_generator.py:311-325 | the scenario section is built exactly when the scenarios and each named scenario are dicts or falsy, and has a heading exactly when truthy; when the scenarios are falsy the section is empty, heading and body alike; otherwise its subtitles are those of the truthy scenarios in the order conservador, realista, otimista |
| Report.ScenarioHeadings | src/routes/pdf_generator.py:315-318 | each scenario is headed by the word after `cenario_`, capitalised |
| Report.ScenarioTitleOfWord | src/routes/pdf_generator.py:318 | `cenario_` plus a lower-case word is titled by that word with its first letter raised |
| Report.Cover | src/routes/pdf_generator.py:159-164 | the title page has no top-level heading |
| Report.Opening | src/routes/pdf_generator.py:159-175 | the title page and the summary contribute exactly the heading "Resumo Executivo" |
| Report.Closing | src/routes/pdf_generator.py:328-342 | the closing page contributes exactly the heading "Conclusão" |
| Report.Build | src/routes/pdf_generator.py:177-325 | each optional section is built exactly when its lookups succeed, and then has its title exactly when its source value is truthy; a part whose source value is falsy contributes nothing at all |
| Report.Sections | src/routes/pdf_generator.py:177-325 | all nine sections are built exactly when the analysis is readable, each with its gated heading |
| Report.Outline | src/routes/pdf_generator.py:147-351 | an outline is produced exactly when the data is a dict and every section's lookups succeed |
| Report.GeneratePdfReport | src/routes/pdf_generator.py:147-351 | the report is produced, and `True` returned, exactly when the analysis is readable |
| Report.OutlineHeadings | src/routes/pdf_generator.py:166-342 | a produced report's top-level headings are the summary, each optional section in fixed order exactly when its source is truthy, then the conclusion |
| Route.RequestSegment | src/routes/analysis.py:47 | the segment is `segmento` when truthy, and `nicho` otherwise |
| Route.SegmentResolution | src/routes/analysis.py:47-49 | the segment is usable exactly when `segmento` or `nicho` is truthy |
| Route.Payload | src/routes/analysis.py:52-66 | the payload has the segment and the five fields in order, each the supplied value when present, its fixed default otherwise |
| Route.HasError | src/routes/analysis.py:73 | `"error" in result` is a key test on dicts, and raises on values that are not containers |
| Route.AnalyzeMarket | src/routes/analysis.py:41-106 | the route answers 200, 400 or 500 |
| Route.MissingSegmentRefused | src/routes/analysis.py:47-49 | a request with neither `segmento` nor `nicho` truthy gets 400 "Segmento é obrigatório" |
| Route.AnalysisStatus | src/routes/analysis.py:71-101 | an object result with an `error` key gives 500 with that error; without one, 200 with the result unchanged |
| Route.SuccessIsAnalysis | src/routes/analysis.py:71-101 | a 200 answer is exactly the analysis of the completed payload, and that analysis has no error |
| Route.PyGet | src/routes/analysis.py:204 | `v.get` succeeds exactly on a dict |
| Route.First | src/routes/analysis.py:204-205 | `v[0]` is the first item of a non-empty list or the first character of a string, and raises on anything else |
| Route.ChainReaches | src/routes/analysis.py:204-205 | the chain of guarded `get`s yields the value at the end of a path through non-empty dicts |
| Route.ChainBlocked | src/routes/analysis.py:204-205 | the chain yields a falsy value when the path meets a missing key or a falsy value |
| Route.ChainStuck | src/routes/analysis.py:204-205 | the chain raises when it meets a truthy value that is not a dict |
| Route.KeyPoint | src/routes/analysis.py:210-213 | a phase contributes at most one key point |
| Route.TraitPoint | src/routes/analysis.py:214-215 | phase 4 contributes at most one key point; its cases are stated by TraitPointPresent, TraitPointAbsent, TraitPointFalsyFirst and TraitNotDictCrashes |
| Route.KeyPoints | src/routes/analysis.py:209-215 | there are at most three key points |
| Route.Summary | src/routes/analysis.py:203-207 | the summary has the keys `titulo_analise`, `resumo_executivo` and `pontos_chave`, with at most three points |
| Route.GetAnalysisSummary | src/routes/analysis.py:192-221 | the summary answers 200 or 400, and 400 "Dados da análise não fornecidos." when `analysis_data` is falsy |
| Route.TitleFromOpportunities | src/routes/analysis.py:204 | the title is the first best opportunity of phase 1 when the list is non-empty |
| Route.TitleDefault | src/routes/analysis.py:204 | the title is "Análise de Mercado" when the path to the opportunities is cut short |
| Route.AbstractFromPain | src/routes/analysis.py:205 | the abstract is the `dor` of the first primary pain, or "N/A" when it has none |
| Route.AbstractDefault | src/routes/analysis.py:205 | the abstract is "N/A" when the path to the pains is cut short |
| Route.AbstractFalsyFirst | src/routes/analysis.py:205 | the abstract is "N/A" when the first primary pain is falsy |
| Route.FirstPainNotDictCrashes | src/routes/analysis.py:205-221 | a truthy first primary pain that is not a dict makes `.get('dor')` raise, so the request fails rather than answers |
| Route.KeyPointPresent | src/routes/analysis.py:210-213 | a phase whose section is a non-empty dict contributes the section's field, or "N/A" |
| Route.KeyPointAbsent | src/routes/analysis.py:210-213 | a phase whose path is cut short contributes nothing |
| Route.StuckPhaseFails | src/routes/analysis.py:210-213 | a truthy non-dict on the way to a phase section makes extraction raise |
| Route.StuckTitleCrashes | src/routes/analysis.py:203-221 | a truthy non-dict on the way to the opportunities makes the request fail rather than answer |
| Route.TraitPointPresent | src/routes/analysis.py:214-215 | phase 4 contributes the `caracteristica` of its first trait when that trait is a non-empty dict |
| Route.TraitPointAbsent | src/routes/analysis.py:214-215 | phase 4 contributes nothing when the path to its traits is cut short |
| Route.TraitPointFalsyFirst | src/routes/analysis.py:214-215 | phase 4 contributes nothing when its first trait is falsy |
| Route.TraitNotDictCrashes | src/routes/analysis.py:214-221 | a truthy first trait that is not a dict makes `.get('caracteristica')` raise, so the request fails rather than answers |
| Route.KeyPointsInOrder | src/routes/analysis.py:209-215 | the points keep the phase order: with phases 2 and 4 present and 3 cut short, phase 2's enemy comes before phase 4's trait |

## Left out

- HTTP and HTML parsing are left out: `requests`, the DuckDuckGo URL, BeautifulSoup, the `script`/`style` removal and `time.sleep`. The search is a parameter giving the page's anchors, or `None` when it raises. Page fetching is a parameter giving the page text, or `None` when it raises. A missing BeautifulSoup behaves like a failed search or fetch.
- The language-model SDK is left out: configuration, safety settings and `generate_content`. The model is an optional parameter giving the reply text, or `None` when the call raises or the reply has no text.
- `json.loads` is a parameter that gives a value, or `None` for a decoding error. No JSON grammar is modelled.
- Python's `float()` of a string, and `str()` of floats, lists and dicts, are parameters. Infinities and NaN are not modelled. For those, `int()` at src/services/gemini_client.py:481 would raise outside the guarded block.
- Fallback.PyFloat: `float()` of an int is the exact number. It does not model the OverflowError that `float()` raises for an int outside the double range, which `except (ValueError, TypeError)` at src/services/gemini_client.py:414 does not catch. It does not model the rounding of ints above 2^53 either. For a `preco_float` such as 1 followed by 400 zeros, the source raises out of `analyze_avatar_ultra_detailed`, so `Client.AnalysisOutcome`'s "always answers with an object" does not hold for that input.
- Fallback.Trunc: `price * 1.2` and the like are computed on exact reals, without IEEE rounding, so a product that rounds across an integer may differ.
- The clock is a parameter: `time.time()` in the analysis and the formatted `datetime.now()` stamp of the report.
- The prompt's instruction prose (src/services/gemini_client.py:233-405) is left out. Only the parameter lines and the research digest are modelled. The prose is fixed wording except for one place: the JSON template quotes the segment again as `"segmento_principal": "{segmento}"` (src/services/gemini_client.py:253), and `Client.Prompt` does not model that second occurrence.
- Text.TitleCase: `str.title()` is modelled for ASCII letters only. Any other character counts as a non-letter, which is exact for the scenario names the report titles.
- Research.SplitLines: the model cuts at every line break, which adds an empty line in three places where Python's `splitlines` does not: the empty text gives `[""]` (Python gives `[]`), a trailing break is followed by an empty line (`"a\n"` gives `["a", ""]`, Python `["a"]`), and `"\r\n"` counts as two boundaries with an empty line between them. Every such empty line disappears when empty chunks are dropped, so the snippet is the same.
- reportlab rendering is left out: the paragraph styles, the header and footer canvas (src/routes/pdf_generator.py:18-132), `doc.build`, and the `/generate-pdf` routes with their temporary files.
- Report.GeneratePdfReport: reportlab's `Paragraph` parses its markup when it is constructed, while the outline is built (src/routes/pdf_generator.py:159-342). The model treats every text as plain, so a value with malformed markup, such as an unbalanced `<b>`, raises in the source but not in the model. "Exactly when readable" holds only for values whose text is valid paragraph markup.
- Supabase storage in `analyze_market` is left out (src/routes/analysis.py:78-95). Its failure is caught and does not change the answer. The stored-analysis CRUD routes (src/routes/analysis.py:108-189) are left out too.
- `analyze_market` calls `gemini_client.generate_analysis`, which the client does not define (src/routes/analysis.py:35, 71). The analysis it gets is therefore a parameter of `Route.AnalyzeMarket`, and the route is not linked to `Client.Analysis`.
- Route.GetAnalysisSummary: the 500 answer carries `str(e)` of the exception. That text is not modelled; `Crash` stands for the whole answer.
- `src/models/analysis.py`, `src/main.py` and `src/routes/user.py` are not part of this model.
