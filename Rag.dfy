/**
 * The placeholder MindCare retrieval tool: a keyword router over the lower-cased
 * query that picks one of three curated intervention lists, cut to `top_k` items
 * with Python's slice semantics.
 */
module Rag {
  import opened Text

  const Breathing := "breathing"
  const Cognitive := "cognitive"
  const Physical := "physical"

  /** The curated library: three interventions per category. */
  function Library(key: string): (r: seq<string>)
    ensures |r| == 3
  {
    if key == Breathing then
      ["Box breathing for 2 minutes", "4-7-8 breathing cycle", "Tactical breathing (inhale 4, hold 4, exhale 8)"]
    else if key == Cognitive then
      ["Label emotions without judgment", "Reframe stressor as challenge", "Use evidence log to dispute catastrophic thoughts"]
    else
      ["Progressive muscle relaxation", "Short mobility routine", "Hydration reminder"]
  }

  /** `any(keyword in text for keyword in keywords)`. */
  predicate AnyIn(keywords: seq<string>, text: string)
  {
    exists k :: 0 <= k < |keywords| && Contains(text, keywords[k])
  }

  const BreathingWords: seq<string> := ["breath", "respir", "lungs"]
  const CognitiveWords: seq<string> := ["think", "ruminate", "worry"]

  /** The category chosen for a query; the breathing keywords are checked first. */
  function Classify(query: string): (key: string)
    ensures key in {Breathing, Cognitive, Physical}
    ensures key == Breathing <==> AnyIn(BreathingWords, Lower(query))
    ensures key == Cognitive <==> !AnyIn(BreathingWords, Lower(query)) && AnyIn(CognitiveWords, Lower(query))
    ensures key == Physical <==> !AnyIn(BreathingWords, Lower(query)) && !AnyIn(CognitiveWords, Lower(query))
  {
    var lower := Lower(query);
    if AnyIn(BreathingWords, lower) then Breathing
    else if AnyIn(CognitiveWords, lower) then Cognitive
    else Physical
  }

  /**
   * `xs[:k]` in Python: a negative bound counts from the end, and a bound past
   * either end is clamped.
   */
  function SlicePrefix<T>(xs: seq<T>, k: int): (r: seq<T>)
    ensures 0 <= k ==> |r| == if k < |xs| then k else |xs|
    ensures k < 0 ==> |r| == if |xs| + k > 0 then |xs| + k else 0
    ensures |r| <= |xs| && r == xs[..|r|]
  {
    var n := if k >= 0 then k else |xs| + k;
    if n <= 0 then [] else if n >= |xs| then xs else xs[..n]
  }

  /** The result dictionary of `retrieve_mindcare_context`. */
  datatype Context = Context(index: string, query: string, key: string, contexts: seq<string>)

  /**
   * `retrieve_mindcare_context(query, top_k)`; the index name comes from the
   * settings and is a parameter here.
   */
  function RetrieveMindcareContext(indexName: string, query: string, topK: int): (r: Context)
    ensures r.index == indexName && r.query == query
    ensures r.key == Classify(query)
    ensures |r.contexts| <= 3 && r.contexts == Library(r.key)[..|r.contexts|]
    ensures 0 <= topK ==> |r.contexts| == if topK < 3 then topK else 3
  {
    var key := Classify(query);
    Context(indexName, query, key, SlicePrefix(Library(key), topK))
  }

  /** The default `top_k = 3` returns the whole list of the chosen category. */
  lemma DefaultTopKReturnsAll(indexName: string, query: string)
    ensures RetrieveMindcareContext(indexName, query, 3).contexts == Library(Classify(query))
  {
  }

  /** The category, and so the contexts, ignore letter case. */
  lemma ClassifyIgnoresCase(a: string, b: string, indexName: string, topK: int)
    requires Lower(a) == Lower(b)
    ensures Classify(a) == Classify(b)
    ensures RetrieveMindcareContext(indexName, a, topK).contexts == RetrieveMindcareContext(indexName, b, topK).contexts
  {
  }
}
