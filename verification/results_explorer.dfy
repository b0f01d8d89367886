/** The Results Explorer page: derived datasets narrowed by a free-text
    search, a type select and an intelligence-level select, with colour
    bands for confidence and level badges. */
module ResultsExplorer {
  import opened Text
  import opened Seqs
  import opened Palette

  /** A derived dataset; its preview payload is presentation only and is
      not kept. `confidence` is a percentage. */
  datatype Dataset = Dataset(
    id: int,
    name: string,
    kind: string,
    intelligenceLevel: string,
    recordCount: int,
    createdDate: string,
    description: string,
    confidence: int)

  /** The select value that disables the type or the level filter. */
  const All: string := "all"

  /** The search term, lowercased, occurs in the lowercased name or
      description. */
  predicate MatchesSearch(d: Dataset, term: string) {
    Contains(Lower(d.name), Lower(term)) || Contains(Lower(d.description), Lower(term))
  }

  /** Type and level are compared exactly, with no case folding. */
  predicate MatchesSelect(value: string, selected: string) {
    selected == All || value == selected
  }

  /** The keep condition of `filteredDatasets`: the search and both selects. */
  predicate Keep(d: Dataset, term: string, kind: string, level: string) {
    MatchesSearch(d, term) && MatchesSelect(d.kind, kind) && MatchesSelect(d.intelligenceLevel, level)
  }

  /** `filteredDatasets`: the datasets passing all three filters, in order. */
  function FilterDatasets(datasets: seq<Dataset>, term: string, kind: string, level: string): (r: seq<Dataset>)
    ensures IsSubsequence(r, datasets)
    ensures forall d :: d in r <==> d in datasets && Keep(d, term, kind, level)
    ensures forall d :: multiset(r)[d] == if Keep(d, term, kind, level) then multiset(datasets)[d] else 0
  {
    var keep := d => Keep(d, term, kind, level);
    var r := Filter(datasets, keep);
    forall d ensures (d in r <==> d in datasets && keep(d)) && multiset(r)[d] == if keep(d) then multiset(datasets)[d] else 0 {
      FilterMembership(datasets, keep, d);
      FilterCount(datasets, keep, d);
    }
    r
  }

  /** With every filter at its default ("", "all", "all") all datasets show. */
  lemma {:induction false} DefaultFiltersKeepAll(datasets: seq<Dataset>)
    ensures FilterDatasets(datasets, "", All, All) == datasets
  {
    var keep := d => Keep(d, "", All, All);
    forall i | 0 <= i < |datasets| ensures keep(datasets[i]) {
      ContainsEmpty(Lower(datasets[i].name));
    }
    FilterKeepsAll(datasets, keep);
  }

  /** The search term ignores ASCII case. */
  lemma {:induction false} SearchIgnoresCase(datasets: seq<Dataset>, term: string, kind: string, level: string)
    ensures FilterDatasets(datasets, Upper(term), kind, level) == FilterDatasets(datasets, term, kind, level)
    ensures FilterDatasets(datasets, Lower(term), kind, level) == FilterDatasets(datasets, term, kind, level)
  {
    LowerForgetsCase(term);
    FilterCongruent(datasets, d => Keep(d, Upper(term), kind, level), d => Keep(d, term, kind, level));
    FilterCongruent(datasets, d => Keep(d, Lower(term), kind, level), d => Keep(d, term, kind, level));
  }

  /** Replacing "all" by a specific type or level can only remove datasets:
      the narrower result is a subsequence of the wider one. */
  lemma {:induction false} SelectsNarrow(datasets: seq<Dataset>, term: string, kind: string, level: string)
    ensures IsSubsequence(FilterDatasets(datasets, term, kind, level), FilterDatasets(datasets, term, All, level))
    ensures IsSubsequence(FilterDatasets(datasets, term, kind, level), FilterDatasets(datasets, term, kind, All))
  {
    FilterMonotone(datasets, d => Keep(d, term, kind, level), d => Keep(d, term, All, level));
    FilterMonotone(datasets, d => Keep(d, term, kind, level), d => Keep(d, term, kind, All));
  }

  /** Setting both selects at once narrows the list shown with both at
      "all": never more datasets, and always in the order of that list. */
  lemma SelectsNarrowTogether(datasets: seq<Dataset>, term: string, kind: string, level: string)
    ensures IsSubsequence(FilterDatasets(datasets, term, kind, level), FilterDatasets(datasets, term, All, All))
    ensures |FilterDatasets(datasets, term, kind, level)| <= |FilterDatasets(datasets, term, All, All)|
  {
    var narrow := FilterDatasets(datasets, term, kind, level);
    var middle := FilterDatasets(datasets, term, All, level);
    var wide := FilterDatasets(datasets, term, All, All);
    SelectsNarrow(datasets, term, kind, level);
    SelectsNarrow(datasets, term, All, level);
    SubsequenceTransitive(narrow, middle, wide);
    SubsequenceLength(narrow, wide);
  }

  /** Unlike the search term, the type select is case-sensitive: a type
      filter that differs from a dataset's type only in case excludes it,
      whatever the search term and level. */
  lemma TypeSelectIsCaseSensitive(datasets: seq<Dataset>, term: string, kind: string, level: string, d: Dataset)
    requires d in datasets && kind != All && d.kind != kind && Lower(d.kind) == Lower(kind)
    ensures d !in FilterDatasets(datasets, term, kind, level)
  {
  }

  /** The three confidence bands of `getConfidenceColor`. */
  function ConfidenceTone(confidence: int): (r: Tone)
    ensures r == Green <==> confidence >= 90
    ensures r == Yellow <==> 80 <= confidence < 90
    ensures r == Red <==> confidence < 80
  {
    if confidence >= 90 then Green
    else if confidence >= 80 then Yellow
    else Red
  }

  /** The rank of a confidence band, worst first. */
  function BandRank(t: Tone): nat {
    match t
    case Red => 0
    case Yellow => 1
    case _ => 2
  }

  /** Higher confidence never gets a worse band. */
  lemma ConfidenceToneMonotone(c1: int, c2: int)
    requires c1 <= c2
    ensures BandRank(ConfidenceTone(c1)) <= BandRank(ConfidenceTone(c2))
  {
  }

  /** `getLevelColor`: High is red, Medium yellow, Low green, and any other
      level (including "Critical") gray. */
  function LevelTone(level: string): (r: Tone)
    ensures r == Red <==> level == "High"
    ensures r == Yellow <==> level == "Medium"
    ensures r == Green <==> level == "Low"
    ensures r == Gray <==> level !in {"High", "Medium", "Low"}
  {
    if level == "High" then Red
    else if level == "Medium" then Yellow
    else if level == "Low" then Green
    else Gray
  }
}
