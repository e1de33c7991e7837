/**
 * The saved-insights page: the fixed list of saved insights and the search
 * over their titles and descriptions.
 */
module SavedPage {
  import opened Data
  import opened Text
  import opened Seqs

  /** The four shared insights followed by three saved only on this page. */
  const SavedInsights: seq<Insight> := Insights + [
    Insight("5", "Reliance Jio 5G monetization ahead of schedule",
      "5G ARPU contribution reaching 18% of total wireless revenue, ahead of initial 12% target for FY25", "Telecom", Positive),
    Insight("6", "SEBI tightening F&O regulations",
      "New margin requirements to increase trading costs by 15-20% for retail participants from Q2 2026", "Regulatory", Negative),
    Insight("7", "Green hydrogen capex cycle beginning",
      "Combined announced investments of ₹4.2L Cr across Reliance, Adani, and NTPC for green hydrogen", "Energy", Positive)
  ]

  /**
   * The list holds seven insights: the shared ones first, then ids "5", "6" and
   * "7"; no two share an id, so each insight is listed once.
   */
  lemma SavedInsightsLayout()
    ensures |SavedInsights| == 7
    ensures SavedInsights[..4] == Insights
    ensures SavedInsights[4].id == "5" && SavedInsights[5].id == "6" && SavedInsights[6].id == "7"
    ensures forall i, j :: 0 <= i < j < |SavedInsights| ==> SavedInsights[i].id != SavedInsights[j].id
  {
    assert Insights[0].id == "1" && Insights[1].id == "2" && Insights[2].id == "3" && Insights[3].id == "4";
  }

  /**
   * An insight matches when the lower-cased search, taken as typed (it is not
   * trimmed), occurs in its lower-cased title or description.
   */
  predicate InsightMatches(i: Insight, search: string) {
    Contains(Lower(i.title), Lower(search)) || Contains(Lower(i.description), Lower(search))
  }

  function InsightFilter(search: string): Insight -> bool {
    i => InsightMatches(i, search)
  }

  /** `filtered`: exactly the matching saved insights, in list order, with no cap on their number. */
  function FilterInsights(search: string): (r: seq<Insight>)
    ensures IsSubsequence(r, SavedInsights)
    ensures forall k :: 0 <= k < |r| ==> InsightMatches(r[k], search)
    ensures forall j :: 0 <= j < |SavedInsights| && InsightMatches(SavedInsights[j], search) ==> SavedInsights[j] in r
  {
    FilterIsSubsequence(SavedInsights, InsightFilter(search));
    Filter(SavedInsights, InsightFilter(search))
  }

  /** With an empty search every one of the seven insights is shown. */
  lemma EmptySearchShowsAll()
    ensures FilterInsights("") == SavedInsights
    ensures |FilterInsights("")| == 7
  {
    forall k | 0 <= k < |SavedInsights|
      ensures InsightFilter("")(SavedInsights[k])
    {
      ContainsEmpty(Lower(SavedInsights[k].title));
    }
    FilterKeepsAll(SavedInsights, InsightFilter(""));
  }

  /**
   * The search is matched as typed, not trimmed: an insight titled and described
   * "EV" matches the search "ev" but not " ev", although " ev" trims to "ev".
   */
  lemma SearchIsNotTrimmed()
    ensures var i := Insight("3", "EV", "EV", "Automotive", Positive);
            && Trim(" ev") == "ev"
            && InsightMatches(i, "ev")
            && !InsightMatches(i, " ev")
  {
    assert TrimStart(" ev") == "ev";
    TrimVisible("ev");
    assert Lower("EV") == "ev";
    assert Lower("ev") == "ev";
    ContainsSelf("ev");
    assert !Contains("ev", " ev");
  }
}
