/** The admin battlecard built in the background for an accepted lead
    (route.ts:259-492): the JSON object is cut out of the LLM's reply, the
    parsed analysis is mapped onto the card with defaults, and any failure
    falls back to a fixed card. The LLM call and `JSON.parse` are inputs:
    the call's outcome is a value, and parsing is a function parameter. */
module Battlecard {

  import opened Wrappers
  import opened Text
  import opened Domain
  import opened Endpoint
  import opened RangeParse

  /** `content.slice(indexOf("{"), lastIndexOf("}") + 1)`, refused when a
      brace is missing or the last `}` does not come after the first `{`. */
  function ExtractJson(content: string): (r: Option<string>)
    ensures r.None? <==>
      forall j :: 0 <= j < |content| && content[j] == '}' ==> '{' !in content[..j]
    ensures r.Some? ==>
      && 2 <= |r.value| && r.value[0] == '{' && r.value[|r.value| - 1] == '}'
      && exists k :: 0 <= k && k + |r.value| <= |content|
           && content[k..k + |r.value|] == r.value
           && '{' !in content[..k] && '}' !in content[k + |r.value|..]
  {
    match (IndexOf(content, '{'), LastIndexOf(content, '}'))
    case (Some(first), Some(last)) =>
      if last <= first then None
      else
        var r := content[first..last + 1];
        assert content[first..first + |r|] == r;
        Some(r)
    case _ => None
  }

  /** The markdown fence around the object (or any text without braces)
      is stripped, and the object comes back whole. */
  lemma ExtractFromFence(before: string, obj: string, after: string)
    requires '{' !in before && '}' !in after
    requires 2 <= |obj| && obj[0] == '{' && obj[|obj| - 1] == '}'
    ensures ExtractJson(before + obj + after) == Some(obj)
  {
    var content := before + obj + after;
    FirstOpenAfterBefore(before, obj, after);
    LastCloseBeforeAfter(before, obj, after);
    assert content[|before|..|before| + |obj|] == obj;
  }

  lemma FirstOpenAfterBefore(before: string, obj: string, after: string)
    requires '{' !in before && obj != [] && obj[0] == '{'
    ensures IndexOf(before + obj + after, '{') == Some(|before|)
  {
    var content := before + obj + after;
    assert content[..|before|] == before;
    IndexOfIs(content, '{', |before|);
  }

  lemma LastCloseBeforeAfter(before: string, obj: string, after: string)
    requires '}' !in after && obj != [] && obj[|obj| - 1] == '}'
    ensures LastIndexOf(before + obj + after, '}') == Some(|before| + |obj| - 1)
  {
    var content := before + obj + after;
    var last := |before| + |obj| - 1;
    assert content[last] == '}';
    assert content[last + 1..] == after;
    LastIndexOfIs(content, '}', last);
  }

  /** One entry of `recommendations.nonCatalogHypotheses`: its name and the
      text JavaScript renders for its confidence; `None` is absent. */
  datatype Hypothesis = Hypothesis(name: Option<string>, confidence: Option<string>)

  /** The parsed analysis as the mapping reads it. A member that is absent
      or `null` is `None`; the catalog automations are given by their
      `name` members. */
  datatype Analysis = Analysis(
    revenueLeaks: Option<seq<string>>,
    manualFriction: Option<seq<string>>,
    catalogAutomations: Option<seq<Option<string>>>,
    nonCatalogHypotheses: Option<seq<Hypothesis>>,
    currency: Option<string>,
    implementationCostRange: Option<string>,
    monthlyUpsideRange: Option<string>,
    priorityScore: Option<int>)

  /** `v || fallback` for a string member: absent and `""` are falsy. */
  function OrString(v: Option<string>, fallback: string): (r: string)
    ensures v.Some? && v.value != [] ==> r == v.value
    ensures (v.None? || v.value == []) ==> r == fallback
  {
    if v.Some? && v.value != [] then v.value else fallback
  }

  /** `estimatedROI`: NaN figures are `None`. */
  datatype Roi = Roi(currency: string, monthlyImpact: Option<int>, implementationCost: Option<int>)

  /** `AdminBattlecard`. */
  datatype Card = Card(
    leadId: string,
    region: string,
    path: Path,
    answers: Answers,
    firstName: string,
    lastName: string,
    brandName: string,
    email: string,
    deliveryMethod: Value,
    phone: Value,
    revenueLeaks: seq<string>,
    manualFriction: seq<string>,
    recommendedAutomations: seq<string>,
    estimatedRoi: Roi,
    priorityScore: int,
    generatedAt: string,
    rawData: Lead)

  /** The currency a region is billed in when the analysis names none. */
  function RegionCurrency(region: string): (c: string)
    ensures c == "INR" <==> region == "india"
    ensures c == "EUR" <==> region == "europe"
    ensures c == "GBP" <==> region != "india" && region != "europe"
  {
    if region == "india" then "INR"
    else if region == "europe" then "EUR"
    else "GBP"
  }

  function CatalogName(name: Option<string>): string {
    OrString(name, "Unnamed automation")
  }

  function HypothesisLine(h: Hypothesis): string {
    OrString(h.name, "Hypothesis") + " (confidence: " + OrString(h.confidence, "0") + ")"
  }

  function CatalogNames(names: seq<Option<string>>): (r: seq<string>)
    ensures |r| == |names|
    ensures forall i :: 0 <= i < |names| ==> r[i] == CatalogName(names[i])
  {
    if names == [] then [] else [CatalogName(names[0])] + CatalogNames(names[1..])
  }

  function HypothesisLines(hs: seq<Hypothesis>): (r: seq<string>)
    ensures |r| == |hs|
    ensures forall i :: 0 <= i < |hs| ==> r[i] == HypothesisLine(hs[i])
  {
    if hs == [] then [] else [HypothesisLine(hs[0])] + HypothesisLines(hs[1..])
  }

  /** `recommendedAutomations`: the catalog names, then the hypotheses,
      one entry for each, in order. */
  function Automations(a: Analysis): (r: seq<string>)
    ensures var names := a.catalogAutomations.GetOr([]);
      var hs := a.nonCatalogHypotheses.GetOr([]);
      && |r| == |names| + |hs|
      && (forall i :: 0 <= i < |names| ==> r[i] == CatalogName(names[i]))
      && (forall j :: 0 <= j < |hs| ==> r[|names| + j] == HypothesisLine(hs[j]))
  {
    CatalogNames(a.catalogAutomations.GetOr([])) + HypothesisLines(a.nonCatalogHypotheses.GetOr([]))
  }

  /** `priorityScore || 50`: absent and 0 both become 50. */
  function Priority(score: Option<int>): (p: int)
    ensures p != 0
    ensures p == 50 <==> score.None? || score.value == 0 || score.value == 50
    ensures score.Some? && score.value != 0 ==> p == score.value
  {
    if score.Some? && score.value != 0 then score.value else 50
  }

  /** The card built from a parsed analysis (route.ts:335-419). */
  function FromAnalysis(lead: Lead, leadId: string, generatedAt: string, a: Analysis): (c: Card)
    ensures c.rawData == lead && c.leadId == leadId && c.generatedAt == generatedAt
    ensures c.region == lead.region && c.path == lead.path && c.answers == lead.answers
    ensures c.firstName == lead.firstName && c.lastName == lead.lastName
            && c.brandName == lead.brandName && c.email == lead.email
    ensures c.deliveryMethod == lead.deliveryMethod && c.phone == lead.phone
    ensures c.revenueLeaks == a.revenueLeaks.GetOr([])
    ensures c.manualFriction == a.manualFriction.GetOr([])
    ensures |c.recommendedAutomations|
         == |a.catalogAutomations.GetOr([])| + |a.nonCatalogHypotheses.GetOr([])|
    ensures c.estimatedRoi.currency == OrString(a.currency, RegionCurrency(lead.region))
    ensures c.estimatedRoi.implementationCost == ParseRange(a.implementationCostRange)
    ensures c.estimatedRoi.monthlyImpact == ParseRange(a.monthlyUpsideRange)
    ensures c.recommendedAutomations == Automations(a)
    ensures c.priorityScore == Priority(a.priorityScore) && c.priorityScore != 0
  {
    Card(leadId, lead.region, lead.path, lead.answers, lead.firstName, lead.lastName,
         lead.brandName, lead.email, lead.deliveryMethod, lead.phone,
         a.revenueLeaks.GetOr([]), a.manualFriction.GetOr([]), Automations(a),
         Roi(OrString(a.currency, RegionCurrency(lead.region)),
             ParseRange(a.monthlyUpsideRange), ParseRange(a.implementationCostRange)),
         Priority(a.priorityScore), generatedAt, lead)
  }

  const PendingReview: seq<string> := [
    "[AI Analysis Pending] Manual review required",
    "OpenAI API unavailable - consultant will analyze manually",
    "Check raw answers for context"
  ]

  const AwaitingReview: seq<string> := [
    "[Awaiting Manual Review] AI analysis unavailable",
    "Consultant will review submission and provide recommendations"
  ]

  /** `createFallbackBattlecard` (route.ts:447-492). */
  function Fallback(lead: Lead, leadId: string, generatedAt: string): (c: Card)
    ensures c.rawData == lead && c.leadId == leadId && c.generatedAt == generatedAt
    ensures c.region == lead.region && c.path == lead.path && c.answers == lead.answers
    ensures c.firstName == lead.firstName && c.lastName == lead.lastName
            && c.brandName == lead.brandName && c.email == lead.email
    ensures c.deliveryMethod == lead.deliveryMethod && c.phone == lead.phone
    ensures |c.revenueLeaks| == 3 && |c.manualFriction| == 3 && |c.recommendedAutomations| == 2
    ensures c.estimatedRoi == Roi(RegionCurrency(lead.region), Some(0), Some(0))
    ensures c.priorityScore == 50
  {
    Card(leadId, lead.region, lead.path, lead.answers, lead.firstName, lead.lastName,
         lead.brandName, lead.email, lead.deliveryMethod, lead.phone,
         PendingReview, PendingReview, AwaitingReview,
         Roi(RegionCurrency(lead.region), Some(0), Some(0)), 50, generatedAt, lead)
  }

  /** How the LLM request ended: no API key configured, the request failed
      or answered non-ok, or it answered with this message content
      (`""` when the reply has none). */
  datatype LlmOutcome = NoApiKey | CallFailed | Content(text: string)

  /** `generateBattlecard`: every failure on the way leads to the fallback. */
  function Generate(lead: Lead, leadId: string, generatedAt: string,
                    llm: LlmOutcome, parse: string -> Option<Analysis>): (c: Card)
  {
    match llm
    case Content(text) =>
      (match ExtractJson(text)
       case Some(json) =>
         (match parse(json)
          case Some(a) => FromAnalysis(lead, leadId, generatedAt, a)
          case None => Fallback(lead, leadId, generatedAt))
       case None => Fallback(lead, leadId, generatedAt))
    case _ => Fallback(lead, leadId, generatedAt)
  }

  /** The card is the fallback unless the reply holds an object that
      parses, and then it is the mapped analysis; either way it is built
      for this lead and never has priority 0. */
  lemma GenerateOutcome(lead: Lead, leadId: string, generatedAt: string,
                        llm: LlmOutcome, parse: string -> Option<Analysis>)
    ensures var c := Generate(lead, leadId, generatedAt, llm, parse);
      && c.rawData == lead && c.email == lead.email && c.region == lead.region
      && c.priorityScore != 0
      && (if llm.Content? && ExtractJson(llm.text).Some? && parse(ExtractJson(llm.text).value).Some?
          then c == FromAnalysis(lead, leadId, generatedAt, parse(ExtractJson(llm.text).value).value)
          else c == Fallback(lead, leadId, generatedAt))
  {
  }

  /** On the LLM path a score of 0 reaches the card as 50, and the card
      lists the catalog names before the hypotheses. */
  lemma ZeroPriorityOnCard(lead: Lead, leadId: string, generatedAt: string, a: Analysis)
    requires a.priorityScore == Some(0)
    ensures FromAnalysis(lead, leadId, generatedAt, a).priorityScore == 50
    ensures var c := FromAnalysis(lead, leadId, generatedAt, a);
      var names := a.catalogAutomations.GetOr([]);
      forall i :: 0 <= i < |names| ==> c.recommendedAutomations[i] == CatalogName(names[i])
  {
  }

  /** On the LLM path the card may list no revenue leak at all, unlike the
      fallback, which always lists three. */
  lemma NoLeaksOnLlmPath(lead: Lead, leadId: string, generatedAt: string, a: Analysis)
    requires a.revenueLeaks.None? || a.revenueLeaks == Some([])
    ensures FromAnalysis(lead, leadId, generatedAt, a).revenueLeaks == []
    ensures |Fallback(lead, leadId, generatedAt).revenueLeaks| == 3
  {
  }
}
