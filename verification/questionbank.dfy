/** The question catalogue (src/lib/diagnostic/questionBank.ts): the
    persona cards, the questions of each path, and the regional relabelling
    of prices. The region's currency symbol is a parameter: it is whatever
    the theme's symbol table yields for the region. */
module QuestionBank {

  import opened Wrappers
  import opened Text
  import opened Domain
  import opened Validation

  /** `MCQOption`: the label shown and the value recorded. */
  datatype Choice = Choice(caption: string, value: string)

  /** `Question`; an absent `multiSelect` is false and an absent
      `exclusiveOptions` is empty. */
  datatype Question = Question(
    id: string,
    title: string,
    options: seq<Choice>,
    helperText: Option<string>,
    multiSelect: bool,
    exclusiveOptions: seq<string>,
    maxSelections: Option<nat>)

  /** `PathInfo`. */
  datatype PathInfo = PathInfo(id: Path, title: string, subtitle: string, description: string)

  /** The euro sign the catalogue writes its prices with. */
  const Euro: char := '\U{20AC}'

  /** `pathInfo`. */
  function Info(p: Path): (info: PathInfo)
    ensures info.id == p
  {
    match p
    case Scaler => PathInfo(Scaler, "The Scaler", "Active E-commerce",
      "You have existing order volume with operational friction points.")
    case Founder => PathInfo(Founder, "The Founder", "Launching / Aspirant",
      "Pre-launch or early-stage with product defined, systems not yet built.")
    case Operator => PathInfo(Operator, "The Operator", "Service / Agency / B2B",
      "Operations-heavy business with process friction.")
    case Explorer => PathInfo(Explorer, "The Explorer", "Curious / Researching",
      "Exploring automation trends and future possibilities.")
  }

  /** A single-choice question without helper text. */
  function Plain(id: string, title: string, options: seq<Choice>): Question {
    Question(id, title, options, None, false, [], None)
  }

  /** A multi-select question with helper text. */
  function Several(id: string, title: string, helper: string, exclusive: seq<string>,
                   max: Option<nat>, options: seq<Choice>): Question {
    Question(id, title, options, Some(helper), true, exclusive, max)
  }

  const EngagementPreference: Question :=
    Plain("engagement_preference", "How would you prefer to proceed if the roadmap resonates?", [
      Choice("Implement everything for me", "done_for_you"),
      Choice("Review the roadmap first, then decide", "review_first"),
      Choice("Not sure yet - want to see the roadmap", "unsure")])

  /** The investment choices as the catalogue writes them, in euros. */
  const EuroBudget: seq<Choice> := [
    Choice("Under \U{20AC}1k", "under_1k"),
    Choice("\U{20AC}1k\U{2013}\U{20AC}3k", "1k_3k"),
    Choice("\U{20AC}3k\U{2013}\U{20AC}10k", "3k_10k"),
    Choice("Depends on ROI", "roi_based")]

  const ScalerPlatform: Question :=
    Several("platform_stack", "Which platform(s) do you currently use?",
      "Select all that apply.", ["not_live"], None, [
      Choice("Shopify", "shopify"),
      Choice("WooCommerce", "woocommerce"),
      Choice("Custom website", "custom"),
      Choice("Marketplaces only (Amazon, Etsy, etc.)", "marketplaces"),
      Choice("Not live yet", "not_live")])

  const ScalerOrders: Question :=
    Plain("order_volume", "What is your current monthly order volume?", [
      Choice("<100", "under_100"),
      Choice("100\U{2013}500", "100_500"),
      Choice("500\U{2013}2000", "500_2000"),
      Choice("2000+", "over_2000")])

  const ScalerChannels: Question :=
    Several("key_channels", "Where do most of your orders or leads come from?",
      "Select your top 2\U{2013}3 channels.", [], Some(3), [
      Choice("Paid ads (Google, Meta)", "paid_ads"),
      Choice("Organic / SEO", "organic"),
      Choice("Marketplaces", "marketplaces"),
      Choice("Social DMs / WhatsApp", "social_dms"),
      Choice("Referrals / word of mouth", "referrals")])

  const ScalerTeam: Question :=
    Plain("team_capacity", "How many people actively touch operations weekly?", [
      Choice("Solo (just me)", "solo"),
      Choice("2\U{2013}3 people", "small"),
      Choice("4\U{2013}10 people", "medium"),
      Choice("10+ people", "large")])

  const ScalerHours: Question :=
    Plain("manual_hours",
      "How many hours per week are spent on manual data entry or order updates?", [
      Choice("<5 hours", "under_5"),
      Choice("5\U{2013}15 hours", "5_15"),
      Choice("15\U{2013}40 hours", "15_40"),
      Choice("40+ hours", "over_40")])

  const ScalerPriority: Question :=
    Several("automation_priority", "Which areas need automation most urgently?",
      "Select all that apply\U{2014}most businesses have 2-3 critical pain points.", ["none"], None, [
      Choice("Customer support", "support"),
      Choice("Inventory sync", "inventory"),
      Choice("Post-purchase revenue", "revenue"),
      Choice("Marketing execution", "marketing"),
      Choice("None currently", "none")])

  const ScalerCart: Question :=
    Plain("cart_abandonment", "What is your current abandoned cart rate?", [
      Choice("I don't know", "unknown"),
      Choice("~50%", "rate_50"),
      Choice("~70%", "rate_70"),
      Choice("Critical", "critical")])

  const ScalerChaos: Question :=
    Plain("chaos_scale",
      "On a scale of 1\U{2013}10, how much is manual chaos limiting strategic focus?", [
      Choice("1\U{2013}3 (Manageable)", "low"),
      Choice("4\U{2013}6 (Noticeable)", "medium"),
      Choice("7\U{2013}8 (Significant)", "high"),
      Choice("9\U{2013}10 (Critical)", "critical")])

  const ScalerInvestment: Question :=
    Plain("investment_range",
      "If automation clearly saves time or revenue, which investment range feels reasonable?",
      EuroBudget)

  const ScalerQuestions: seq<Question> := [
    ScalerPlatform,
    ScalerOrders,
    ScalerChannels,
    ScalerTeam,
    ScalerHours,
    ScalerPriority,
    ScalerCart,
    ScalerChaos,
    EngagementPreference,
    ScalerInvestment]

  const FounderPlatform: Question :=
    Plain("platform_stack", "Which platform are you planning to use?", [
      Choice("Shopify", "shopify"),
      Choice("WooCommerce", "woocommerce"),
      Choice("Custom website", "custom"),
      Choice("Marketplaces only", "marketplaces"),
      Choice("Not decided yet", "undecided")])

  const FounderStage: Question :=
    Plain("product_stage", "Where is your product or idea currently?", [
      Choice("Concept only", "concept"),
      Choice("Prototype ready", "prototype"),
      Choice("Manufacturing", "manufacturing"),
      Choice("Ready to sell", "ready")])

  const FounderWorry: Question :=
    Several("launch_worry", "What concerns you most about launching?",
      "Select all that apply.", [], None, [
      Choice("Technical complexity", "technical"),
      Choice("Marketing cost", "marketing"),
      Choice("Logistics & fulfillment", "logistics"),
      Choice("Not knowing where to start", "unknown"),
      Choice("Cash flow management", "cashflow")])

  const FounderHandling: Question :=
    Plain("order_handling", "How do you plan to handle orders?", [
      Choice("Solo", "solo"),
      Choice("Small team", "team"),
      Choice("Third-party logistics", "third_party")])

  const FounderSetup: Question :=
    Plain("setup_preference", "What setup do you want from Day 1?", [
      Choice("Minimalist launch", "minimalist"),
      Choice("Future-proof systems", "future_proof"),
      Choice("Full automation", "full_automation")])

  const FounderInvestment: Question :=
    Plain("investment_range",
      "If systems clearly support growth, which investment range feels realistic?",
      EuroBudget)

  const FounderQuestions: seq<Question> := [
    FounderPlatform,
    FounderStage,
    FounderWorry,
    FounderHandling,
    FounderSetup,
    EngagementPreference,
    FounderInvestment]

  const OperatorBusiness: Question :=
    Plain("business_type", "What best describes your business?", [
      Choice("Service agency", "agency"),
      Choice("Professional services", "professional"),
      Choice("B2B wholesale", "b2b"),
      Choice("SaaS", "saas")])

  const OperatorBreakdown: Question :=
    Several("communication_breakdown", "Where does communication typically break down?",
      "Select all that apply\U{2014}most ops teams face multiple friction points.", [], None, [
      Choice("Lead intake & qualification", "lead_intake"),
      Choice("Client onboarding", "onboarding"),
      Choice("Project status updates", "reporting"),
      Choice("Billing & invoicing", "billing"),
      Choice("Internal team handoffs", "handoffs")])

  const OperatorTracking: Question :=
    Several("tracking_method", "How are tasks and data currently tracked?",
      "Select all that apply.", [], None, [
      Choice("Sticky notes & chat messages", "manual"),
      Choice("Basic spreadsheets", "spreadsheets"),
      Choice("Multiple disconnected tools", "disconnected"),
      Choice("Custom ERP or CRM", "erp")])

  const OperatorDependency: Question :=
    Plain("founder_dependency",
      "On a scale of 1\U{2013}10, how stuck is the business if the founder takes a 2-week vacation?", [
      Choice("1\U{2013}3 (Fine)", "low"),
      Choice("4\U{2013}6 (Some issues)", "medium"),
      Choice("7\U{2013}8 (Major issues)", "high"),
      Choice("9\U{2013}10 (Critical)", "critical")])

  const OperatorQuestions: seq<Question> := [
    OperatorBusiness,
    OperatorBreakdown,
    OperatorTracking,
    OperatorDependency]

  const ExplorerMotivation: Question :=
    Plain("motivation", "What brings you to MonPro-AI today?", [
      Choice("Researching AI trends", "research"),
      Choice("Planning a future project", "planning"),
      Choice("Career inspiration", "career")])

  const ExplorerInterest: Question :=
    Plain("interest_area", "Which area of AI interests you most?", [
      Choice("Workflow automation", "workflow"),
      Choice("Generative content", "generative"),
      Choice("Data analysis", "data")])

  const ExplorerTimeline: Question :=
    Plain("timeline", "When do you realistically see yourself investing in automation?", [
      Choice("Just browsing", "browsing"),
      Choice("3\U{2013}6 months", "3_6_months"),
      Choice("Later this year", "this_year")])

  const ExplorerQuestions: seq<Question> := [
    ExplorerMotivation,
    ExplorerInterest,
    ExplorerTimeline]

  /** `questionBank`. */
  function Bank(p: Path): seq<Question> {
    match p
    case Scaler => ScalerQuestions
    case Founder => FounderQuestions
    case Operator => OperatorQuestions
    case Explorer => ExplorerQuestions
  }

  /** `budgetRanges`: the investment choices each region is offered. */
  function BudgetRanges(region: string): Option<seq<Choice>> {
    if region == "india" then Some([
      Choice("Under \U{20B9}50k", "under_1k"),
      Choice("\U{20B9}50k\U{2013}\U{20B9}150k", "1k_3k"),
      Choice("\U{20B9}150k\U{2013}\U{20B9}500k", "3k_10k"),
      Choice("Depends on ROI / open to discussion", "roi_based")])
    else if region == "europe" then Some([
      Choice("Under \U{20AC}3k", "under_1k"),
      Choice("\U{20AC}3k\U{2013}\U{20AC}10k", "1k_3k"),
      Choice("\U{20AC}10k\U{2013}\U{20AC}25k", "3k_10k"),
      Choice("Depends on ROI / open to discussion", "roi_based")])
    else if region == "uk" then Some([
      Choice("Under \U{00A3}3k", "under_1k"),
      Choice("\U{00A3}3k\U{2013}\U{00A3}10k", "1k_3k"),
      Choice("\U{00A3}10k\U{2013}\U{00A3}25k", "3k_10k"),
      Choice("Depends on ROI / open to discussion", "roi_based")])
    else None
  }

  function Values(options: seq<Choice>): (vs: seq<string>)
    ensures |vs| == |options|
    ensures forall i :: 0 <= i < |options| ==> vs[i] == options[i].value
  {
    seq(|options|, i requires 0 <= i < |options| => options[i].value)
  }

  /** Every exclusive option is one of the question's own answer values. */
  predicate ExclusiveAreOptions(q: Question) {
    forall e :: e in q.exclusiveOptions ==> e in Values(q.options)
  }

  /** A selection cap never exceeds the number of options. */
  predicate CapFits(q: Question) {
    q.maxSelections.None? || q.maxSelections.value <= |q.options|
  }

  predicate UniqueIds(qs: seq<Question>) {
    forall i, j :: 0 <= i < j < |qs| ==> qs[i].id != qs[j].id
  }

  predicate WellFormed(qs: seq<Question>) {
    UniqueIds(qs) && forall i :: 0 <= i < |qs| ==> ExclusiveAreOptions(qs[i]) && CapFits(qs[i])
  }

  /** The four investment answers every table offers. */
  const InvestmentValues: seq<string> := ["under_1k", "1k_3k", "3k_10k", "roi_based"]

  /** Every euro sign in an option's label becomes the region's symbol. */
  function RelabelOptions(options: seq<Choice>, currency: string): (r: seq<Choice>)
    ensures |r| == |options|
    ensures forall i :: 0 <= i < |options| ==>
      r[i].value == options[i].value && r[i].caption == ReplaceAll(options[i].caption, Euro, currency)
  {
    seq(|options|, i requires 0 <= i < |options| =>
      options[i].(caption := ReplaceAll(options[i].caption, Euro, currency)))
  }

  /** One question for a region: the title is relabelled; the investment
      question takes the region's table (or keeps its own), every other
      question keeps its values and has its labels relabelled. */
  function Relabel(q: Question, region: string, currency: string): Question {
    if q.id == "investment_range" then
      q.(title := ReplaceAll(q.title, Euro, currency), options := BudgetRanges(region).GetOr(q.options))
    else
      q.(title := ReplaceAll(q.title, Euro, currency), options := RelabelOptions(q.options, currency))
  }

  function RelabelAll(qs: seq<Question>, region: string, currency: string): (r: seq<Question>)
    ensures |r| == |qs|
    ensures forall i :: 0 <= i < |qs| ==> r[i] == Relabel(qs[i], region, currency)
  {
    seq(|qs|, i requires 0 <= i < |qs| => Relabel(qs[i], region, currency))
  }

  /** `getQuestionsForPath(path, region)`: no region keeps the catalogue's
      euros; a region outside the symbol table makes the symbol lookup
      throw (`None`); otherwise each question is relabelled. */
  function GetQuestionsForPath(p: Path, region: string, currency: string): (r: Option<seq<Question>>)
    ensures region == [] ==> r == Some(Bank(p))
    ensures r.None? <==> region != [] && !IsValidRegion(region)
    ensures r.Some? ==> |r.value| == |Bank(p)|
    ensures region != [] && IsValidRegion(region) ==> r == Some(RelabelAll(Bank(p), region, currency))
  {
    if region == [] then Some(Bank(p))
    else if !IsValidRegion(region) then None
    else Some(RelabelAll(Bank(p), region, currency))
  }

  /** `getQuestionCount`. */
  function GetQuestionCount(p: Path): nat {
    |Bank(p)|
  }
}

/** Properties of the catalogue and of its relabelling. */
module QuestionBankProperties {

  import opened Wrappers
  import opened Text
  import opened Domain
  import opened Validation
  import opened QuestionBank

  /** Relabelling keeps the order of the questions and everything in each
      question but its title and its option labels. */
  lemma RelabelKeepsShape(qs: seq<Question>, region: string, currency: string)
    ensures var r := RelabelAll(qs, region, currency);
      forall i :: 0 <= i < |qs| ==>
        && r[i].id == qs[i].id && r[i].multiSelect == qs[i].multiSelect
        && r[i].exclusiveOptions == qs[i].exclusiveOptions
        && r[i].maxSelections == qs[i].maxSelections && r[i].helperText == qs[i].helperText
        && r[i].title == ReplaceAll(qs[i].title, Euro, currency)
  {
  }

  /** Questions other than the investment question keep their answer
      values, so answers recorded under one region stay valid under
      another; with a symbol other than the euro, no euro is left. */
  lemma RelabelKeepsValues(q: Question, region: string, currency: string)
    requires q.id != "investment_range"
    ensures Values(Relabel(q, region, currency).options) == Values(q.options)
    ensures Euro !in currency ==>
      && Euro !in Relabel(q, region, currency).title
      && forall i :: 0 <= i < |q.options| ==> Euro !in Relabel(q, region, currency).options[i].caption
  {
  }

  /** Relabelling with the euro itself changes nothing outside the
      investment question. */
  lemma EuroRelabelIsIdentity(q: Question, region: string)
    requires q.id != "investment_range"
    ensures Relabel(q, region, [Euro]) == q
  {
    ReplaceAllBySelf(q.title, Euro);
    var r := Relabel(q, region, [Euro]);
    forall i | 0 <= i < |q.options| ensures r.options[i] == q.options[i] {
      ReplaceAllBySelf(q.options[i].caption, Euro);
    }
  }

  /** For a region in the table, the investment question offers the
      region's choices, with the same four answer values as the catalogue. */
  lemma InvestmentForRegion(q: Question, region: string, currency: string)
    requires q.id == "investment_range" && IsValidRegion(region)
    ensures Relabel(q, region, currency).options == BudgetRanges(region).value
    ensures Values(BudgetRanges(region).value) == InvestmentValues
  {
  }

  /** The catalogue's own investment choices have the same four values. */
  lemma CatalogueInvestmentValues()
    ensures Values(EuroBudget) == InvestmentValues
    ensures ScalerQuestions[9].id == "investment_range" && ScalerQuestions[9].options == EuroBudget
    ensures FounderQuestions[6].id == "investment_range" && FounderQuestions[6].options == EuroBudget
  {
  }

  /** Scaler 10, founder 7, operator 4, explorer 3. */
  lemma QuestionCounts()
    ensures GetQuestionCount(Scaler) == 10 && GetQuestionCount(Founder) == 7
    ensures GetQuestionCount(Operator) == 4 && GetQuestionCount(Explorer) == 3
  {
  }

  /** Each path's questions have distinct ids, exclusive options drawn
      from their own options, and caps within the option count. */
  lemma ScalerWellFormed()
    ensures WellFormed(ScalerQuestions)
  {
    var qs := ScalerQuestions;
    assert qs[0].exclusiveOptions == ["not_live"] && Values(qs[0].options)[4] == "not_live";
    assert qs[5].exclusiveOptions == ["none"] && Values(qs[5].options)[4] == "none";
  }

  lemma FounderWellFormed()
    ensures WellFormed(FounderQuestions)
  {
  }

  lemma OperatorWellFormed()
    ensures WellFormed(OperatorQuestions)
  {
  }

  lemma ExplorerWellFormed()
    ensures WellFormed(ExplorerQuestions)
  {
  }
}
