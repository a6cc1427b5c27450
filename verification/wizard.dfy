/** The wizard's client state (src/hooks/useDiagnostic.ts) as pure
    transitions on `DiagnosticState`, and `submit`: its precondition, the
    payload it posts and how it reads the route's reply. The server is a
    function parameter; session storage and navigation are left out. */
module Wizard {

  import opened Wrappers
  import opened Domain
  import opened Endpoint

  /** `DiagnosticState` (src/types/diagnostic.ts:26-36). */
  datatype WizardState = WizardState(
    region: string,
    path: Option<Path>,
    currentStep: int,
    answers: Answers,
    firstName: string,
    lastName: string,
    brandName: string,
    email: string)

  /** `initialState`. */
  const Initial: WizardState := WizardState("", None, 0, map[], "", "", "", "")

  function SetRegion(s: WizardState, region: string): WizardState {
    s.(region := region)
  }

  /** Choosing a path starts its questions afresh. */
  function SetPath(s: WizardState, p: Path): WizardState {
    s.(path := Some(p), currentStep := 0, answers := map[])
  }

  /** Records an answer, replacing any earlier answer to the question. */
  function SetAnswer(s: WizardState, questionId: string, value: Answer): WizardState {
    s.(answers := s.answers[questionId := value])
  }

  function NextStep(s: WizardState): WizardState {
    s.(currentStep := s.currentStep + 1)
  }

  /** `Math.max(0, currentStep - 1)`. */
  function PrevStep(s: WizardState): WizardState {
    s.(currentStep := if s.currentStep - 1 < 0 then 0 else s.currentStep - 1)
  }

  function SetFirstName(s: WizardState, v: string): WizardState { s.(firstName := v) }
  function SetLastName(s: WizardState, v: string): WizardState { s.(lastName := v) }
  function SetBrandName(s: WizardState, v: string): WizardState { s.(brandName := v) }
  function SetEmail(s: WizardState, v: string): WizardState { s.(email := v) }

  /** The transitions the hook hands to its pages. */
  datatype Action =
    | ChooseRegion(region: string)
    | ChoosePath(p: Path)
    | Answer(questionId: string, value: Answer)
    | Next
    | Prev
    | FirstName(v: string)
    | LastName(v: string)
    | BrandName(v: string)
    | Email(v: string)
    | Reset

  function Step(s: WizardState, a: Action): WizardState {
    match a
    case ChooseRegion(r) => SetRegion(s, r)
    case ChoosePath(p) => SetPath(s, p)
    case Answer(q, v) => SetAnswer(s, q, v)
    case Next => NextStep(s)
    case Prev => PrevStep(s)
    case FirstName(v) => SetFirstName(s, v)
    case LastName(v) => SetLastName(s, v)
    case BrandName(v) => SetBrandName(s, v)
    case Email(v) => SetEmail(s, v)
    case Reset => Initial
  }

  function Run(s: WizardState, actions: seq<Action>): WizardState
    decreases |actions|
  {
    if actions == [] then s else Run(Step(s, actions[0]), actions[1..])
  }

  /** The question ids answered by a run of actions. */
  function AnsweredIds(actions: seq<Action>): set<string> {
    set i | 0 <= i < |actions| && actions[i].Answer? :: actions[i].questionId
  }

  /** The fields the route reads are present: `!state.path || !firstName ...`. */
  predicate ReadyToSubmit(s: WizardState) {
    s.path.Some? && s.firstName != [] && s.lastName != [] && s.brandName != [] && s.email != []
  }

  /** The JSON body `submit` posts: no delivery method and no phone. */
  function Payload(s: WizardState): (d: Submission)
    requires s.path.Some?
    ensures d.deliveryMethod == Missing && d.phone == Missing
    ensures d.path == Str(PathName(s.path.value)) && d.email == Str(s.email)
    ensures Truthy(d.region) <==> s.region != []
  {
    Submission(Str(s.region), Str(PathName(s.path.value)), s.answers,
               Str(s.firstName), Str(s.lastName), Str(s.brandName), Str(s.email),
               Missing, Missing)
  }

  /** What `submit` does for its caller: throws with a message, or resolves. */
  datatype Outcome = Thrown(message: string) | Submitted

  /** `response.ok`. */
  predicate Ok(status: int) {
    200 <= status <= 299
  }

  /** How `submit` reads the reply (useDiagnostic.ts:150-163). */
  function Classify(reply: Reply): (o: Outcome)
    ensures o == Submitted <==> Ok(reply.status) && reply.success
    ensures !Ok(reply.status) && !(reply.status == 429 && reply.cooldown) ==>
              o == Thrown("Submission failed")
    ensures o.Thrown? ==> o.message != []
  {
    if !Ok(reply.status) then
      if reply.status == 429 && reply.cooldown then
        Thrown(if reply.message != [] then reply.message else "Please wait before submitting again")
      else Thrown("Submission failed")
    else if !reply.success then
      Thrown(if reply.message != [] then reply.message else "Submission failed")
    else Submitted
  }

  /** One call of `submit` against `server`; success resets the state. */
  function Submit(s: WizardState, server: Submission -> Reply): (r: (Outcome, WizardState))
    ensures !ReadyToSubmit(s) ==> r == (Thrown("Missing required fields"), s)
    ensures ReadyToSubmit(s) ==> r.0 == Classify(server(Payload(s)))
    ensures r.0.Thrown? ==> r.1 == s
    ensures r.0 == Submitted <==> r.1 == Initial && ReadyToSubmit(s)
                                  && Ok(server(Payload(s)).status) && server(Payload(s)).success
  {
    if !ReadyToSubmit(s) then (Thrown("Missing required fields"), s)
    else
      match Classify(server(Payload(s)))
      case Submitted => (Submitted, Initial)
      case Thrown(m) => (Thrown(m), s)
  }
}

/** Properties of the wizard's transitions and of `submit` against the
    route. */
module WizardProperties {

  import opened Wrappers
  import opened Domain
  import opened Endpoint
  import opened Wizard

  /** The initial state holds nothing. */
  lemma InitialIsEmpty()
    ensures Initial.region == [] && Initial.path.None? && Initial.currentStep == 0
    ensures Initial.answers == map[]
    ensures Initial.firstName == [] && Initial.lastName == [] && Initial.brandName == []
    ensures Initial.email == []
    ensures !ReadyToSubmit(Initial)
  {
  }

  /** Choosing a path clears the step and the answers and keeps region and
      identity. */
  lemma SetPathKeepsIdentity(s: WizardState, p: Path)
    ensures var t := SetPath(s, p);
      && t.path == Some(p) && t.currentStep == 0 && t.answers == map[]
      && t.region == s.region && t.firstName == s.firstName && t.lastName == s.lastName
      && t.brandName == s.brandName && t.email == s.email
  {
  }

  /** An answer changes only its own key; a second answer to the same
      question replaces the first. */
  lemma SetAnswerIsLocal(s: WizardState, q: string, v: Answer, w: Answer)
    ensures var t := SetAnswer(s, q, v);
      && t.answers.Keys == s.answers.Keys + {q} && t.answers[q] == v
      && (forall k :: k in s.answers && k != q ==> t.answers[k] == s.answers[k])
      && t.(answers := s.answers) == s
    ensures SetAnswer(SetAnswer(s, q, v), q, w) == SetAnswer(s, q, w)
  {
  }

  /** Each identity setter changes only its own field, and setters of
      different fields commute. */
  lemma SettersAreIndependent(s: WizardState, a: string, b: string, region: string)
    ensures SetFirstName(SetLastName(s, b), a) == SetLastName(SetFirstName(s, a), b)
    ensures SetBrandName(SetEmail(s, b), a) == SetEmail(SetBrandName(s, a), b)
    ensures SetRegion(s, region).(region := s.region) == s
    ensures SetRegion(s, region).path == s.path && SetRegion(s, region).answers == s.answers
    ensures SetEmail(s, a).(email := s.email) == s
    ensures SetFirstName(s, a).(firstName := s.firstName) == s
    ensures SetLastName(s, a).(lastName := s.lastName) == s
    ensures SetBrandName(s, a).(brandName := s.brandName) == s
  {
  }

  /** Going back undoes going forward, and going back never leaves a
      non-negative step negative. */
  lemma StepNavigation(s: WizardState)
    requires 0 <= s.currentStep
    ensures NextStep(s).currentStep == s.currentStep + 1
    ensures PrevStep(NextStep(s)) == s
    ensures 0 <= PrevStep(s).currentStep
    ensures s.currentStep > 0 ==> NextStep(PrevStep(s)) == s
    ensures s.currentStep == 0 ==> PrevStep(s) == s
  {
  }

  /** No run of the hook's transitions makes the step negative. */
  lemma {:induction false} StepNeverNegative(s: WizardState, actions: seq<Action>)
    requires 0 <= s.currentStep
    ensures 0 <= Run(s, actions).currentStep
    decreases |actions|
  {
    if actions != [] {
      StepNeverNegative(Step(s, actions[0]), actions[1..]);
    }
  }

  /** From the initial state, every answered key was answered by some
      action of the run. */
  lemma {:induction false} AnswersComeFromActions(s: WizardState, actions: seq<Action>)
    requires s.answers.Keys == {}
    ensures Run(s, actions).answers.Keys <= AnsweredIds(actions)
    decreases |actions|
  {
    if actions != [] {
      var t := Step(s, actions[0]);
      var rest := actions[1..];
      if actions[0].Answer? {
        AnswersFromAnswered(t, rest, {actions[0].questionId});
        assert actions[0].questionId in AnsweredIds(actions);
      } else {
        AnswersComeFromActions(t, rest);
      }
      forall k | k in AnsweredIds(rest) ensures k in AnsweredIds(actions) {
        var i :| 0 <= i < |rest| && rest[i].Answer? && rest[i].questionId == k;
        assert actions[i + 1] == rest[i];
      }
    }
  }

  lemma {:induction false} AnswersFromAnswered(s: WizardState, actions: seq<Action>, seen: set<string>)
    requires s.answers.Keys <= seen
    ensures Run(s, actions).answers.Keys <= seen + AnsweredIds(actions)
    decreases |actions|
  {
    if actions != [] {
      var t := Step(s, actions[0]);
      var rest := actions[1..];
      var seen' := if actions[0].Answer? then seen + {actions[0].questionId} else seen;
      AnswersFromAnswered(t, rest, seen');
      forall k | k in AnsweredIds(rest) ensures k in AnsweredIds(actions) {
        var i :| 0 <= i < |rest| && rest[i].Answer? && rest[i].questionId == k;
        assert actions[i + 1] == rest[i];
      }
      if actions[0].Answer? {
        assert actions[0].questionId in AnsweredIds(actions);
      }
    }
  }

  /** `reset` returns exactly the initial state, from anywhere. */
  lemma ResetIsInitial(s: WizardState, actions: seq<Action>)
    ensures Run(s, actions + [Reset]) == Initial
  {
    RunAppend(s, actions, [Reset]);
  }

  lemma {:induction false} RunAppend(s: WizardState, a: seq<Action>, b: seq<Action>)
    ensures Run(s, a + b) == Run(Run(s, a), b)
    decreases |a|
  {
    if a == [] {
      assert a + b == b;
    } else {
      assert (a + b)[1..] == a[1..] + b;
      RunAppend(Step(s, a[0]), a[1..], b);
    }
  }

  /** `submit` refuses before any request when a required field is empty,
      whatever the server would say. */
  lemma MissingFieldsRefused(s: WizardState, server1: Submission -> Reply, server2: Submission -> Reply)
    requires s.path.None? || s.firstName == [] || s.lastName == [] || s.brandName == [] || s.email == []
    ensures Submit(s, server1) == (Thrown("Missing required fields"), s)
    ensures Submit(s, server1) == Submit(s, server2)
  {
  }

  /** `submit` against the route itself: a refusal for bad input (400)
      always reads "Submission failed", whatever the route's message; a
      cooldown (429) shows the route's wait message; acceptance resets the
      wizard. The route's own 400 messages never reach the user. */
  lemma SubmitAgainstRoute(s: WizardState, cooldowns: map<string, int>, now: int)
    requires ReadyToSubmit(s)
    ensures var reply := Post(Some(Payload(s)), cooldowns, now).reply;
      var r := Submit(s, d => Post(Some(d), cooldowns, now).reply);
      && (reply.status == 400 ==> r == (Thrown("Submission failed"), s))
      && (reply.status == 429 ==> r == (Thrown(reply.message), s))
      && (reply.status == 200 ==> r == (Submitted, Initial))
  {
    var reply := Post(Some(Payload(s)), cooldowns, now).reply;
    RouteReplyOutcome(reply);
  }

  /** How `submit` reads each kind of reply the route gives. */
  lemma RouteReplyOutcome(reply: Reply)
    requires reply.status == 200 || reply.status == 400 || reply.status == 429
    requires reply.success <==> reply.status == 200
    requires reply.cooldown <==> reply.status == 429
    requires reply.status == 429 ==> reply.message != []
    ensures reply.status == 400 ==> Classify(reply) == Thrown("Submission failed")
    ensures reply.status == 429 ==> Classify(reply) == Thrown(reply.message)
    ensures reply.status == 200 ==> Classify(reply) == Submitted
  {
  }

  /** A wizard that never chose a region posts an empty region, which the
      route refuses as "Invalid data"; the user sees "Submission failed". */
  lemma NoRegionFails(s: WizardState, cooldowns: map<string, int>, now: int)
    requires ReadyToSubmit(s) && s.region == []
    ensures Post(Some(Payload(s)), cooldowns, now).reply == Rejected("Invalid data")
    ensures Submit(s, d => Post(Some(d), cooldowns, now).reply) == (Thrown("Submission failed"), s)
  {
    SubmitAgainstRoute(s, cooldowns, now);
  }
}
