/** `POST /api/diagnostic` (src/app/api/diagnostic/route.ts) as a pure step:
    a parsed body, the cooldown map and the clock go in; the HTTP reply,
    the new cooldown map and the sanitized lead handed to background
    processing come out. Requests are applied one after another. */
module Endpoint {

  import opened Wrappers
  import opened Text
  import opened Decimal
  import opened Domain
  import opened Validation

  /** One day in milliseconds: 24 * 60 * 60 * 1000. */
  const DayMs: int := 86400000
  /** `COOLDOWN_PERIOD_MS`: seven days. */
  const CooldownMs: int := 604800000

  /** A member of the parsed JSON body as the route sees it: absent or
      falsy (`undefined`, `null`, `false`, `0`), a string, or a truthy
      value that is not a string (a number, `true`, an object, an array). */
  datatype Value = Missing | Str(s: string) | NonString

  /** JavaScript truthiness; the empty string is falsy. */
  predicate Truthy(v: Value) {
    match v
    case Missing => false
    case Str(s) => s != []
    case NonString => true
  }

  /** What `sanitizeString` sees: a non-string input yields `""`. */
  function AsString(v: Value): string {
    if v.Str? then v.s else []
  }

  /** The request body after `request.json()`, before any check. */
  datatype Submission = Submission(
    region: Value,
    path: Value,
    answers: Answers,
    firstName: Value,
    lastName: Value,
    brandName: Value,
    email: Value,
    deliveryMethod: Value,
    phone: Value)

  /** `sanitizedData`: what background processing receives on acceptance. */
  datatype Lead = Lead(
    region: string,
    path: Path,
    answers: Answers,
    firstName: string,
    lastName: string,
    brandName: string,
    email: string,
    deliveryMethod: Value,
    phone: Value)

  /** The JSON reply and its HTTP status. */
  datatype Reply = Reply(
    status: int,
    success: bool,
    message: string,
    cooldown: bool,
    daysRemaining: Option<int>)

  datatype PostResult = PostResult(reply: Reply, cooldowns: map<string, int>, accepted: Option<Lead>)

  const Received: Reply := Reply(200, true, "Assessment received", false, None)

  function Rejected(message: string): Reply {
    Reply(400, false, message, false, None)
  }

  /** A character of a cooldown key: safe and not an upper-case letter. */
  predicate IsKeyChar(c: char) {
    IsSafeChar(c) && !('A' <= c <= 'Z')
  }

  lemma LowerCharKey(c: char)
    requires IsSafeChar(c)
    ensures IsKeyChar(LowerChar(c))
  {
  }

  /** The cooldown key: `sanitizeString(email, 254).toLowerCase().trim()`.
      Only ASCII letters survive sanitizing, so ASCII lower-casing is exact. */
  function NormalizeEmail(raw: string): (e: string)
    ensures |e| <= 254
    ensures forall i :: 0 <= i < |e| ==> IsKeyChar(e[i])
    ensures e == [] || (!IsWhitespace(e[0]) && !IsWhitespace(e[|e| - 1]))
  {
    var s := SanitizeString(raw, 254);
    var l := ToLower(s);
    forall i | 0 <= i < |l| ensures IsKeyChar(l[i]) {
      LowerCharKey(s[i]);
    }
    TrimPreserves(IsKeyChar, l);
    Trim(l)
  }

  /** A string that already looks like a key is its own key. */
  lemma NormalizeKey(e: string)
    requires |e| <= 254
    requires forall i :: 0 <= i < |e| ==> IsKeyChar(e[i])
    requires e == [] || (!IsWhitespace(e[0]) && !IsWhitespace(e[|e| - 1]))
    ensures NormalizeEmail(e) == e
  {
    SanitizeClean(e, 254);
    ToLowerOfLower(e);
    TrimOfTrimmed(e);
  }

  /** The route's key is stable: normalizing a key gives the same key. */
  lemma NormalizeEmailIdempotent(raw: string)
    ensures NormalizeEmail(NormalizeEmail(raw)) == NormalizeEmail(raw)
  {
    NormalizeKey(NormalizeEmail(raw));
  }

  /** `Math.ceil((COOLDOWN_PERIOD_MS - elapsed) / DAY)` while the cooldown runs. */
  function DaysRemaining(elapsed: int): (d: int)
    requires elapsed < CooldownMs
    ensures (d - 1) * 86400000 < CooldownMs - elapsed <= d * 86400000
    ensures 0 <= elapsed ==> 1 <= d <= 7
  {
    (CooldownMs - elapsed + DayMs - 1) / DayMs
  }

  /** `if (lastSubmission)`: a recorded time counts only when it is truthy,
      so a stored 0 is treated as no record. */
  predicate HasPrior(cooldowns: map<string, int>, email: string) {
    email in cooldowns && cooldowns[email] != 0
  }

  predicate Throttled(cooldowns: map<string, int>, email: string, now: int) {
    HasPrior(cooldowns, email) && now - cooldowns[email] < CooldownMs
  }

  function CooldownReply(elapsed: int): Reply
    requires elapsed < CooldownMs
  {
    var days := DaysRemaining(elapsed);
    Reply(429, false,
          "Please wait " + NatToString(days)
          + " more day(s) before submitting again. Your proposal is being prepared.",
          true, Some(days))
  }

  /** The six members the first check requires. */
  predicate HasRequiredFields(d: Submission) {
    && Truthy(d.region) && Truthy(d.path)
    && Truthy(d.firstName) && Truthy(d.lastName) && Truthy(d.brandName)
    && Truthy(d.email)
  }

  predicate RegionOk(d: Submission) {
    d.region.Str? && IsValidRegion(d.region.s)
  }

  predicate PathOk(d: Submission) {
    d.path.Str? && IsValidPath(d.path.s)
  }

  function SanitizedFirst(d: Submission): string { SanitizeString(AsString(d.firstName), 50) }
  function SanitizedLast(d: Submission): string { SanitizeString(AsString(d.lastName), 50) }

  /** Every check before the cooldown passes. */
  predicate PassesChecks(d: Submission) {
    && HasRequiredFields(d) && RegionOk(d) && PathOk(d)
    && d.email.Str?
    && IsValidEmail(NormalizeEmail(d.email.s))
    && |SanitizedFirst(d)| >= 2 && |SanitizedLast(d)| >= 2
  }

  function MakeLead(d: Submission): (lead: Lead)
    requires RegionOk(d) && PathOk(d) && d.email.Str?
    ensures PathName(lead.path) == d.path.s
    ensures lead.region == d.region.s && lead.answers == d.answers
    ensures lead.email == NormalizeEmail(d.email.s)
    ensures lead.firstName == SanitizeString(AsString(d.firstName), 50)
    ensures lead.lastName == SanitizeString(AsString(d.lastName), 50)
    ensures lead.brandName == SanitizeString(AsString(d.brandName), 100)
    ensures lead.deliveryMethod == d.deliveryMethod && lead.phone == d.phone
  {
    ValidPathIsPathName(d.path.s);
    Lead(d.region.s, ParsePath(d.path.s).value, d.answers,
         SanitizedFirst(d), SanitizedLast(d),
         SanitizeString(AsString(d.brandName), 100),
         NormalizeEmail(d.email.s), d.deliveryMethod, d.phone)
  }

  /** The outcome of the checks that precede the cooldown: either the reply
      is already decided, or the sanitized lead goes on to the cooldown. */
  datatype Screening = Stop(reply: Reply) | Pass(lead: Lead)

  /** route.ts:99-169. A truthy non-string email makes the debug log at
      route.ts:143 throw; the catch at route.ts:213-221 answers success. */
  function Screen(d: Submission): (s: Screening)
    ensures s.Pass? <==> PassesChecks(d)
    ensures s.Stop? ==> !s.reply.cooldown && s.reply.daysRemaining.None?
                        && (s.reply.status == 200 || s.reply.status == 400)
                        && (s.reply.success <==> s.reply.status == 200)
                        && (s.reply.success ==> s.reply.message == "Assessment received")
    ensures s.Pass? ==> d.email.Str? && s.lead.email == NormalizeEmail(d.email.s)
                        && IsValidEmail(s.lead.email) && IsValidRegion(s.lead.region)
                        && |s.lead.firstName| >= 2 && |s.lead.lastName| >= 2
  {
    if !HasRequiredFields(d) then Stop(Rejected("Invalid data"))
    else if !RegionOk(d) then Stop(Rejected("Invalid region"))
    else if !PathOk(d) then Stop(Rejected("Invalid path"))
    else if d.email.NonString? then Stop(Received)
    else if !IsValidEmail(NormalizeEmail(d.email.s)) then Stop(Rejected("Invalid email format"))
    else if |SanitizedFirst(d)| < 2 || |SanitizedLast(d)| < 2 then Stop(Rejected("Invalid name"))
    else Pass(MakeLead(d))
  }

  /** route.ts:171-202: refuse inside the window, otherwise record `now`. */
  function Admit(lead: Lead, cooldowns: map<string, int>, now: int): (r: PostResult)
    ensures r.reply.status == 200 || r.reply.status == 429
    ensures r.reply.status == 429 <==> Throttled(cooldowns, lead.email, now)
    ensures r.reply.status == 429 ==>
      && !r.reply.success && r.reply.cooldown && r.reply.message != []
      && r.cooldowns == cooldowns && r.accepted.None?
      && var elapsed := now - cooldowns[lead.email];
         r.reply.daysRemaining == Some(DaysRemaining(elapsed))
         && (0 <= elapsed ==> 1 <= r.reply.daysRemaining.value <= 7)
    ensures r.reply.status == 200 ==>
      && r.reply == Received && r.accepted == Some(lead)
      && r.cooldowns.Keys == cooldowns.Keys + {lead.email}
      && r.cooldowns[lead.email] == now
      && forall k :: k in cooldowns && k != lead.email ==> r.cooldowns[k] == cooldowns[k]
  {
    if Throttled(cooldowns, lead.email, now) then
      PostResult(CooldownReply(now - cooldowns[lead.email]), cooldowns, None)
    else
      PostResult(Received, cooldowns[lead.email := now], Some(lead))
  }

  /** One request. `None` is a body whose parsing threw (or that is `null`);
      the route catches that and still answers success. */
  function Post(body: Option<Submission>, cooldowns: map<string, int>, now: int): (r: PostResult)
    ensures r.reply.status == 200 || r.reply.status == 400 || r.reply.status == 429
    ensures r.reply.success <==> r.reply.status == 200
    ensures r.reply.cooldown <==> r.reply.status == 429
    ensures r.reply.daysRemaining.Some? <==> r.reply.status == 429
    ensures r.reply.success ==> r.reply.message == "Assessment received"
    ensures r.reply.status == 429 ==> r.reply.message != []
    ensures r.accepted.None? ==> r.cooldowns == cooldowns
    ensures r.accepted.Some? <==> body.Some? && PassesChecks(body.value)
                                  && !Throttled(cooldowns, NormalizeEmail(body.value.email.s), now)
    ensures r.accepted.Some? ==>
      && r.reply.status == 200
      && IsValidEmail(r.accepted.value.email)
      && |r.accepted.value.firstName| >= 2 && |r.accepted.value.lastName| >= 2
      && r.cooldowns == cooldowns[r.accepted.value.email := now]
  {
    match body
    case None => PostResult(Received, cooldowns, None)
    case Some(d) =>
      match Screen(d)
      case Stop(reply) => PostResult(reply, cooldowns, None)
      case Pass(lead) => Admit(lead, cooldowns, now)
  }
}

/** Properties of the route that relate the checks, the cooldown map and
    successive requests. */
module EndpointProperties {

  import opened Wrappers
  import opened Text
  import opened Domain
  import opened Validation
  import opened Endpoint

  /** An unparsable body is still answered with success and records nothing. */
  lemma UnparsedBodySucceeds(cooldowns: map<string, int>, now: int)
    ensures Post(None, cooldowns, now) == PostResult(Received, cooldowns, None)
  {
  }

  /** The checks run in a fixed order, each rejecting with its own message
      and status 400, and none of them touches the cooldown map. */
  lemma CheckOrder(d: Submission, cooldowns: map<string, int>, now: int)
    ensures var r := Post(Some(d), cooldowns, now);
      && (!HasRequiredFields(d) ==> r == PostResult(Rejected("Invalid data"), cooldowns, None))
      && (HasRequiredFields(d) && !RegionOk(d) ==>
            r == PostResult(Rejected("Invalid region"), cooldowns, None))
      && (HasRequiredFields(d) && RegionOk(d) && !PathOk(d) ==>
            r == PostResult(Rejected("Invalid path"), cooldowns, None))
      && (HasRequiredFields(d) && RegionOk(d) && PathOk(d) && d.email.Str?
          && !IsValidEmail(NormalizeEmail(d.email.s)) ==>
            r == PostResult(Rejected("Invalid email format"), cooldowns, None))
      && (HasRequiredFields(d) && RegionOk(d) && PathOk(d) && d.email.Str?
          && IsValidEmail(NormalizeEmail(d.email.s))
          && (|SanitizedFirst(d)| < 2 || |SanitizedLast(d)| < 2) ==>
            r == PostResult(Rejected("Invalid name"), cooldowns, None))
  {
  }

  /** A truthy email that is not a string throws inside the route's debug
      logging; the catch answers success without recording a cooldown. */
  lemma NonStringEmailSucceedsUnrecorded(d: Submission, cooldowns: map<string, int>, now: int)
    requires HasRequiredFields(d) && RegionOk(d) && PathOk(d) && d.email == NonString
    ensures Post(Some(d), cooldowns, now) == PostResult(Received, cooldowns, None)
  {
  }

  /** A string email that fails validation after normalizing is rejected
      without touching the cooldown map. */
  lemma BadEmailRejected(d: Submission, cooldowns: map<string, int>, now: int)
    requires HasRequiredFields(d) && RegionOk(d) && PathOk(d) && d.email.Str?
    requires !IsValidEmail(NormalizeEmail(d.email.s))
    ensures Post(Some(d), cooldowns, now) == PostResult(Rejected("Invalid email format"), cooldowns, None)
  {
    assert !d.email.NonString?;
    assert Screen(d) == Stop(Rejected("Invalid email format"));
  }

  /** A submission that passes every check reaches the cooldown with its
      sanitized lead, keyed by the normalized email. */
  lemma PassingReachesCooldown(d: Submission, cooldowns: map<string, int>, now: int)
    requires PassesChecks(d)
    ensures Screen(d) == Pass(MakeLead(d))
    ensures MakeLead(d).email == NormalizeEmail(d.email.s)
    ensures Post(Some(d), cooldowns, now) == Admit(MakeLead(d), cooldowns, now)
  {
  }

  /** Rate limiting across two requests: after a lead is admitted at time
      `t1 != 0`, a lead with the same key is refused before `t1 + 7 days`
      and admitted again from that instant on. */
  lemma SecondSubmissionInWindow(lead1: Lead, lead2: Lead,
                                 cooldowns: map<string, int>, t1: int, t2: int)
    requires Admit(lead1, cooldowns, t1).accepted.Some?
    requires lead2.email == lead1.email
    requires t1 != 0
    ensures var after := Admit(lead1, cooldowns, t1).cooldowns;
      var r := Admit(lead2, after, t2);
      && (t2 - t1 < CooldownMs ==>
            r.reply.status == 429 && r.reply.daysRemaining == Some(DaysRemaining(t2 - t1))
            && r.cooldowns == after)
      && (t2 - t1 >= CooldownMs ==>
            r.reply.status == 200 && r.cooldowns == after[lead1.email := t2])
  {
  }

  /** Two days into the cooldown, five days remain. */
  lemma TwoDaysLeaveFive()
    ensures DaysRemaining(2 * DayMs) == 5
  {
  }

  /** A valid submission with no prior record is accepted and its time
      recorded under its key. */
  lemma FirstRequestAccepted(d: Submission, cooldowns: map<string, int>, t: int)
    requires PassesChecks(d)
    requires NormalizeEmail(d.email.s) !in cooldowns
    ensures Post(Some(d), cooldowns, t)
         == PostResult(Received, cooldowns[NormalizeEmail(d.email.s) := t], Some(MakeLead(d)))
  {
    PassingReachesCooldown(d, cooldowns, t);
  }

  /** The same valid submission two days after it was recorded is told to
      wait five more days. */
  lemma SecondRequestWaits(d: Submission, cooldowns: map<string, int>, t: int)
    requires PassesChecks(d)
    requires NormalizeEmail(d.email.s) in cooldowns && cooldowns[NormalizeEmail(d.email.s)] == t
    requires t != 0
    ensures Post(Some(d), cooldowns, t + 2 * DayMs).reply.status == 429
    ensures Post(Some(d), cooldowns, t + 2 * DayMs).reply.daysRemaining == Some(5)
  {
    var lead := MakeLead(d);
    var later := t + 2 * DayMs;
    PassingReachesCooldown(d, cooldowns, later);
    assert Post(Some(d), cooldowns, later) == Admit(lead, cooldowns, later);
    assert later - cooldowns[lead.email] == 2 * DayMs;
    TwoDaysLeaveFive();
    assert Throttled(cooldowns, lead.email, later);
  }

  /** A submission as the wizard sends it: every member a string. */
  function Sent(region: string, path: string, first: string, last: string,
                brand: string, email: string): Submission
  {
    Submission(Str(region), Str(path), map[], Str(first), Str(last), Str(brand),
               Str(email), Missing, Missing)
  }

  lemma AnyaEmailIsKey(e: string)
    requires e == "anya@example.com"
    ensures NormalizeEmail(e) == e
  {
    assert forall i :: 0 <= i < |e| ==> IsKeyChar(e[i]);
    NormalizeKey(e);
  }

  lemma AnyaEmailValid(e: string)
    requires e == "anya@example.com"
    ensures IsValidEmail(e)
  {
    assert e == "anya" + "@" + "example" + "." + "com";
    assert EmailRun("anya") && EmailRun("example") && EmailRun("com");
    EmailFromParts("anya", "example", "com");
  }

  lemma CleanName(n: string)
    requires 2 <= |n| <= 50
    requires forall i :: 0 <= i < |n| ==> IsWordChar(n[i])
    ensures SanitizeString(n, 50) == n
  {
    SanitizeClean(n, 50);
  }

  lemma FirstNameClean(first: string)
    requires first == "Anya"
    ensures SanitizeString(first, 50) == first
  {
    assert IsWordChar(first[0]) && IsWordChar(first[1]) && IsWordChar(first[2]) && IsWordChar(first[3]);
    CleanName(first);
  }

  lemma LastNameClean(last: string)
    requires last == "Rao"
    ensures SanitizeString(last, 50) == last
  {
    assert IsWordChar(last[0]) && IsWordChar(last[1]) && IsWordChar(last[2]);
    CleanName(last);
  }

  /** The fields of a submission from India on the founder path named
      Anya Rao of Bloom pass the checks before the email. */
  lemma AnyaFieldsPass(d: Submission, email: string)
    requires d == Sent("india", "founder", "Anya", "Rao", "Bloom", email)
    requires email != []
    ensures HasRequiredFields(d) && RegionOk(d) && PathOk(d)
    ensures |SanitizedFirst(d)| >= 2 && |SanitizedLast(d)| >= 2
  {
    FirstNameClean(d.firstName.s);
    LastNameClean(d.lastName.s);
  }

  /** The example lead with address anya@example.com passes every check. */
  lemma AnyaPasses(d: Submission)
    requires d == Sent("india", "founder", "Anya", "Rao", "Bloom", "anya@example.com")
    ensures PassesChecks(d)
    ensures NormalizeEmail(d.email.s) == "anya@example.com"
  {
    AnyaFieldsPass(d, d.email.s);
    AnyaEmailIsKey(d.email.s);
    AnyaEmailValid(d.email.s);
  }

  /** With no prior record the example lead is accepted and recorded, and
      two days later it is refused with five days to wait. */
  lemma ScenarioAnya(d: Submission, t: int)
    requires d == Sent("india", "founder", "Anya", "Rao", "Bloom", "anya@example.com")
    requires t != 0
    ensures var first := Post(Some(d), map[], t);
      && first.reply == Received
      && first.cooldowns == map["anya@example.com" := t]
      && Post(Some(d), first.cooldowns, t + 2 * DayMs).reply.daysRemaining == Some(5)
  {
    AnyaPasses(d);
    FirstRequestAccepted(d, map[], t);
    SecondRequestWaits(d, map["anya@example.com" := t], t);
  }

  lemma NotAnEmailKey(e: string)
    requires e == "not-an-email"
    ensures NormalizeEmail(e) == e
  {
    assert forall i :: 0 <= i < |e| ==> IsKeyChar(e[i]);
    NormalizeKey(e);
  }

  lemma NotAnEmailInvalid(e: string)
    requires e == "not-an-email"
    ensures !IsValidEmail(e)
  {
    NoAtNoEmail(e);
  }

  /** The same lead with address `not-an-email` is refused with "Invalid
      email format" before the cooldown is consulted. */
  lemma ScenarioNotAnEmail(d: Submission, cooldowns: map<string, int>, now: int)
    requires d == Sent("india", "founder", "Anya", "Rao", "Bloom", "not-an-email")
    ensures Post(Some(d), cooldowns, now) == PostResult(Rejected("Invalid email format"), cooldowns, None)
  {
    AnyaFieldsPass(d, d.email.s);
    NotAnEmailKey(d.email.s);
    NotAnEmailInvalid(d.email.s);
    BadEmailRejected(d, cooldowns, now);
  }
}
