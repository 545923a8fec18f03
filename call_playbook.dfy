/**
 * The call-playbook endpoint: a request naming a contact, an objective, and
 * optionally a tone and a challenge is answered with a five-part playbook
 * composed from the objective's templates and the contact's persona entry,
 * or with an error.
 */
module CallPlaybook {
  import opened Wrappers
  import opened Text
  import opened Domain

  /** A persona's entry in the persona table. */
  datatype PersonaPlaybook = PersonaPlaybook(headline: string, keyPoints: seq<string>, closingStyle: string)

  datatype Playbook = Playbook(
    opener: string,
    discovery: seq<string>,
    differentiation: seq<string>,
    closing: string,
    nextSteps: seq<string>)

  /** The request body; a field the client left out is `None`. */
  datatype PlaybookRequest = PlaybookRequest(
    contact: Option<ContactRecord>,
    objective: Option<string>,
    tone: Option<string>,
    challenge: Option<string>)

  /** The two failures: a rejected payload (400) and an internal failure (500). */
  datatype PlaybookError = InvalidPayload | UnableToSynthesize {
    function Message(): string {
      match this
      case InvalidPayload => "Invalid payload"
      case UnableToSynthesize => "Unable to synthesize plan"
    }

    function Status(): int {
      match this
      case InvalidPayload => 400
      case UnableToSynthesize => 500
    }
  }

  /** Every persona entry has the two key points the composition reads. */
  predicate PersonaTableWellFormed(personas: map<string, PersonaPlaybook>) {
    forall k :: k in personas ==> |personas[k].keyPoints| >= 2
  }

  // --------------------------------------------------------- objective keys

  /** The key under which the template table lists an objective. */
  function ObjectiveKey(o: Objective): string {
    match o
    case Discovery => "Discovery"
    case Qualification => "Qualification"
    case ProductDemo => "Product Demo"
    case ProposalReview => "Proposal Review"
    case Negotiation => "Negotiation"
  }

  /** Looks a requested objective up among the five keys; any other string is unknown. */
  function ParseObjective(key: string): (r: Option<Objective>)
    ensures r.Some? ==> ObjectiveKey(r.value) == key
  {
    if key == "Discovery" then Some(Objective.Discovery)
    else if key == "Qualification" then Some(Qualification)
    else if key == "Product Demo" then Some(ProductDemo)
    else if key == "Proposal Review" then Some(ProposalReview)
    else if key == "Negotiation" then Some(Objective.Negotiation)
    else None
  }

  /** Every objective is found under its own key: the table has exactly the five keys. */
  lemma ParseObjectiveKey(o: Objective)
    ensures ParseObjective(ObjectiveKey(o)) == Some(o)
  {
  }

  // -------------------------------------------------------------- templates

  /** `x?.toLowerCase() ?? default`. */
  function LowerOr(x: Option<string>, default: string): (r: string)
    ensures x.None? ==> r == default
    ensures x.Some? ==> |r| == |x.value| && forall i :: 0 <= i < |r| ==> r[i] == LowerChar(x.value[i])
  {
    match x
    case Some(v) => Lower(v)
    case None => default
  }

  /** `name.split(" ")[0]`: the name up to its first space. */
  function FirstName(name: string): (r: string)
    ensures r <= name && ' ' !in r
    ensures |r| < |name| ==> name[|r|] == ' '
  {
    Split(name, ' ')[0]
  }

  // The fixed wording of the templates, phrase by phrase; the templates
  // below splice the contact's name and company, the tone and the challenge
  // in between.

  const Space := " "
  const Period := "."
  const QuestionMark := "?"
  const PossessiveKpis := "'s north-star KPIs."
  const CalibratedTone := "calibrated"
  const MeasuredTone := "measured"

  const DiscoveryGreeting := "Hey "
  const DiscoveryOpenerMiddle := ", appreciate you carving out time today. I'll keep this "
  const DiscoveryOpenerEnd := " and focused on what could move the needle fastest for "
  const DiscoveryTopic := "the current process"
  const DiscoveryQuestionStart := "Walk me through how "
  const DiscoveryQuestionEnd := " shows up in your week right now?"
  const DiscoveryQuestion2 := "When that bottleneck hits, who else is pulled in and what gets deprioritized?"
  const DiscoveryQuestion3 := "If we solved this in the next 30 days, what other initiative could accelerate?"
  const DiscoveryEdgeStart := "Translate our automation outcomes to "
  const DiscoveryEdge2 := "Highlight the control dashboard with live instrumentation for their operators."
  const DiscoveryEdge3 := "Show how we embed success rituals so the team never reverts back to manual chaos."
  const DiscoveryClosing := "Suggest a rapid workflow teardown session with your ops partner so we can model the exact impact for "
  const DiscoveryStepStart := "Send 2-slide diagnostic summary tailored to "
  const DiscoveryStep2 := "Book validation demo with real use-case artifacts."
  const DiscoveryStep3 := "Co-create success metrics in shared doc before next call."

  const QualificationOpenerMiddle := ", thanks for looping me in. I'll stay "
  const QualificationOpenerEnd := " and give you the data points you need to vet us fast."
  const QualificationTopic := "this roadblock"
  const QualificationQuestionStart := "What's the current approval path when you invest to eliminate "
  const QualificationQuestion2 := "Who ultimately signs the agreement and what do they care about most?"
  const QualificationQuestion3 := "Are there parallel initiatives we should align the timeline with?"
  const QualificationEdge1 := "We map responsibilities to your team to reduce lift during onboarding."
  const QualificationEdge2 := "Our success pods share instrumentation weekly so stakeholders stay informed."
  const QualificationEdge3 := "We de-risk with a milestone-based investment schedule tied to outcomes."
  const QualificationClosing := "Confirm the stakeholder matrix and secure calendar holds for each decision-maker at "
  const QualificationStep1 := "Email qualification summary with budget guardrails."
  const QualificationStep2 := "Send security + compliance pack for procurement review."
  const QualificationStep3 := "Lock demo session with technical evaluator."

  const DemoOpener := ", excited to tailor this build for you. We'll start with the exact workflow your team lives in daily."
  const DemoQuestion1 := "Confirm the must-have outcomes for success."
  const DemoQuestion2 := "Identify where hand-offs currently break down."
  const DemoQuestion3 := "Surface any red lines we need to avoid."
  const DemoEdgeStart := "Demonstrate live automation using "
  const DemoEdgeEnd := "'s data blueprint."
  const DemoEdge2 := "Show exec dashboard that broadcasts impact in real time."
  const DemoEdge3 := "Spotlight white-glove support and template library for fast ramp."
  const DemoClosing := "Gain verbal confirmation on value alignment and schedule proposal workshop for "
  const DemoStep1 := "Deliver replay with highlights clipped to decisions."
  const DemoStep2 := "Share ROI calculator pre-populated with their data."
  const DemoStep3 := "Confirm pilot configuration preferences."

  const ReviewOpener := ", let's walk the numbers together so you leave ready to green-light without surprises."
  const ReviewQuestion1 := "Validate the problem statement still matches their urgency."
  const ReviewQuestion2 := "Check executive expectations on timeline and deliverables."
  const ReviewQuestion3 := "Confirm financial guardrails and payment structure."
  const ReviewEdge1 := "Outline phased deployment to minimize bandwidth."
  const ReviewEdge2 := "Show the economic story tied to each milestone."
  const ReviewEdge3 := "Emphasize executive reporting cadence and concierge support."
  const ReviewClosing := "Gain consensus on scope and align legal kickoff date for "
  const ReviewStep1 := "Email redline-ready agreement immediately after call."
  const ReviewStep2 := "Share onboarding runway plan with responsibilities."
  const ReviewStep3 := "Book executive sponsor handshake within 48 hours."

  const NegotiationOpenerMiddle := ", appreciate you being direct. Let's engineer the package that protects outcomes and keeps "
  const NegotiationOpenerEnd := " confident."
  const NegotiationTopic := "the current blockers"
  const NegotiationQuestionStart := "What conditions need to be met before you can approve despite "
  const NegotiationQuestion2 := "Is there a budget reshuffle or procurement policy we should consider?"
  const NegotiationQuestion3 := "What does a perfect win look like for you personally?"
  const NegotiationEdge1 := "Lock in value anchors tied to risk removal."
  const NegotiationEdge2 := "Offer accelerators that compress time-to-value."
  const NegotiationEdge3 := "Position give/get matrix with clear concessions."
  const NegotiationClosing := "Secure a verbal yes contingent on refined terms and book legal handoff for "
  const NegotiationStep1 := "Deliver updated commercial terms before end of day."
  const NegotiationStep2 := "Loop in CFO/finance champion for alignment."
  const NegotiationStep3 := "Schedule celebration call post-signature to map launch."

  const PersonaInsightPrefix := "Inject persona insight: "

  // -------------------------------------------------------------- templates

  /**
   * The objective's opener. Discovery greets the contact by first name and
   * names the company; the other four start with the full name. Discovery and
   * Qualification carry the tone, each with its own default; Negotiation also
   * names the company.
   */
  function OpenerTemplate(o: Objective, c: ContactRecord, tone: Option<string>): (r: string)
    ensures o == Objective.Discovery ==>
      Contains(r, FirstName(c.name)) && Contains(r, tone.GetOr(CalibratedTone)) && Contains(r, c.company)
    ensures o == Qualification ==> Contains(r, tone.GetOr(MeasuredTone))
    ensures o != Objective.Discovery ==> c.name <= r
    ensures o == Objective.Negotiation ==> Contains(r, c.company)
  {
    match o
    case Discovery =>
      var name, t := FirstName(c.name), tone.GetOr(CalibratedTone);
      var r := DiscoveryGreeting + name + DiscoveryOpenerMiddle + t + DiscoveryOpenerEnd + c.company + Period;
      DiscoveryOpenerMentions(name, t, c.company);
      r
    case Qualification =>
      var t := tone.GetOr(MeasuredTone);
      NamedOpenerMentions(c.name, QualificationOpenerMiddle, t, QualificationOpenerEnd);
      c.name + QualificationOpenerMiddle + t + QualificationOpenerEnd
    case ProductDemo => c.name + DemoOpener
    case ProposalReview => c.name + ReviewOpener
    case Negotiation =>
      NamedOpenerMentions(c.name, NegotiationOpenerMiddle, c.company, NegotiationOpenerEnd);
      c.name + NegotiationOpenerMiddle + c.company + NegotiationOpenerEnd
  }

  /** An opener that starts with the full name and frames `x` between two fixed texts. */
  lemma NamedOpenerMentions(name: string, middle: string, x: string, end: string)
    ensures name <= name + middle + x + end
    ensures Contains(name + middle + x + end, x)
  {
    ContainsInfix(name + middle, x, end);
    assert name + middle + x + end == name + (middle + x + end);
  }

  /** The Discovery opener contains the first name, the tone and the company it is built from. */
  lemma DiscoveryOpenerMentions(name: string, tone: string, company: string)
    ensures var r := DiscoveryGreeting + name + DiscoveryOpenerMiddle + tone + DiscoveryOpenerEnd + company + Period;
      Contains(r, name) && Contains(r, tone) && Contains(r, company)
  {
    var a := DiscoveryGreeting + name;
    var b := a + DiscoveryOpenerMiddle + tone;
    var d := b + DiscoveryOpenerEnd + company;
    ContainsEnd(DiscoveryGreeting, name);
    ContainsAppend(a, name, DiscoveryOpenerMiddle);
    ContainsAppend(a + DiscoveryOpenerMiddle, name, tone);
    ContainsEnd(a + DiscoveryOpenerMiddle, tone);
    ContainsAppend(b, name, DiscoveryOpenerEnd);
    ContainsAppend(b, tone, DiscoveryOpenerEnd);
    ContainsAppend(b + DiscoveryOpenerEnd, name, company);
    ContainsAppend(b + DiscoveryOpenerEnd, tone, company);
    ContainsEnd(b + DiscoveryOpenerEnd, company);
    ContainsAppend(d, name, Period);
    ContainsAppend(d, tone, Period);
    ContainsAppend(d, company, Period);
  }

  /** The topic an objective's first question uses when no challenge is given. */
  function ChallengeDefault(o: Objective): string {
    match o
    case Discovery => DiscoveryTopic
    case Qualification => QualificationTopic
    case Negotiation => NegotiationTopic
    case _ => ""
  }

  /**
   * The objective's three questions. Discovery, Qualification and Negotiation
   * ask the first one about the lower-cased challenge or the objective's topic.
   */
  function DiscoveryTemplate(o: Objective, challenge: Option<string>): (r: seq<string>)
    ensures |r| == 3
    ensures o != ProductDemo && o != ProposalReview ==> Contains(r[0], LowerOr(challenge, ChallengeDefault(o)))
  {
    var topic := LowerOr(challenge, ChallengeDefault(o));
    match o
    case Discovery =>
      ContainsInfix(DiscoveryQuestionStart, topic, DiscoveryQuestionEnd);
      [DiscoveryQuestionStart + topic + DiscoveryQuestionEnd, DiscoveryQuestion2, DiscoveryQuestion3]
    case Qualification =>
      ContainsInfix(QualificationQuestionStart, topic, QuestionMark);
      [QualificationQuestionStart + topic + QuestionMark, QualificationQuestion2, QualificationQuestion3]
    case ProductDemo => [DemoQuestion1, DemoQuestion2, DemoQuestion3]
    case ProposalReview => [ReviewQuestion1, ReviewQuestion2, ReviewQuestion3]
    case Negotiation =>
      ContainsInfix(NegotiationQuestionStart, topic, QuestionMark);
      [NegotiationQuestionStart + topic + QuestionMark, NegotiationQuestion2, NegotiationQuestion3]
  }

  function DifferentiationTemplate(o: Objective, c: ContactRecord): (r: seq<string>)
    ensures |r| == 3
  {
    match o
    case Discovery => [DiscoveryEdgeStart + c.company + PossessiveKpis, DiscoveryEdge2, DiscoveryEdge3]
    case Qualification => [QualificationEdge1, QualificationEdge2, QualificationEdge3]
    case ProductDemo => [DemoEdgeStart + c.company + DemoEdgeEnd, DemoEdge2, DemoEdge3]
    case ProposalReview => [ReviewEdge1, ReviewEdge2, ReviewEdge3]
    case Negotiation => [NegotiationEdge1, NegotiationEdge2, NegotiationEdge3]
  }

  /** The objective's closing line: a call to action for the contact's company, ending in a period. */
  function ClosingTemplate(o: Objective, c: ContactRecord): (r: string)
    ensures Contains(r, c.company)
    ensures |r| > 0 && r[|r| - 1] == '.'
  {
    var phrase := match o
      case Discovery => DiscoveryClosing
      case Qualification => QualificationClosing
      case ProductDemo => DemoClosing
      case ProposalReview => ReviewClosing
      case Negotiation => NegotiationClosing;
    ContainsInfix(phrase, c.company, Period);
    phrase + c.company + Period
  }

  function NextStepsTemplate(o: Objective, c: ContactRecord): (r: seq<string>)
    ensures |r| == 3
  {
    match o
    case Discovery => [DiscoveryStepStart + c.company + Period, DiscoveryStep2, DiscoveryStep3]
    case Qualification => [QualificationStep1, QualificationStep2, QualificationStep3]
    case ProductDemo => [DemoStep1, DemoStep2, DemoStep3]
    case ProposalReview => [ReviewStep1, ReviewStep2, ReviewStep3]
    case Negotiation => [NegotiationStep1, NegotiationStep2, NegotiationStep3]
  }

  // ------------------------------------------------------------- the route

  /** The tone the templates receive: lower-cased, or "calibrated" when absent. */
  function NormalizeTone(tone: Option<string>): (r: string)
    ensures tone.None? ==> r == CalibratedTone
    ensures tone.Some? ==> |r| == |tone.value| && forall i :: 0 <= i < |r| ==> r[i] == LowerChar(tone.value[i])
  {
    LowerOr(tone, CalibratedTone)
  }

  /** Composes the playbook from the objective's templates and the persona entry. */
  function Compose(o: Objective, c: ContactRecord, persona: PersonaPlaybook, tone: Option<string>, challenge: Option<string>): (r: Playbook)
    requires |persona.keyPoints| >= 2
    ensures |r.discovery| == 4 && |r.differentiation| == 3 && |r.nextSteps| == 3
    ensures r.discovery[3] == PersonaInsightPrefix + persona.keyPoints[0] && r.differentiation[0] == persona.keyPoints[1]
    ensures Contains(r.opener, persona.headline) && Contains(r.closing, persona.closingStyle)
  {
    var opener := OpenerTemplate(o, c, Some(NormalizeTone(tone)));
    ContainsInfix(opener + Space, persona.headline, Period);
    ContainsEnd(ClosingTemplate(o, c) + Space, persona.closingStyle);
    Playbook(
      opener + Space + persona.headline + Period,
      DiscoveryTemplate(o, challenge) + [PersonaInsightPrefix + persona.keyPoints[0]],
      [persona.keyPoints[1]] + DifferentiationTemplate(o, c)[..2],
      ClosingTemplate(o, c) + Space + persona.closingStyle,
      NextStepsTemplate(o, c))
  }

  /**
   * The POST handler. `body` is `None` when the request body cannot be read as
   * JSON; a persona missing from the table makes the composition throw. Both
   * end in the 500 failure. A missing contact or an objective outside the five
   * keys is rejected as an invalid payload before anything is composed.
   */
  function Post(body: Option<PlaybookRequest>, personas: map<string, PersonaPlaybook>): (r: Result<Playbook, PlaybookError>)
    requires PersonaTableWellFormed(personas)
    ensures r == Failure(InvalidPayload) <==>
      body.Some? && (body.value.contact.None? || body.value.objective.None? || ParseObjective(body.value.objective.value).None?)
    ensures r.Success? <==>
      && body.Some? && body.value.contact.Some? && body.value.objective.Some?
      && ParseObjective(body.value.objective.value).Some?
      && body.value.contact.value.persona in personas
  {
    match body
    case None => Failure(UnableToSynthesize)
    case Some(req) =>
      if req.contact.None? || req.objective.None? || ParseObjective(req.objective.value).None? then
        Failure(InvalidPayload)
      else
        var c := req.contact.value;
        var o := ParseObjective(req.objective.value).value;
        if c.persona !in personas then Failure(UnableToSynthesize)
        else Success(Compose(o, c, personas[c.persona], req.tone, req.challenge))
  }

  // ----------------------------------------------------------------- lemmas

  /**
   * The shape of every playbook: the opener is the objective's opener (given
   * the normalized tone) followed by the persona headline; discovery is the
   * objective's three questions then the first persona key point;
   * differentiation is the second key point then the objective's first two
   * statements; the closing ends with the persona's closing style; next steps
   * are the objective's, verbatim.
   */
  lemma PlaybookShape(req: PlaybookRequest, personas: map<string, PersonaPlaybook>)
    requires PersonaTableWellFormed(personas)
    requires Post(Some(req), personas).Success?
    ensures var pb := Post(Some(req), personas).value;
      var c := req.contact.value;
      var o := ParseObjective(req.objective.value).value;
      var persona := personas[c.persona];
      && pb.opener == OpenerTemplate(o, c, Some(NormalizeTone(req.tone))) + Space + persona.headline + Period
      && |pb.discovery| == 4
      && pb.discovery[..3] == DiscoveryTemplate(o, req.challenge)
      && pb.discovery[3] == PersonaInsightPrefix + persona.keyPoints[0]
      && |pb.differentiation| == 3
      && pb.differentiation[0] == persona.keyPoints[1]
      && pb.differentiation[1..] == DifferentiationTemplate(o, c)[..2]
      && pb.closing == ClosingTemplate(o, c) + Space + persona.closingStyle
      && pb.nextSteps == NextStepsTemplate(o, c) && |pb.nextSteps| == 3
  {
    var c := req.contact.value;
    var o := ParseObjective(req.objective.value).value;
    var pb := Post(Some(req), personas).value;
    assert pb.discovery == DiscoveryTemplate(o, req.challenge) + [PersonaInsightPrefix + personas[c.persona].keyPoints[0]];
    assert pb.discovery[..3] == DiscoveryTemplate(o, req.challenge);
  }

  /** An objective outside the five keys, such as "Cold Call", is always rejected, never half-answered. */
  lemma UnknownObjectiveRejected(req: PlaybookRequest, personas: map<string, PersonaPlaybook>)
    requires PersonaTableWellFormed(personas)
    requires req.objective.Some?
    requires req.objective.value !in {"Discovery", "Qualification", "Product Demo", "Proposal Review", "Negotiation"}
    ensures Post(Some(req), personas) == Failure(InvalidPayload)
    ensures Post(Some(req), personas).error.Message() == "Invalid payload"
    ensures Post(Some(req), personas).error.Status() == 400
  {
  }

  /** The Discovery opener greets the contact by the first word of their name. */
  lemma DiscoveryOpenerGreetsFirstName(req: PlaybookRequest, personas: map<string, PersonaPlaybook>)
    requires PersonaTableWellFormed(personas)
    requires req.objective == Some("Discovery")
    requires Post(Some(req), personas).Success?
    ensures var name := req.contact.value.name;
      && Contains(Post(Some(req), personas).value.opener, FirstName(name))
      && FirstName(name) <= name
      && ' ' !in FirstName(name)
  {
    var c := req.contact.value;
    var persona := personas[c.persona];
    var opener := Post(Some(req), personas).value.opener;
    PlaybookShape(req, personas);
    assert ParseObjective(req.objective.value) == Some(Objective.Discovery);
    var tone := NormalizeTone(req.tone);
    assert OpenerTemplate(Objective.Discovery, c, Some(tone))
      == DiscoveryGreeting + FirstName(c.name) + DiscoveryOpenerMiddle + tone + DiscoveryOpenerEnd + c.company + Period;
    var name := FirstName(c.name);
    ContainsEnd(DiscoveryGreeting, name);
    ContainsAppend(DiscoveryGreeting + name, name, DiscoveryOpenerMiddle);
    ContainsAppend(DiscoveryGreeting + name + DiscoveryOpenerMiddle, name, tone);
    ContainsAppend(DiscoveryGreeting + name + DiscoveryOpenerMiddle + tone, name, DiscoveryOpenerEnd);
    ContainsAppend(DiscoveryGreeting + name + DiscoveryOpenerMiddle + tone + DiscoveryOpenerEnd, name, c.company);
    var template := OpenerTemplate(Objective.Discovery, c, Some(tone));
    ContainsAppend(DiscoveryGreeting + name + DiscoveryOpenerMiddle + tone + DiscoveryOpenerEnd + c.company, name, Period);
    ContainsAppend(template, name, Space);
    ContainsAppend(template + Space, name, persona.headline);
    ContainsAppend(template + Space + persona.headline, name, Period);
    var pieces := Split(c.name, ' ');
    assert FirstName(c.name) == pieces[0];
    assert pieces[0] <= c.name && ' ' !in pieces[0];
  }

  /** The first Discovery next step names the contact's company. */
  lemma DiscoveryNextStepNamesCompany(req: PlaybookRequest, personas: map<string, PersonaPlaybook>)
    requires PersonaTableWellFormed(personas)
    requires req.objective == Some("Discovery")
    requires Post(Some(req), personas).Success?
    ensures Contains(Post(Some(req), personas).value.nextSteps[0], req.contact.value.company)
  {
    ContainsInfix(DiscoveryStepStart, req.contact.value.company, Period);
  }

  /**
   * The Discovery and Qualification openers carry the tone, lower-cased, or
   * "calibrated" when none was sent: the templates always receive a tone, so
   * the Qualification template's own default ("measured") is never used.
   */
  lemma OpenerCarriesTone(req: PlaybookRequest, personas: map<string, PersonaPlaybook>)
    requires PersonaTableWellFormed(personas)
    requires req.objective == Some("Discovery") || req.objective == Some("Qualification")
    requires Post(Some(req), personas).Success?
    ensures Contains(Post(Some(req), personas).value.opener, if req.tone.Some? then Lower(req.tone.value) else CalibratedTone)
  {
    var c := req.contact.value;
    var persona := personas[c.persona];
    var tone := NormalizeTone(req.tone);
    PlaybookShape(req, personas);
    var o := ParseObjective(req.objective.value).value;
    var template := OpenerTemplate(o, c, Some(tone));
    if o == Objective.Discovery {
      var before := DiscoveryGreeting + FirstName(c.name) + DiscoveryOpenerMiddle;
      ContainsEnd(before, tone);
      ContainsAppend(before + tone, tone, DiscoveryOpenerEnd);
      ContainsAppend(before + tone + DiscoveryOpenerEnd, tone, c.company);
      ContainsAppend(before + tone + DiscoveryOpenerEnd + c.company, tone, Period);
    } else {
      ContainsEnd(c.name + QualificationOpenerMiddle, tone);
      ContainsAppend(c.name + QualificationOpenerMiddle + tone, tone, QualificationOpenerEnd);
    }
    ContainsAppend(template, tone, Space);
    ContainsAppend(template + Space, tone, persona.headline);
    ContainsAppend(template + Space + persona.headline, tone, Period);
  }

  /**
   * For Discovery, Qualification and Negotiation the first question carries
   * the challenge, lower-cased, or the objective's default topic.
   */
  lemma FirstQuestionCarriesChallenge(req: PlaybookRequest, personas: map<string, PersonaPlaybook>, o: Objective)
    requires PersonaTableWellFormed(personas)
    requires o == Objective.Discovery || o == Qualification || o == Objective.Negotiation
    requires req.objective == Some(ObjectiveKey(o))
    requires Post(Some(req), personas).Success?
    ensures Contains(Post(Some(req), personas).value.discovery[0],
                     if req.challenge.Some? then Lower(req.challenge.value) else ChallengeDefault(o))
  {
    ParseObjectiveKey(o);
    PlaybookShape(req, personas);
    var pb := Post(Some(req), personas).value;
    assert pb.discovery[0] == pb.discovery[..3][0];
  }

  /** Product Demo and Proposal Review playbooks do not depend on the challenge. */
  lemma ChallengeIgnored(req: PlaybookRequest, challenge: Option<string>, personas: map<string, PersonaPlaybook>)
    requires PersonaTableWellFormed(personas)
    requires req.objective == Some("Product Demo") || req.objective == Some("Proposal Review")
    ensures Post(Some(req.(challenge := challenge)), personas) == Post(Some(req), personas)
  {
  }

  /** The persona's headline, key points and closing style all reach the playbook. */
  lemma PersonaReachesPlaybook(req: PlaybookRequest, personas: map<string, PersonaPlaybook>)
    requires PersonaTableWellFormed(personas)
    requires Post(Some(req), personas).Success?
    ensures var pb := Post(Some(req), personas).value;
      var persona := personas[req.contact.value.persona];
      && Contains(pb.opener, persona.headline)
      && Contains(pb.discovery[3], persona.keyPoints[0])
      && pb.differentiation[0] == persona.keyPoints[1]
      && Contains(pb.closing, persona.closingStyle)
  {
    var c := req.contact.value;
    var o := ParseObjective(req.objective.value).value;
    var persona := personas[c.persona];
    PlaybookShape(req, personas);
    ContainsInfix(OpenerTemplate(o, c, Some(NormalizeTone(req.tone))) + Space, persona.headline, Period);
    ContainsEnd(PersonaInsightPrefix, persona.keyPoints[0]);
    ContainsEnd(ClosingTemplate(o, c) + Space, persona.closingStyle);
  }
}
