/** Reply generation: a completion from the hosted language model when the
    provider answers, otherwise a reply chosen by an ordered keyword ladder
    over the lower-cased body, otherwise a fixed sentinel text. */
module Responder {
  import opened Basics
  import opened Strings
  import opened Ladder
  import opened Utils

  /** The nine reply templates, in ladder order. */
  datatype ReplyKind =
    | Lockout | MaintenanceTicket | LeaseDates | Callback | Plumbing
    | Window | Hvac | PaymentStatus | PestControl

  /** The reply ladder, first match wins. Note the bare "ac" of the HVAC
      rule, which also occurs inside words such as "roach". */
  const ReplyLadder: seq<Rule<ReplyKind>> := [
    AnyWord(["locked", "lock"], Lockout),
    AnyWord(["money order", "not paying", "toilet"], MaintenanceTicket),
    Rule([["rent", "how much"], ["monthly rent"], ["lease"]], LeaseDates),
    AnyWord(["call me", "call back", "available", "tomorrow"], Callback),
    AnyWord(["leak", "pipe", "plumbing", "flood"], Plumbing),
    AnyWord(["window", "glass", "crack"], Window),
    AnyWord(["ac", "air conditioner", "heat", "hvac"], Hvac),
    AnyWord(["rent", "payment", "paid", "balance"], PaymentStatus),
    AnyWord(["mouse", "rat", "roach", "pest", "bug", "infestation"], PestControl)
  ]

  /** One piece of an f-string template: literal text or a tenant field. */
  datatype Piece = Text(s: string) | Name | Unit | LeaseStart | LeaseEnd

  function Fill(piece: Piece, tenant: TenantRecord): string
  {
    match piece
    case Text(s) => s
    case Name => tenant.name
    case Unit => tenant.unit
    case LeaseStart => tenant.leaseStart
    case LeaseEnd => tenant.leaseEnd
  }

  /** The template with every field filled in, pieces in order. */
  function Render(template: seq<Piece>, tenant: TenantRecord): string
  {
    if template == [] then "" else Fill(template[0], tenant) + Render(template[1..], tenant)
  }

  /** A filled-in template contains every field it names. */
  lemma {:induction false} RenderContains(template: seq<Piece>, tenant: TenantRecord, k: nat)
    requires k < |template|
    ensures Contains(Render(template, tenant), Fill(template[k], tenant))
  {
    var head := Fill(template[0], tenant);
    if k == 0 {
      ContainsPiece([], head, Render(template[1..], tenant));
      assert [] + head + Render(template[1..], tenant) == Render(template, tenant);
    } else {
      RenderContains(template[1..], tenant, k - 1);
      ContainsInPart(head, Render(template[1..], tenant), Fill(template[k], tenant));
    }
  }

  /** The literal passages of the templates. */
  const LockoutText1 := "We understand you're locked out of Unit "
  const LockoutText2 := ". If this is urgent, please contact building security or call management directly. "
                        + "We can also coordinate access during regular hours."
  const TicketText1 := "Thanks for letting us know. We'll log a maintenance ticket for the issue in Unit "
  const TicketText2 := ". Meanwhile, please don\U{2019}t hesitate to reach out about payment concerns \U{2014} "
                       + "we\U{2019}re here to help."
  const LeaseText1 := "Your lease began on "
  const LeaseText2 := " and runs through "
  const LeaseText3 := ". We can confirm your rent amount or resend your lease if needed \U{2014} just let us know!"
  const CallbackText := "Thanks for your message. We\U{2019}ll follow up with a call around your availability tomorrow."
  const PlumbingText1 := "Thanks for reporting the plumbing issue in Unit "
  const PlumbingText2 := ". We'll dispatch maintenance shortly."
  const WindowText1 := "We\U{2019}ll send someone to look into the window issue in Unit "
  const WindowText2 := " as soon as possible."
  const HvacText1 := "We\U{2019}ll have the HVAC team review the issue in Unit "
  const HvacText2 := ". We\U{2019}ll reach out to schedule access."
  const PaymentText := "We'll confirm your payment status and follow up with any updates on your balance."
  const PestText1 := "We\U{2019}re arranging pest control for Unit "
  const PestText2 := ". We'll notify you when the visit is scheduled."
  const Greeting1 := "Hi "
  const Greeting2 := ",\n\n"
  const SignOff := "\n\n- Property Management"

  /** The middle part of each reply template. */
  function TemplateBody(kind: ReplyKind): seq<Piece>
  {
    match kind
    case Lockout => [Text(LockoutText1), Unit, Text(LockoutText2)]
    case MaintenanceTicket => [Text(TicketText1), Unit, Text(TicketText2)]
    case LeaseDates => [Text(LeaseText1), LeaseStart, Text(LeaseText2), LeaseEnd, Text(LeaseText3)]
    case Callback => [Text(CallbackText)]
    case Plumbing => [Text(PlumbingText1), Unit, Text(PlumbingText2)]
    case Window => [Text(WindowText1), Unit, Text(WindowText2)]
    case Hvac => [Text(HvacText1), Unit, Text(HvacText2)]
    case PaymentStatus => [Text(PaymentText)]
    case PestControl => [Text(PestText1), Unit, Text(PestText2)]
  }

  /** A reply template: greeting by name, body, sign-off. */
  function Template(kind: ReplyKind): seq<Piece>
  {
    [Text(Greeting1), Name, Text(Greeting2)] + TemplateBody(kind) + [Text(SignOff)]
  }

  /** A reply always opens with the greeting. */
  function ReplyText(kind: ReplyKind, tenant: TenantRecord): (r: string)
    ensures |r| >= |Greeting1| && r[..|Greeting1|] == Greeting1
  {
    var t := Template(kind);
    assert Render(t, tenant) == Greeting1 + Render(t[1..], tenant);
    Render(t, tenant)
  }

  /** The distinct templates of the ladder, so the template names its rule. */
  lemma ReplyLadderDistinct()
    ensures DistinctResults(ReplyLadder)
  {
  }

  /** The template the ladder picks for a body, judged on its lower-cased form. */
  function ReplyKindOf(body: string): (k: Option<ReplyKind>)
    ensures k.None? <==> forall j | 0 <= j < |ReplyLadder| :: !Fires(ReplyLadder[j], Lower(body))
    ensures k.Some? ==> Fires(ReplyLadder[Rank(k.value)], Lower(body))
  {
    var r := FirstMatch(ReplyLadder, Lower(body));
    FirstMatchNone(ReplyLadder, Lower(body));
    if r.Some? then
      ReplyLadderDistinct();
      FirstMatchIs(ReplyLadder, Lower(body), Rank(r.value));
      r
    else r
  }

  /** `generate_rule_based_reply`: `None` when no rule fires. */
  function RuleBasedReply(body: string, tenant: TenantRecord): (r: Option<string>)
    ensures r.None? <==> forall j | 0 <= j < |ReplyLadder| :: !Fires(ReplyLadder[j], Lower(body))
    ensures r.Some? ==> |r.value| >= |Greeting1| && r.value[..|Greeting1|] == Greeting1
    ensures r.Some? ==> Contains(r.value, tenant.name)
  {
    match ReplyKindOf(body)
    case None => None
    case Some(kind) =>
      ReplyTextMentions(kind, tenant);
      Some(ReplyText(kind, tenant))
  }

  /** Every reply greets the tenant by name; every template except the
      lease, callback and payment ones names the unit; the lease template
      quotes both lease dates as stored. */
  lemma ReplyTextMentions(kind: ReplyKind, tenant: TenantRecord)
    ensures Contains(ReplyText(kind, tenant), tenant.name)
    ensures kind !in {Callback, PaymentStatus, LeaseDates} ==> Contains(ReplyText(kind, tenant), tenant.unit)
    ensures kind == LeaseDates ==>
      Contains(ReplyText(kind, tenant), tenant.leaseStart) && Contains(ReplyText(kind, tenant), tenant.leaseEnd)
  {
    var t := Template(kind);
    var body := TemplateBody(kind);
    assert t[1] == Name;
    RenderContains(t, tenant, 1);
    match kind
    case LeaseDates =>
      assert t[4] == body[1] == LeaseStart && t[6] == body[3] == LeaseEnd;
      RenderContains(t, tenant, 4);
      RenderContains(t, tenant, 6);
    case Callback =>
    case PaymentStatus =>
    case _ =>
      assert t[4] == body[1] == Unit;
      RenderContains(t, tenant, 4);
  }

  /** The position of each template's rule in the ladder. */
  function Rank(kind: ReplyKind): (k: nat)
    ensures k < |ReplyLadder| && ReplyLadder[k].result == kind
  {
    match kind
    case Lockout => 0
    case MaintenanceTicket => 1
    case LeaseDates => 2
    case Callback => 3
    case Plumbing => 4
    case Window => 5
    case Hvac => 6
    case PaymentStatus => 7
    case PestControl => 8
  }

  /** First match in the fixed order lock, money order / not paying / toilet,
      rent amount / lease, callback, plumbing, window, HVAC, payment, pest:
      a template is chosen exactly when its rule fires on the lower-cased
      body and no rule above it does. */
  lemma RuleReplyOrder(body: string, kind: ReplyKind)
    ensures ReplyKindOf(body) == Some(kind) <==>
      Fires(ReplyLadder[Rank(kind)], Lower(body)) && forall j | 0 <= j < Rank(kind) :: !Fires(ReplyLadder[j], Lower(body))
  {
    ReplyLadderDistinct();
    FirstMatchIs(ReplyLadder, Lower(body), Rank(kind));
  }

  /** The rule-based reply is `None` exactly when no rule fires. */
  lemma RuleReplyNone(body: string, tenant: TenantRecord)
    ensures RuleBasedReply(body, tenant) == None <==>
      forall j | 0 <= j < |ReplyLadder| :: !Fires(ReplyLadder[j], Lower(body))
  {
    FirstMatchNone(ReplyLadder, Lower(body));
  }

  /** Only the lower-cased body matters: bodies that differ in the case of
      their letters get the same reply. */
  lemma RuleReplyIgnoresCase(a: string, b: string, tenant: TenantRecord)
    requires SameUpToCase(a, b)
    ensures RuleBasedReply(a, tenant) == RuleBasedReply(b, tenant)
  {
    SameUpToCaseLower(a, b);
  }

  /** "locked" and words such as "block" are caught by the test for "lock". */
  lemma LockSubsumes(text: string)
    ensures Contains(text, "locked") || Contains(text, "block") ==> Contains(text, "lock")
  {
    if Contains(text, "locked") {
      assert OccursAt("locked", "lock", 0);
      ContainsTransitive(text, "locked", "lock");
    }
    if Contains(text, "block") {
      assert OccursAt("block", "lock", 1);
      ContainsTransitive(text, "block", "lock");
    }
  }

  /** The lock rule fires exactly when "lock" occurs. */
  lemma LockRuleFires(text: string)
    ensures Fires(ReplyLadder[0], text) <==> Contains(text, "lock")
  {
    var words := ["locked", "lock"];
    LockSubsumes(text);
    AnyWordFires(words, Lockout, text);
    if Contains(text, "lock") {
      assert Contains(text, words[1]);
    }
  }

  /** A body mentioning "lock" anywhere, in any case, gets the lockout reply,
      which names the tenant and the unit, whatever else the body says. */
  lemma LockoutWins(body: string, tenant: TenantRecord)
    requires Contains(Lower(body), "lock")
    ensures RuleBasedReply(body, tenant) == Some(ReplyText(Lockout, tenant))
    ensures Contains(ReplyText(Lockout, tenant), tenant.name) && Contains(ReplyText(Lockout, tenant), tenant.unit)
  {
    LockRuleFires(Lower(body));
    RuleReplyOrder(body, Lockout);
    ReplyTextMentions(Lockout, tenant);
  }

  /** "toilet" beats the plumbing keywords: with no "lock", a body naming a
      toilet gets the maintenance-ticket reply even when it also says "leak". */
  lemma ToiletBeforeLeak(body: string)
    requires Contains(Lower(body), "toilet") && !Contains(Lower(body), "lock")
    ensures ReplyKindOf(body) == Some(MaintenanceTicket)
  {
    var text := Lower(body);
    LockRuleFires(text);
    var words := ["money order", "not paying", "toilet"];
    AnyWordFires(words, MaintenanceTicket, text);
    assert Contains(text, words[2]);
    RuleReplyOrder(body, MaintenanceTicket);
  }

  /** The HVAC rule tests the bare substring "ac", which "roach" contains:
      a body naming a roach never gets the pest reply, and gets the HVAC
      reply when no rule above HVAC fires. */
  lemma RoachIsHvac(body: string)
    requires Contains(Lower(body), "roach")
    ensures ReplyKindOf(body) != Some(PestControl)
    ensures (forall j | 0 <= j < 6 :: !Fires(ReplyLadder[j], Lower(body))) ==> ReplyKindOf(body) == Some(Hvac)
  {
    var text := Lower(body);
    assert OccursAt("roach", "ac", 2);
    ContainsTransitive(text, "roach", "ac");
    var words := ["ac", "air conditioner", "heat", "hvac"];
    AnyWordFires(words, Hvac, text);
    assert Contains(text, words[0]);
    RuleReplyOrder(body, PestControl);
    RuleReplyOrder(body, Hvac);
  }

  /** The lease reply quotes the tenant's lease dates as stored. */
  lemma LeaseReplyQuotesDates(body: string, tenant: TenantRecord)
    requires ReplyKindOf(body) == Some(LeaseDates)
    ensures RuleBasedReply(body, tenant).Some?
    ensures Contains(RuleBasedReply(body, tenant).value, tenant.leaseStart)
    ensures Contains(RuleBasedReply(body, tenant).value, tenant.leaseEnd)
  {
    ReplyTextMentions(LeaseDates, tenant);
  }

  const ReplySystemPrompt := "You are a helpful assistant for property management."

  const NoReplySentinel := "(No suitable rule-based reply available.)"

  /** `', '.join(requests) or 'None'`. */
  function RecentRequestsLine(requests: seq<string>): (r: string)
    ensures r != ""
    ensures requests == [] ==> r == "None"
    ensures requests != [] && requests != [""] ==> r == Join(requests, ", ")
  {
    var joined := Join(requests, ", ");
    if joined == "" then "None" else joined
  }

  /** The user prompt sent to the model: tenant details, then the stripped body. */
  function ReplyPrompt(body: string, tenant: TenantRecord): (prompt: string)
    ensures Contains(prompt, RecentRequestsLine(tenant.recentRequests))
    ensures Contains(prompt, Strip(body))
  {
    var head := TenantInfo(tenant);
    var requests := RecentRequestsLine(tenant.recentRequests);
    var message := Strip(body);
    assert OccursAt(requests, requests, 0);
    ContainsInPart(head, requests, requests);
    ContainsInPart(head + requests, PromptMiddle, requests);
    ContainsInPart(head + requests + PromptMiddle, message, requests);
    ContainsInPart(head + requests + PromptMiddle + message, PromptTail, requests);
    ContainsPiece(head + requests + PromptMiddle, message, PromptTail);
    head + requests + PromptMiddle + message + PromptTail
  }

  /** The prompt up to the list of recent requests. */
  function TenantInfo(tenant: TenantRecord): string
  {
    PromptIntro
    + "- Name: " + tenant.name + "\n"
    + "- Unit: " + tenant.unit + "\n"
    + "- Lease: " + tenant.leaseStart + " to " + tenant.leaseEnd + "\n"
    + "- Balance Due: " + tenant.balanceDue + "\n"
    + "- Recent Requests: "
  }

  const PromptIntro :=
    "You are a helpful and professional assistant who replies on behalf of Property Management. "
    + "Always sign off with: 'Property Management'.\n\nTenant Info:\n"
  const PromptMiddle := "\n\nTenant Message:\n"
  const PromptTail := "\n\nReply (signed as Property Management):"

  /** `generate_reply`: the stripped completion when the model answers,
      otherwise the rule-based reply, otherwise the sentinel; on the
      fallback path the reply is never empty. */
  function GenerateReply(body: string, tenant: TenantRecord, complete: Completion): (r: string)
    ensures complete(ReplySystemPrompt, ReplyPrompt(body, tenant)).Some? ==>
      r == Strip(complete(ReplySystemPrompt, ReplyPrompt(body, tenant)).value)
    ensures complete(ReplySystemPrompt, ReplyPrompt(body, tenant)).None? ==>
      && r != ""
      && (RuleBasedReply(body, tenant).Some? ==> r == RuleBasedReply(body, tenant).value)
      && (RuleBasedReply(body, tenant).None? ==> r == NoReplySentinel)
  {
    var prompt := ReplyPrompt(body, tenant);
    match complete(ReplySystemPrompt, prompt)
    case Some(content) => Strip(content)
    case None =>
      var rule := RuleBasedReply(body, tenant);
      assert rule.Some? ==> |rule.value| >= |Greeting1|;
      rule.GetOr(NoReplySentinel)
  }
}
