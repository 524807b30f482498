/** How the reply ladder and the extractor's ladder relate. They test the
    same keyword groups in the same order except that the extractor's
    callback rule lacks "tomorrow" and that it tries pest before payment;
    on every text where neither difference shows, the reply template and
    the `(type, issue)` pair correspond. */
module Agreement {
  import opened Basics
  import opened Strings
  import opened Ladder
  import opened Utils
  import opened Responder
  import opened Workflow

  /** The `(type, issue)` pair that goes with each reply template. */
  function Counterpart(kind: ReplyKind): (string, string)
  {
    match kind
    case Lockout => (AccessIssue, "lockout")
    case MaintenanceTicket => (MaintenanceAndPaymentDispute, "payment withheld due to maintenance")
    case LeaseDates => (LeaseInfoRequest, "rent inquiry")
    case Callback => (CallbackRequest, "tenant requested a phone call")
    case Plumbing => (MaintenanceRequest, "plumbing leak")
    case Window => (MaintenanceRequest, "window damage")
    case Hvac => (MaintenanceRequest, "hvac issue")
    case PaymentStatus => (PaymentInquiry, "rent confirmation")
    case PestControl => (PestIssue, "pest report")
  }

  /** Where each reply rule sits in the extractor's ladder. */
  function Position(k: nat): nat
  {
    if k == 7 then 8 else if k == 8 then 7 else k
  }

  /** Rule by rule, the two ladders fire alike, the callback rules only
      where "tomorrow" does not occur; payment and pest trade places. */
  lemma RulesCorrespond(text: string)
    ensures forall k | 0 <= k < |ReplyLadder| && k != 3 ::
      Fires(ReplyLadder[k], text) <==> Fires(ActionLadder[Position(k)], text)
    ensures !Contains(text, "tomorrow") ==> (Fires(ReplyLadder[3], text) <==> Fires(ActionLadder[3], text))
  {
    assert ReplyLadder[0].clauses == ActionLadder[0].clauses;
    assert ReplyLadder[1].clauses == ActionLadder[1].clauses;
    assert ReplyLadder[2].clauses == ActionLadder[2].clauses;
    assert ReplyLadder[4].clauses == ActionLadder[4].clauses;
    assert ReplyLadder[5].clauses == ActionLadder[5].clauses;
    assert ReplyLadder[6].clauses == ActionLadder[6].clauses;
    assert ReplyLadder[8].clauses == ActionLadder[7].clauses;
    PaymentRulesCorrespond(text);
    CallbackRulesCorrespond(text);
  }

  /** The payment rules list the same words in another order. */
  lemma PaymentRulesCorrespond(text: string)
    ensures Fires(ReplyLadder[7], text) <==> Fires(ActionLadder[8], text)
  {
    var replyPayment := ["rent", "payment", "paid", "balance"];
    var payment := ["rent", "payment", "balance", "paid"];
    AnyWordFires(replyPayment, PaymentStatus, text);
    AnyWordFires(payment, (PaymentInquiry, "rent confirmation"), text);
    var swap := [0, 1, 3, 2];
    if ContainsAny(text, payment) {
      var i :| 0 <= i < |payment| && Contains(text, payment[i]);
      assert payment[i] == replyPayment[swap[i]];
    }
    if ContainsAny(text, replyPayment) {
      var i :| 0 <= i < |replyPayment| && Contains(text, replyPayment[i]);
      assert replyPayment[i] == payment[swap[i]];
    }
  }

  /** The reply's callback rule is the extractor's plus "tomorrow". */
  lemma CallbackRulesCorrespond(text: string)
    ensures Fires(ActionLadder[3], text) ==> Fires(ReplyLadder[3], text)
    ensures !Contains(text, "tomorrow") ==> (Fires(ReplyLadder[3], text) <==> Fires(ActionLadder[3], text))
  {
    var replyCallback := ["call me", "call back", "available", "tomorrow"];
    var callback := ["call me", "call back", "available"];
    AnyWordFires(replyCallback, Callback, text);
    AnyWordFires(callback, (CallbackRequest, "tenant requested a phone call"), text);
    if ContainsAny(text, callback) {
      var i :| 0 <= i < |callback| && Contains(text, callback[i]);
      assert replyCallback[i] == callback[i];
    }
    if !Contains(text, "tomorrow") && ContainsAny(text, replyCallback) {
      var i :| 0 <= i < |replyCallback| && Contains(text, replyCallback[i]);
      assert i < 3;
      assert replyCallback[i] == callback[i];
    }
  }

  /** Each reply rule's template goes with its partner's `(type, issue)`. */
  lemma ResultsCorrespond()
    ensures forall k | 0 <= k < |ReplyLadder| ::
      Position(k) < |ActionLadder| && ActionLadder[Position(k)].result == Counterpart(ReplyLadder[k].result)
  {
  }

  /** Where no "tomorrow" occurs and pest and payment keywords do not both
      occur, the extractor picks the counterpart of the reply template, and
      one ladder yields nothing exactly when the other does. */
  lemma LaddersAgree(text: string)
    requires !Contains(text, "tomorrow")
    requires !(Fires(ActionLadder[7], text) && Fires(ActionLadder[8], text))
    ensures FirstMatch(ReplyLadder, text).None? <==> ClassificationOf(text).None?
    ensures FirstMatch(ReplyLadder, text).Some? ==>
      ClassificationOf(text) == Some(Counterpart(FirstMatch(ReplyLadder, text).value))
  {
    RulesCorrespond(text);
    ResultsCorrespond();
    ReplyLadderDistinct();
    FirstMatchNone(ReplyLadder, text);
    FirstMatchNone(ActionLadder, text);
    var r := FirstIndex(ReplyLadder, text);
    if r.Some? {
      var k := r.value;
      ActionLadderOrder(text, Position(k));
    }
  }

  /** The first difference: with "tomorrow" and no keyword of the rules
      above the callback rules, the reply promises a call back while the
      extractor does not file a callback request. */
  lemma TomorrowOnlyInReply(text: string)
    requires Contains(text, "tomorrow")
    requires forall j | 0 <= j < 3 :: !Fires(ReplyLadder[j], text)
    requires !ContainsAny(text, ["call me", "call back", "available"])
    ensures FirstMatch(ReplyLadder, text) == Some(Callback)
    ensures ClassificationOf(text) != Some((CallbackRequest, "tenant requested a phone call"))
  {
    var words := ["call me", "call back", "available", "tomorrow"];
    AnyWordFires(words, Callback, text);
    assert Contains(text, words[3]);
    ReplyLadderDistinct();
    FirstMatchIs(ReplyLadder, text, 3);
    ActionLadderFires(text);
    ActionLadderOrder(text, 3);
  }

  /** The second difference: when pest and payment keywords both occur and
      nothing above them does, the reply is about payment while the item is
      a pest report. */
  lemma PestPaymentSwap(text: string)
    requires Fires(ActionLadder[7], text) && Fires(ActionLadder[8], text)
    requires forall j | 0 <= j < 7 :: !Fires(ReplyLadder[j], text)
    ensures FirstMatch(ReplyLadder, text) == Some(PaymentStatus)
    ensures ClassificationOf(text) == Some((PestIssue, "pest report"))
  {
    RulesCorrespond(text);
    ReplyLadderDistinct();
    FirstMatchIs(ReplyLadder, text, 7);
    assert Fires(ActionLadder[7], text) && forall j | 0 <= j < 7 :: !Fires(ActionLadder[j], text) by {
      assert forall j | 0 <= j < 7 && j != 3 :: Position(j) == j;
      CallbackRulesCorrespond(text);
    }
    ActionLadderOrder(text, 7);
  }
}
