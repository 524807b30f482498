/** Action-item extraction: the classifier model's JSON answer, with its
    free-text type normalised and routed, or, when the model or its answer
    fails, a keyword-based extractor that fills the record step by step. */
module Workflow {
  import opened Basics
  import opened Strings
  import opened Ladder
  import opened Utils

  /** One action item, the record appended to the store. `itemType` is
      `None` when no workflow-relevant intent was found. The fields the
      model's answer passes through unchecked are JSON values. */
  datatype ActionItem = ActionItem(
    itemType: Option<string>,
    location: Json,
    issue: Json,
    status: string,
    tenantEmail: string,
    unit: string,
    timestamp: string,
    originalText: string,
    priority: Json,
    cc: string)

  /** The extractor's own ladder: lock, dispute, rent amount / lease,
      callback (without "tomorrow"), plumbing, window, HVAC, pest, payment. */
  const ActionLadder: seq<Rule<(string, string)>> := [
    AnyWord(["locked", "lock"], (AccessIssue, "lockout")),
    AnyWord(["money order", "not paying", "toilet"], (MaintenanceAndPaymentDispute, "payment withheld due to maintenance")),
    Rule([["rent", "how much"], ["monthly rent"], ["lease"]], (LeaseInfoRequest, "rent inquiry")),
    AnyWord(["call me", "call back", "available"], (CallbackRequest, "tenant requested a phone call")),
    AnyWord(["leak", "pipe", "plumbing", "flood"], (MaintenanceRequest, "plumbing leak")),
    AnyWord(["window", "glass", "crack"], (MaintenanceRequest, "window damage")),
    AnyWord(["ac", "air conditioner", "heat", "hvac"], (MaintenanceRequest, "hvac issue")),
    AnyWord(["mouse", "rat", "roach", "pest", "bug", "infestation"], (PestIssue, "pest report")),
    AnyWord(["rent", "payment", "balance", "paid"], (PaymentInquiry, "rent confirmation"))
  ]

  /** Locations in the order they are tried, which is not the order in
      which they appear in the text. */
  const Locations: seq<string> := ["kitchen", "bathroom", "living room", "bedroom", "garage", "hallway"]

  const UrgentWords: seq<string> := ["urgent", "emergency", "asap"]

  /** The text the keyword extractor reads. */
  function ExtractorText(body: string, subject: string): string
  {
    Lower(subject + " " + body)
  }

  /** The first location of the list that occurs in the text. */
  function LocationOf(text: string): (loc: Option<string>)
    ensures loc.Some? ==> loc.value in Locations && Contains(text, loc.value)
    ensures loc.None? <==> forall j | 0 <= j < |Locations| :: !Contains(text, Locations[j])
  {
    LocationRulesFire(text);
    FirstMatchNone(LocationRules, text);
    FirstMatch(LocationRules, text)
  }

  /** One single-keyword rule per location, in list order. */
  const LocationRules: seq<Rule<string>> := Singles(LocationPairs)

  const LocationPairs: seq<(string, string)> := [
    ("kitchen", "kitchen"), ("bathroom", "bathroom"), ("living room", "living room"),
    ("bedroom", "bedroom"), ("garage", "garage"), ("hallway", "hallway")]

  lemma LocationRulesFire(text: string)
    ensures |LocationRules| == |Locations|
    ensures forall j | 0 <= j < |Locations| :: LocationRules[j].result == Locations[j]
    ensures forall j | 0 <= j < |Locations| :: Fires(LocationRules[j], text) <==> Contains(text, Locations[j])
  {
    forall j | 0 <= j < |Locations|
      ensures Fires(LocationRules[j], text) <==> Contains(text, Locations[j])
    {
      SingleFires(Locations[j], Locations[j], text);
    }
  }

  /** The `(type, issue)` pair of the first rule of the ladder that fires. */
  function ClassificationOf(text: string): (c: Option<(string, string)>)
    ensures c.Some? ==> c.value.0 in CanonicalTypes
    ensures c.None? <==> forall j | 0 <= j < |ActionLadder| :: !Fires(ActionLadder[j], text)
  {
    FirstMatchNone(ActionLadder, text);
    ActionTypesCanonical();
    FirstMatch(ActionLadder, text)
  }

  function OptionalText(o: Option<string>): Json
  {
    match o
    case Some(s) => JString(s)
    case None => JNull
  }

  /** What `rule_based_action_item` returns, field by field. */
  function RuleItem(body: string, subject: string, tenantEmail: string, tenantUnit: string, timestamp: string): (item: ActionItem)
    ensures item.status == "open" && item.originalText == Strip(body)
    ensures item.tenantEmail == tenantEmail && item.unit == tenantUnit && item.timestamp == timestamp
    ensures item.priority == JString("high") <==> ContainsAny(ExtractorText(body, subject), UrgentWords)
    ensures item.priority == JString("high") || item.priority == JString("normal")
    ensures item.location == JNull || (item.location.JString? && item.location.s in Locations)
    ensures item.itemType.None? <==> item.issue == JNull
    ensures item.itemType.Some? ==> item.itemType.value in CanonicalTypes
    ensures item.cc == Route(item.itemType)
  {
    var text := ExtractorText(body, subject);
    var c := ClassificationOf(text);
    var itemType := if c.Some? then Some(c.value.0) else None;
    ActionItem(
      itemType := itemType,
      location := OptionalText(LocationOf(text)),
      issue := if c.Some? then JString(c.value.1) else JNull,
      status := "open",
      tenantEmail := tenantEmail,
      unit := tenantUnit,
      timestamp := timestamp,
      originalText := Strip(body),
      priority := JString(if ContainsAny(text, UrgentWords) then "high" else "normal"),
      cc := Route(itemType))
  }

  lemma ActionLadderDistinct()
    ensures DistinctResults(ActionLadder)
  {
  }

  /** The location scan: each location is tried in list order and the
      first one that occurs is taken. */
  lemma LocationOrder(text: string, k: nat)
    requires k < |Locations|
    ensures LocationOf(text) == Some(Locations[k]) <==>
      Contains(text, Locations[k]) && forall j | 0 <= j < k :: !Contains(text, Locations[j])
    ensures LocationOf(text) == None <==> forall j | 0 <= j < |Locations| :: !Contains(text, Locations[j])
  {
    LocationRulesFire(text);
    assert DistinctResults(LocationRules);
    FirstMatchIs(LocationRules, text, k);
  }

  /** `rule_based_action_item`: builds the record with its fixed fields,
      then sets location, priority, type and issue, and the copy address. */
  method RuleBasedActionItem(body: string, subject: string, tenantEmail: string, tenantUnit: string, timestamp: string)
    returns (item: ActionItem)
    ensures item == RuleItem(body, subject, tenantEmail, tenantUnit, timestamp)
    ensures item.status == "open" && item.originalText == Strip(body)
    ensures item.tenantEmail == tenantEmail && item.unit == tenantUnit && item.timestamp == timestamp
    ensures item.priority == JString("high") <==> ContainsAny(ExtractorText(body, subject), UrgentWords)
    ensures item.priority == JString("high") || item.priority == JString("normal")
    ensures item.itemType.None? <==> item.issue == JNull
    ensures item.itemType.Some? ==> item.itemType.value in CanonicalTypes
    ensures item.cc == Route(item.itemType)
  {
    var text := Lower(subject + " " + body);
    item := ActionItem(
      itemType := None, location := JNull, issue := JNull, status := "open",
      tenantEmail := tenantEmail, unit := tenantUnit, timestamp := timestamp,
      originalText := Strip(body), priority := JString("normal"), cc := "");

    var location := FindLocation(text);
    item := item.(location := location);

    if ContainsAny(text, UrgentWords) {
      item := item.(priority := JString("high"));
    }

    var itemType, issue := Classify(text);
    item := item.(itemType := itemType, issue := issue);

    item := item.(cc := Route(item.itemType));
  }

  /** The location loop: the first listed location that occurs, else null. */
  method FindLocation(text: string) returns (location: Json)
    ensures location == OptionalText(LocationOf(text))
  {
    location := JNull;
    var i := 0;
    while i < |Locations|
      invariant 0 <= i <= |Locations|
      invariant forall j | 0 <= j < i :: !Contains(text, Locations[j])
    {
      if Contains(text, Locations[i]) {
        LocationOrder(text, i);
        location := JString(Locations[i]);
        break;
      }
      i := i + 1;
    }
    if i == |Locations| {
      LocationOrder(text, 0);
    }
  }

  /** The issue classification of `rule_based_action_item`: the if/elif
      chain sets type and issue together, or leaves both unset. */
  method Classify(text: string) returns (itemType: Option<string>, issue: Json)
    ensures ClassificationOf(text).Some? ==>
      itemType == Some(ClassificationOf(text).value.0) && issue == JString(ClassificationOf(text).value.1)
    ensures ClassificationOf(text).None? ==> itemType == None && issue == JNull
  {
    itemType, issue := None, JNull;
    ClassificationChain(text);
    if Contains(text, "locked") || Contains(text, "lock") {
      itemType, issue := Some(AccessIssue), JString("lockout");
    } else if ContainsAny(text, ["money order", "not paying", "toilet"]) {
      itemType, issue := Some(MaintenanceAndPaymentDispute), JString("payment withheld due to maintenance");
    } else if (Contains(text, "rent") && Contains(text, "how much")) || Contains(text, "monthly rent") || Contains(text, "lease") {
      itemType, issue := Some(LeaseInfoRequest), JString("rent inquiry");
    } else if ContainsAny(text, ["call me", "call back", "available"]) {
      itemType, issue := Some(CallbackRequest), JString("tenant requested a phone call");
    } else if ContainsAny(text, ["leak", "pipe", "plumbing", "flood"]) {
      itemType, issue := Some(MaintenanceRequest), JString("plumbing leak");
    } else if ContainsAny(text, ["window", "glass", "crack"]) {
      itemType, issue := Some(MaintenanceRequest), JString("window damage");
    } else if ContainsAny(text, ["ac", "air conditioner", "heat", "hvac"]) {
      itemType, issue := Some(MaintenanceRequest), JString("hvac issue");
    } else if ContainsAny(text, ["mouse", "rat", "roach", "pest", "bug", "infestation"]) {
      itemType, issue := Some(PestIssue), JString("pest report");
    } else if ContainsAny(text, ["rent", "payment", "balance", "paid"]) {
      itemType, issue := Some(PaymentInquiry), JString("rent confirmation");
    }
  }

  /** What each rule of the extractor's ladder tests, as the source's
      conditions spell it. */
  lemma ActionLadderFires(text: string)
    ensures Fires(ActionLadder[0], text) <==> Contains(text, "locked") || Contains(text, "lock")
    ensures Fires(ActionLadder[1], text) <==> ContainsAny(text, ["money order", "not paying", "toilet"])
    ensures Fires(ActionLadder[2], text) <==>
      (Contains(text, "rent") && Contains(text, "how much")) || Contains(text, "monthly rent") || Contains(text, "lease")
    ensures Fires(ActionLadder[3], text) <==> ContainsAny(text, ["call me", "call back", "available"])
    ensures Fires(ActionLadder[4], text) <==> ContainsAny(text, ["leak", "pipe", "plumbing", "flood"])
    ensures Fires(ActionLadder[5], text) <==> ContainsAny(text, ["window", "glass", "crack"])
    ensures Fires(ActionLadder[6], text) <==> ContainsAny(text, ["ac", "air conditioner", "heat", "hvac"])
    ensures Fires(ActionLadder[7], text) <==> ContainsAny(text, ["mouse", "rat", "roach", "pest", "bug", "infestation"])
    ensures Fires(ActionLadder[8], text) <==> ContainsAny(text, ["rent", "payment", "balance", "paid"])
  {
    AnyWordFires(["locked", "lock"], (AccessIssue, "lockout"), text);
    AnyWordFires(["money order", "not paying", "toilet"], (MaintenanceAndPaymentDispute, "payment withheld due to maintenance"), text);
    AnyWordFires(["call me", "call back", "available"], (CallbackRequest, "tenant requested a phone call"), text);
    AnyWordFires(["leak", "pipe", "plumbing", "flood"], (MaintenanceRequest, "plumbing leak"), text);
    AnyWordFires(["window", "glass", "crack"], (MaintenanceRequest, "window damage"), text);
    AnyWordFires(["ac", "air conditioner", "heat", "hvac"], (MaintenanceRequest, "hvac issue"), text);
    AnyWordFires(["mouse", "rat", "roach", "pest", "bug", "infestation"], (PestIssue, "pest report"), text);
    AnyWordFires(["rent", "payment", "balance", "paid"], (PaymentInquiry, "rent confirmation"), text);
    var lock := ["locked", "lock"];
    if Contains(text, "locked") {
      assert Contains(text, lock[0]);
    } else if Contains(text, "lock") {
      assert Contains(text, lock[1]);
    }
    var lease := ActionLadder[2];
    if Fires(lease, text) {
      var i :| 0 <= i < |lease.clauses| && AllOccur(text, lease.clauses[i]);
      assert Contains(text, lease.clauses[i][0]);
      assert Contains(text, lease.clauses[i][|lease.clauses[i]| - 1]);
    }
    if Contains(text, "rent") && Contains(text, "how much") {
      assert AllOccur(text, lease.clauses[0]);
    } else if Contains(text, "monthly rent") {
      assert AllOccur(text, lease.clauses[1]);
    } else if Contains(text, "lease") {
      assert AllOccur(text, lease.clauses[2]);
    }
  }

  /** The extractor's ladder read as the source's if/elif chain. */
  lemma ClassificationChain(text: string)
    ensures ClassificationOf(text) ==
      if Contains(text, "locked") || Contains(text, "lock") then Some(ActionLadder[0].result)
      else if ContainsAny(text, ["money order", "not paying", "toilet"]) then Some(ActionLadder[1].result)
      else if (Contains(text, "rent") && Contains(text, "how much")) || Contains(text, "monthly rent")
        || Contains(text, "lease") then Some(ActionLadder[2].result)
      else if ContainsAny(text, ["call me", "call back", "available"]) then Some(ActionLadder[3].result)
      else if ContainsAny(text, ["leak", "pipe", "plumbing", "flood"]) then Some(ActionLadder[4].result)
      else if ContainsAny(text, ["window", "glass", "crack"]) then Some(ActionLadder[5].result)
      else if ContainsAny(text, ["ac", "air conditioner", "heat", "hvac"]) then Some(ActionLadder[6].result)
      else if ContainsAny(text, ["mouse", "rat", "roach", "pest", "bug", "infestation"]) then Some(ActionLadder[7].result)
      else if ContainsAny(text, ["rent", "payment", "balance", "paid"]) then Some(ActionLadder[8].result)
      else None
  {
    ActionLadderFires(text);
    ActionLadderDistinct();
    var k := 0;
    while k < |ActionLadder|
      invariant 0 <= k <= |ActionLadder|
      invariant forall j | 0 <= j < k :: !Fires(ActionLadder[j], text)
    {
      if Fires(ActionLadder[k], text) {
        FirstMatchIs(ActionLadder, text, k);
        return;
      }
      k := k + 1;
    }
    FirstMatchNone(ActionLadder, text);
  }

  lemma ActionTypesCanonical()
    ensures forall k | 0 <= k < |ActionLadder| :: ActionLadder[k].result.0 in CanonicalTypes
  {
  }

  /** First match in the extractor's order: a `(type, issue)` pair is chosen
      exactly when its rule fires and no rule above it does. */
  lemma ActionLadderOrder(text: string, k: nat)
    requires k < |ActionLadder|
    ensures ClassificationOf(text) == Some(ActionLadder[k].result) <==>
      Fires(ActionLadder[k], text) && forall j | 0 <= j < k :: !Fires(ActionLadder[j], text)
  {
    ActionLadderDistinct();
    FirstMatchIs(ActionLadder, text, k);
  }

  /** Pest comes before payment in the extractor: a text with "bug" and
      "paid" and nothing from the first seven rules is a pest report. */
  lemma PestBeforePayment(text: string)
    requires Contains(text, "bug") && Contains(text, "paid")
    requires forall j | 0 <= j < 7 :: !Fires(ActionLadder[j], text)
    ensures ClassificationOf(text) == Some((PestIssue, "pest report"))
    ensures Fires(ActionLadder[8], text)
  {
    var pest := ["mouse", "rat", "roach", "pest", "bug", "infestation"];
    var payment := ["rent", "payment", "balance", "paid"];
    ActionLadderFires(text);
    assert Contains(text, pest[4]) && Contains(text, payment[3]);
    ActionLadderOrder(text, 7);
  }

  /** Any "lock" in subject or body makes an access issue routed to security. */
  lemma LockoutItem(body: string, subject: string, tenantEmail: string, tenantUnit: string, timestamp: string)
    requires Contains(ExtractorText(body, subject), "lock")
    ensures RuleItem(body, subject, tenantEmail, tenantUnit, timestamp).itemType == Some(AccessIssue)
    ensures RuleItem(body, subject, tenantEmail, tenantUnit, timestamp).issue == JString("lockout")
    ensures RuleItem(body, subject, tenantEmail, tenantUnit, timestamp).cc == SecurityAddress
  {
    ActionLadderFires(ExtractorText(body, subject));
    ActionLadderOrder(ExtractorText(body, subject), 0);
  }

  /** A toilet complaint with no "lock" is a payment dispute copied to operations. */
  lemma ToiletDispute(body: string, subject: string, tenantEmail: string, tenantUnit: string, timestamp: string)
    requires Contains(ExtractorText(body, subject), "toilet") && !Contains(ExtractorText(body, subject), "lock")
    ensures RuleItem(body, subject, tenantEmail, tenantUnit, timestamp).itemType == Some(MaintenanceAndPaymentDispute)
    ensures RuleItem(body, subject, tenantEmail, tenantUnit, timestamp).issue == JString("payment withheld due to maintenance")
    ensures RuleItem(body, subject, tenantEmail, tenantUnit, timestamp).cc == OpsAddress
  {
    var text := ExtractorText(body, subject);
    var dispute := ["money order", "not paying", "toilet"];
    ActionLadderFires(text);
    assert Contains(text, dispute[2]);
    if Contains(text, "locked") {
      assert OccursAt("locked", "lock", 0);
      ContainsTransitive(text, "locked", "lock");
    }
    ActionLadderOrder(text, 1);
  }

  /** An urgent HVAC report naming the bedroom, and no location listed
      before the bedroom nor any keyword of the first six rules: high
      priority, bedroom, HVAC issue, copied to maintenance. */
  lemma UrgentHvacInBedroom(body: string, subject: string, tenantEmail: string, tenantUnit: string, timestamp: string)
    requires Contains(ExtractorText(body, subject), "urgent")
    requires Contains(ExtractorText(body, subject), "ac")
    requires Contains(ExtractorText(body, subject), "bedroom")
    requires forall j | 0 <= j < 3 :: !Contains(ExtractorText(body, subject), Locations[j])
    requires forall j | 0 <= j < 6 :: !Fires(ActionLadder[j], ExtractorText(body, subject))
    ensures RuleItem(body, subject, tenantEmail, tenantUnit, timestamp).priority == JString("high")
    ensures RuleItem(body, subject, tenantEmail, tenantUnit, timestamp).location == JString("bedroom")
    ensures RuleItem(body, subject, tenantEmail, tenantUnit, timestamp).itemType == Some(MaintenanceRequest)
    ensures RuleItem(body, subject, tenantEmail, tenantUnit, timestamp).issue == JString("hvac issue")
    ensures RuleItem(body, subject, tenantEmail, tenantUnit, timestamp).cc == MaintenanceAddress
  {
    var text := ExtractorText(body, subject);
    assert Contains(text, UrgentWords[0]);
    LocationOrder(text, 3);
    var hvac := ["ac", "air conditioner", "heat", "hvac"];
    ActionLadderFires(text);
    assert Contains(text, hvac[0]);
    ActionLadderOrder(text, 6);
  }

  /** Label keys as one-keyword rules, in the map's order. */
  const NormalizationLadder: seq<Rule<string>> := Singles(TypeNormalization)

  /** The type of the first key, in map order, found in the lower-cased
      label, or "other" when no key occurs. */
  function NormalizedType(rawType: string): (t: string)
    ensures t == OtherType || t in CanonicalTypes
    ensures t != ""
  {
    var r := FirstIndex(NormalizationLadder, Lower(rawType));
    if r.Some? then
      assert forall k | 0 <= k < |TypeNormalization| :: TypeNormalization[k].1 in CanonicalTypes;
      NormalizationLadder[r.value].result
    else OtherType
  }

  /** The normaliser is first-match over the map's order: key `k` decides
      exactly when it occurs in the lower-cased label and no earlier key
      does, and the label is "other" exactly when no key occurs. */
  lemma NormalizationOrder(rawType: string, k: nat)
    requires k < |TypeNormalization|
    ensures Contains(Lower(rawType), TypeNormalization[k].0) &&
            (forall j | 0 <= j < k :: !Contains(Lower(rawType), TypeNormalization[j].0))
            ==> NormalizedType(rawType) == TypeNormalization[k].1
    ensures NormalizedType(rawType) == OtherType <==>
            forall j | 0 <= j < |TypeNormalization| :: !Contains(Lower(rawType), TypeNormalization[j].0)
  {
    var lowered := Lower(rawType);
    forall j | 0 <= j < |TypeNormalization|
      ensures Fires(NormalizationLadder[j], lowered) <==> Contains(lowered, TypeNormalization[j].0)
    {
      SingleFires(TypeNormalization[j].0, TypeNormalization[j].1, lowered);
    }
    FirstIndexIs(NormalizationLadder, lowered, k);
    NormalizationTargetsRouted();
  }

  /** "maintenance" is the first key, so any label mentioning maintenance,
      "maintenance + payment" included, is a maintenance request. */
  lemma MaintenanceFirst(rawType: string)
    requires Contains(Lower(rawType), "maintenance")
    ensures NormalizedType(rawType) == MaintenanceRequest
  {
    NormalizationOrder(rawType, 0);
  }

  /** The last key of the map can never win: no label normalises to the
      maintenance-and-payment dispute type. */
  lemma DisputeNeverNormalized(rawType: string)
    ensures NormalizedType(rawType) != MaintenanceAndPaymentDispute
  {
    var lowered := Lower(rawType);
    var r := FirstIndex(NormalizationLadder, lowered);
    if r == Some(|TypeNormalization| - 1) {
      SingleFires("maintenance + payment", MaintenanceAndPaymentDispute, lowered);
      assert OccursAt("maintenance + payment", "maintenance", 0);
      ContainsTransitive(lowered, "maintenance + payment", "maintenance");
      SingleFires("maintenance", MaintenanceRequest, lowered);
    }
  }

  /** "rent" comes before "lease": a label mentioning rent is never a lease
      request, and is a payment inquiry unless a maintenance key occurs. */
  lemma RentBeforeLease(rawType: string)
    requires Contains(Lower(rawType), "rent")
    ensures NormalizedType(rawType) != LeaseInfoRequest
    ensures (forall j | 0 <= j < 5 :: !Contains(Lower(rawType), TypeNormalization[j].0)) ==>
      NormalizedType(rawType) == PaymentInquiry
  {
    var lowered := Lower(rawType);
    SingleFires("rent", PaymentInquiry, lowered);
    FirstIndexAtMost(NormalizationLadder, lowered, 6);
    if forall j | 0 <= j < 5 :: !Contains(lowered, TypeNormalization[j].0) {
      if Contains(lowered, "payment") {
        NormalizationOrder(rawType, 5);
      } else {
        NormalizationOrder(rawType, 6);
      }
    }
  }

  /** Lock-out and access labels: with no earlier key present, a label
      mentioning "lockout", "locked out" or "access" is an access issue. */
  lemma AccessLabels(rawType: string)
    requires Contains(Lower(rawType), "lockout") || Contains(Lower(rawType), "locked out")
      || Contains(Lower(rawType), "access")
    requires forall j | 0 <= j < 10 :: !Contains(Lower(rawType), TypeNormalization[j].0)
    ensures NormalizedType(rawType) == AccessIssue
  {
    if Contains(Lower(rawType), "lockout") {
      NormalizationOrder(rawType, 10);
    } else if Contains(Lower(rawType), "locked out") {
      NormalizationOrder(rawType, 11);
    } else {
      NormalizationOrder(rawType, 12);
    }
  }

  /** `json.loads`: the parsed document, or `None` when the text is not JSON. */
  type JsonParser = string -> Option<Json>

  const ExtractSystemPrompt :=
    "You are an assistant for property managers. Your job is to classify emails and extract action items."

  const ExtractIntro := "Classify the following email from a tenant and extract an action item in JSON format.\n\nEmail:\n\"\"\""
  const ExtractOutro := "\"\"\"\n\nReturn only a JSON object with the following fields:\ntype, issue, location, priority"

  /** The user prompt: the subject and body, quoted, and the fields asked for. */
  function ExtractPrompt(body: string, subject: string): (prompt: string)
    ensures Contains(prompt, subject + " " + body)
  {
    ContainsPiece(ExtractIntro, subject + " " + body, ExtractOutro);
    ExtractIntro + (subject + " " + body) + ExtractOutro
  }

  /** The fields read from the model's answer. */
  datatype Answer = Answer(rawType: string, location: Json, issue: Json, priority: Json)

  /** Reading the parsed answer as `extract_action_item` does: `None` where
      Python raises (the document is not an object, or its "type" is present
      but not a string, `null` included). A missing "type" reads as "";
      missing "location" and "issue" read as null; a missing "priority"
      reads as "normal", a present one is kept whatever it holds. */
  function ReadAnswer(doc: Json): (a: Option<Answer>)
    ensures a.Some? <==> doc.JObject? && ("type" in doc.fields ==> doc.fields["type"].JString?)
    ensures a.Some? && "priority" !in doc.fields ==> a.value.priority == JString("normal")
    ensures a.Some? && "priority" in doc.fields ==> a.value.priority == doc.fields["priority"]
    ensures a.Some? ==> a.value.rawType == (if "type" in doc.fields then doc.fields["type"].s else "")
    ensures a.Some? ==> a.value.location == (if "location" in doc.fields then doc.fields["location"] else JNull)
    ensures a.Some? ==> a.value.issue == (if "issue" in doc.fields then doc.fields["issue"] else JNull)
  {
    match doc
    case JObject(fields) =>
      var typeValue := if "type" in fields then fields["type"] else JString("");
      if !typeValue.JString? then None
      else Some(Answer(
        rawType := typeValue.s,
        location := if "location" in fields then fields["location"] else JNull,
        issue := if "issue" in fields then fields["issue"] else JNull,
        priority := if "priority" in fields then fields["priority"] else JString("normal")))
    case _ => None
  }

  /** The item built from a usable answer: normalised type, routed copy. */
  function LlmItem(answer: Answer, body: string, tenantEmail: string, tenantUnit: string, timestamp: string): (item: ActionItem)
    ensures item.itemType.Some? && item.itemType.value != ""
    ensures item.itemType.value == OtherType || item.itemType.value in CanonicalTypes
    ensures item.cc == Route(item.itemType)
    ensures item.location == answer.location && item.issue == answer.issue && item.priority == answer.priority
    ensures item.status == "open" && item.originalText == Strip(body)
    ensures item.tenantEmail == tenantEmail && item.unit == tenantUnit && item.timestamp == timestamp
  {
    var itemType := NormalizedType(answer.rawType);
    ActionItem(
      itemType := Some(itemType),
      location := answer.location,
      issue := answer.issue,
      status := "open",
      tenantEmail := tenantEmail,
      unit := tenantUnit,
      timestamp := timestamp,
      originalText := Strip(body),
      priority := answer.priority,
      cc := Route(Some(itemType)))
  }

  /** A parse result the extractor can use: an object whose "type", when
      present, is text. */
  predicate AcceptedAnswer(parsed: Option<Json>)
  {
    parsed.Some? && parsed.value.JObject? && ("type" in parsed.value.fields ==> parsed.value.fields["type"].JString?)
  }

  /** The model's usable answer for this email, if any. */
  function ModelAnswer(body: string, subject: string, complete: Completion, parse: JsonParser): (a: Option<Answer>)
    ensures complete(ExtractSystemPrompt, ExtractPrompt(body, subject)).None? ==> a.None?
    ensures complete(ExtractSystemPrompt, ExtractPrompt(body, subject)).Some? ==>
      (a.Some? <==> AcceptedAnswer(parse(Strip(complete(ExtractSystemPrompt, ExtractPrompt(body, subject)).value))))
  {
    match complete(ExtractSystemPrompt, ExtractPrompt(body, subject))
    case None => None
    case Some(content) =>
      match parse(Strip(content))
      case None => None
      case Some(doc) => ReadAnswer(doc)
  }

  /** What `extract_action_item` returns. */
  function ExtractedItem(body: string, subject: string, tenantEmail: string, tenantUnit: string, timestamp: string,
                         complete: Completion, parse: JsonParser): (item: ActionItem)
    ensures item.status == "open" && item.originalText == Strip(body)
    ensures item.tenantEmail == tenantEmail && item.unit == tenantUnit && item.timestamp == timestamp
    ensures item.itemType.Some? ==> item.itemType.value == OtherType || item.itemType.value in CanonicalTypes
    ensures item.cc == Route(item.itemType)
  {
    match ModelAnswer(body, subject, complete, parse)
    case Some(answer) => LlmItem(answer, body, tenantEmail, tenantUnit, timestamp)
    case None => RuleItem(body, subject, tenantEmail, tenantUnit, timestamp)
  }

  /** `extract_action_item`: any failure of the model, of the parse or of
      reading the answer falls back to the keyword extractor with the same
      arguments; otherwise the type is normalised by a first-match scan of
      the label map and routed. A model item always has a type. */
  method ExtractActionItem(body: string, subject: string, tenantEmail: string, tenantUnit: string, timestamp: string,
                           complete: Completion, parse: JsonParser)
    returns (item: ActionItem)
    ensures item == ExtractedItem(body, subject, tenantEmail, tenantUnit, timestamp, complete, parse)
    ensures ModelAnswer(body, subject, complete, parse).None? ==>
      item == RuleItem(body, subject, tenantEmail, tenantUnit, timestamp)
    ensures ModelAnswer(body, subject, complete, parse).Some? ==>
      && item.itemType == Some(NormalizedType(ModelAnswer(body, subject, complete, parse).value.rawType))
      && item.cc == Route(item.itemType)
  {
    var answer := complete(ExtractSystemPrompt, ExtractPrompt(body, subject));
    if answer.None? {
      assert ModelAnswer(body, subject, complete, parse).None?;
      item := RuleBasedActionItem(body, subject, tenantEmail, tenantUnit, timestamp);
      return;
    }
    var parsed := parse(Strip(answer.value));
    if parsed.None? || !parsed.value.JObject? {
      assert ModelAnswer(body, subject, complete, parse).None?;
      item := RuleBasedActionItem(body, subject, tenantEmail, tenantUnit, timestamp);
      return;
    }
    var fields := parsed.value.fields;
    var typeValue := if "type" in fields then fields["type"] else JString("");
    if !typeValue.JString? {
      assert ModelAnswer(body, subject, complete, parse).None?;
      item := RuleBasedActionItem(body, subject, tenantEmail, tenantUnit, timestamp);
      return;
    }
    ghost var read := ModelAnswer(body, subject, complete, parse);
    assert read.Some? && read.value.rawType == typeValue.s;

    var rawType := Lower(typeValue.s);
    var normalizedType := OtherType;
    for i := 0 to |TypeNormalization|
      invariant forall j | 0 <= j < i :: !Contains(rawType, TypeNormalization[j].0)
      invariant normalizedType == OtherType
    {
      if Contains(rawType, TypeNormalization[i].0) {
        NormalizationOrder(typeValue.s, i);
        normalizedType := TypeNormalization[i].1;
        break;
      }
    }
    if normalizedType == OtherType {
      NormalizationOrder(typeValue.s, 0);
    }
    assert normalizedType == NormalizedType(typeValue.s);
    assert ExtractedItem(body, subject, tenantEmail, tenantUnit, timestamp, complete, parse)
        == LlmItem(read.value, body, tenantEmail, tenantUnit, timestamp);

    item := ActionItem(
      itemType := Some(normalizedType),
      location := if "location" in fields then fields["location"] else JNull,
      issue := if "issue" in fields then fields["issue"] else JNull,
      status := "open",
      tenantEmail := tenantEmail,
      unit := tenantUnit,
      timestamp := timestamp,
      originalText := Strip(body),
      priority := if "priority" in fields then fields["priority"] else JString("normal"),
      cc := Route(Some(normalizedType)));
  }

  /** An empty label matches no keyword of the table. */
  lemma EmptyLabelIsOther()
    ensures NormalizedType("") == OtherType
  {
    NormalizationOrder("", 0);
    assert Lower("") == "";
    forall j | 0 <= j < |TypeNormalization|
      ensures !Contains("", TypeNormalization[j].0)
    {
      assert |TypeNormalization[j].0| > 0;
    }
  }

  /** A classifier answer without a "type" field files an item of type
      "other", copied to operations, rather than falling back to the rules. */
  lemma UntypedAnswerIsOther(body: string, subject: string, tenantEmail: string, tenantUnit: string, timestamp: string,
                             complete: Completion, parse: JsonParser, fields: map<string, Json>)
    requires complete(ExtractSystemPrompt, ExtractPrompt(body, subject)).Some?
    requires parse(Strip(complete(ExtractSystemPrompt, ExtractPrompt(body, subject)).value)) == Some(JObject(fields))
    requires "type" !in fields
    ensures ExtractedItem(body, subject, tenantEmail, tenantUnit, timestamp, complete, parse).itemType == Some(OtherType)
    ensures ExtractedItem(body, subject, tenantEmail, tenantUnit, timestamp, complete, parse).cc == OpsAddress
  {
    assert ModelAnswer(body, subject, complete, parse) == ReadAnswer(JObject(fields));
    EmptyLabelIsOther();
    NormalizationTargetsRouted();
  }
}
