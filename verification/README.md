# Domos email assistant: a verified model of the reply and triage core

The assistant reads unread tenant emails and answers each one. It also
builds a structured action item for each email, files it when it has a type,
and copies the reply to the stakeholder responsible for that kind of item. This project models the
decisions it makes along the way, as Dafny that verifies:

- **Reply** (`Responder`, responder.py). A large-language-model completion is
  tried first. If the provider fails, a keyword ladder picks one of nine
  templates. If nothing matches, a fixed sentinel sentence is sent instead.
- **Action item** (`Workflow`, workflow.py). A classifier completion is parsed
  as JSON. Its free-form type label is normalised through an ordered table.
  If anything fails, a rule-based extractor fills the item from a second
  keyword ladder, a location list and an urgency list.
- **Tables** (`Utils`, utils.py). These are the mocked tenant directory, the
  type-normalisation list and the stakeholder copy (CC) table.
- **Driver** (`Driver`, main.py). For each email it:
  - extracts the reply address with the pattern `<(.+?)>`;
  - looks up the tenant;
  - files the item only when its type is truthy, resetting an unusable store
    file to an empty list before appending;
  - sends the reply, copying the item's `cc` (the model assumes store writes succeed).

Shared pieces:

- `Strings` models Python's substring test, `lower`, `strip` and `join` on
  strings.
- `Ladder` is an ordered first-match rule list. Each keyword ladder of the
  source is written as one of these.
- `Agreement` relates the two keyword ladders to each other.

Outside effects become parameters:

- The completion provider is a function from (system prompt, user prompt) to
  an optional completion. `None` stands for any HTTP, status or response-shape
  failure.
- `json.loads` is a function from text to an optional JSON value.
- The clock is a function from an email's position in the batch to its
  timestamp.

The driver's state is a class, `Driver.Assistant`, with two fields: the
action-item store file and the outbox of sent replies. Each method states
the new state in terms of specification functions, and lemmas about those
functions state what the source promises.

Behaviour of the code that is easy to miss:

- **A whitespace-only completion gives an empty reply.** `generate_reply`
  returns `content.strip()` unchecked (responder.py:136), so a
  whitespace-only completion gives an empty reply. The reply is non-empty
  only on the fallback path (`Responder.GenerateReply`).
- **A missing `type` key is not a failure.** `parsed.get("type", "")`
  (workflow.py:116) reads a missing label as the empty string, which
  normalises to `"other"` rather than falling back to the rules
  (`Workflow.UntypedAnswerIsOther`).
- **`"maintenance + payment"` never wins.** The normalisation entry for it
  is shadowed by the earlier `"maintenance"` entry.
- **`"ac"` matches inside other words.** The HVAC rules' bare `"ac"` matches
  inside words such as "roach", "back" or "place".

## Model

| member | source | states |
|---|---|---|
| Strings.Lower | responder.py:26 | lower-casing keeps the length and maps each character on its own (ASCII letters only) |
| Strings.Strip | responder.py:114 | the result is a slice of the input with only whitespace cut at both ends, and neither end of it is whitespace |
| Strings.Join | responder.py:113 | joining one part gives that part; with a non-empty separator the result is empty exactly when there are no parts or the single part is empty |
| Ladder.FirstFrom | responder.py:30-88 | the rule index found fires, and no rule tried before it fires; none found means no rule fires |
| Ladder.FirstMatchIs | responder.py:30-88 | with distinct results, a rule's result is chosen iff that rule fires and no earlier rule does |
| Ladder.FirstMatchNone | responder.py:88 | nothing is chosen iff no rule fires |
| Utils.GetTenantContext | utils.py:90-97 | a known address yields its stored record; any other yields the all-"Unknown" record with no recent requests |
| Utils.Route | workflow.py:76 | a type in the copy table routes to its stakeholder; no type or an unlisted type routes to the operations address |
| Utils.RoutingTable | utils.py:69-77 | the copy table covers exactly the seven canonical types; maintenance and pest share an address; the dispute type, no type and "other" all go to operations |
| Utils.NormalizationTargetsRouted | utils.py:47-66 | every normalisation target is canonical and routed, while "other" falls to the default |
| Responder.RenderContains | responder.py:31-36 | a filled template contains the value of each of its placeholders |
| Responder.ReplyText | responder.py:32 | every template reply opens with the greeting "Hi " |
| Responder.ReplyTextMentions | responder.py:30-86 | each template names the tenant; all but the lease, callback and payment ones name the unit; the lease one quotes both lease dates |
| Responder.ReplyKindOf | responder.py:26-88 | no template is picked iff no rule fires on the lower-cased body; a picked template's rule fires |
| Responder.RuleBasedReply | responder.py:15-88 | there is no reply iff no rule fires; a reply opens with the greeting and names the tenant |
| Responder.Rank | responder.py:30-86 | each template has its own rung on the ladder |
| Responder.ReplyLadderDistinct | responder.py:30-86 | the nine templates are pairwise different |
| Responder.RuleReplyOrder | responder.py:30-86 | a template is chosen iff its rule fires on the lower-cased body and no rule above it does |
| Responder.RuleReplyNone | responder.py:88 | there is no template reply iff no rule fires |
| Responder.RuleReplyIgnoresCase | responder.py:26 | bodies that differ only in letter case get the same reply |
| Responder.LockSubsumes | responder.py:30 | "locked", and also "block", imply "lock", so the first rule is a bare "lock" test |
| Responder.LockRuleFires | responder.py:30 | the lockout rule fires exactly when "lock" occurs |
| Responder.LockoutWins | responder.py:30-36 | any body containing "lock" gets the lockout reply, naming the tenant and unit, whatever else it says |
| Responder.ToiletBeforeLeak | responder.py:37-43 | "toilet" without "lock" gets the maintenance-ticket reply even if "leak" occurs |
| Responder.RoachIsHvac | responder.py:69-86 | a body with "roach" never gets the pest reply; it gets the HVAC reply when no higher rule fires |
| Responder.LeaseReplyQuotesDates | responder.py:44-50 | the lease reply quotes the stored lease start and end |
| Responder.RecentRequestsLine | responder.py:113 | the recent-requests line is never empty: "None" for no requests, otherwise the comma-joined list |
| Responder.ReplyPrompt | responder.py:105-116 | the prompt carries the recent-requests line and the stripped body |
| Responder.GenerateReply | responder.py:133-140 | a completion gives its stripped text; otherwise the rule reply if any, else the sentinel, and then never empty |
| Workflow.ActionLadderDistinct | workflow.py:48-74 | the nine `(type, issue)` results of the extractor's ladder are pairwise different |
| Workflow.LocationOf | workflow.py:39-42 | a location found is a listed one that occurs in the text; none is found iff no listed location occurs |
| Workflow.LocationRulesFire | workflow.py:39-40 | the rule for each listed location fires exactly when that location occurs |
| Workflow.FindLocation | workflow.py:39-42 | the for/break loop yields the first listed location that occurs, or null |
| Workflow.ClassificationOf | workflow.py:47-74 | an assigned type is canonical; nothing is assigned iff no rule fires |
| Workflow.RuleItem | workflow.py:19-77 | the rule-based item is open, keeps the stripped body and the caller's fields, has priority high iff an urgency word occurs (else normal), a listed location or null, type and issue absent together, a canonical type and cc the route of the type |
| Workflow.LocationOrder | workflow.py:39-42 | the location is the first of the list that occurs in the text, and none iff no listed location occurs |
| Workflow.RuleBasedActionItem | workflow.py:19-77 | the item is open and keeps the stripped body and the caller's fields; priority is high iff an urgency word occurs, else normal; type and issue are absent together; the type is canonical; cc is the route of the type |
| Workflow.Classify | workflow.py:47-74 | the if/elif chain sets type and issue to the first firing rule's pair, or leaves both unset |
| Workflow.ActionLadderFires | workflow.py:48-74 | each rung fires exactly on the source's keyword condition |
| Workflow.ClassificationChain | workflow.py:47-74 | the first-match ladder equals the source's if/elif chain |
| Workflow.ActionLadderOrder | workflow.py:48-74 | a pair is chosen iff its rule fires and no earlier rule does |
| Workflow.PestBeforePayment | workflow.py:69-74 | a text with "bug" and "paid" (and nothing higher) is a pest report although the payment rule fires too |
| Workflow.LockoutItem | workflow.py:48-50 | any "lock" gives an access issue "lockout" copied to security |
| Workflow.ToiletDispute | workflow.py:51-53 | "toilet" without "lock" gives the dispute type, copied to operations |
| Workflow.UrgentHvacInBedroom | workflow.py:39-68 | an urgent "ac" text mentioning only the bedroom gets high priority, location bedroom, an HVAC maintenance request and the maintenance copy |
| Workflow.NormalizedType | workflow.py:116-122 | the normalised type is "other" or canonical, and never empty |
| Workflow.NormalizationOrder | workflow.py:119-122 | the first keyword, in table order, that occurs in the lower-cased label decides the target; "other" iff no keyword occurs |
| Workflow.MaintenanceFirst | utils.py:48 | any label containing "maintenance" becomes a maintenance request |
| Workflow.DisputeNeverNormalized | utils.py:65 | no label normalises to the dispute type |
| Workflow.RentBeforeLease | utils.py:54-56 | a label with "rent" never becomes a lease request, and becomes a payment inquiry when no maintenance keyword occurs |
| Workflow.AccessLabels | utils.py:58-60 | lockout and access labels, with no earlier keyword, become access issues |
| Workflow.ExtractPrompt | workflow.py:88-93 | the classifier prompt quotes the subject, a space and the body |
| Workflow.ReadAnswer | workflow.py:114-135 | an answer is read iff the JSON is an object whose type, when present, is text; the label is that text, or "" when absent; location and issue pass through, null when absent; a missing priority defaults to "normal", a present one passes through |
| Workflow.ModelAnswer | workflow.py:110-116 | no completion gives no answer; with a completion, an answer exists iff its stripped text parses to an object whose type, when present, is text |
| Workflow.LlmItem | workflow.py:117-135 | the classifier item has a non-empty type, "other" or canonical, routed to its stakeholder; location, issue and priority pass through; the item is open and keeps the stripped body and the caller's fields |
| Workflow.ExtractedItem | workflow.py:110-139 | on either path the item is open, keeps the stripped body and the caller's fields, has type "other" or canonical when present, and cc the route of its type |
| Workflow.EmptyLabelIsOther | workflow.py:116-117 | the empty label normalises to "other" |
| Workflow.UntypedAnswerIsOther | workflow.py:116-122 | a parsed object without "type" gives an item of type "other" copied to operations, not the rule-based item |
| Workflow.ExtractActionItem | workflow.py:80-139 | the result is the classifier item when the provider and the parse succeed, with the normalised type and its route; on any failure it is the rule-based item |
| Agreement.RulesCorrespond | workflow.py:48-74 | the two ladders fire rung by rung alike, with the payment and pest rungs swapped and the callback rungs alike without "tomorrow" |
| Agreement.PaymentRulesCorrespond | workflow.py:72 | the payment rules of both ladders fire on the same texts |
| Agreement.CallbackRulesCorrespond | responder.py:51 | the reply's callback rule fires whenever the extractor's does, and on the same texts when "tomorrow" is absent |
| Agreement.ResultsCorrespond | workflow.py:48-74 | each reply template's partner rung carries the matching `(type, issue)` pair |
| Agreement.LaddersAgree | workflow.py:48-74 | without "tomorrow", and unless pest and payment words both occur, the item's pair is the partner of the reply template, and both ladders find nothing on the same texts |
| Agreement.TomorrowOnlyInReply | responder.py:51-56 | "tomorrow" alone gets the callback reply but no callback item |
| Agreement.PestPaymentSwap | workflow.py:69-74 | with pest and payment words (and nothing higher) the reply is about payment while the item is a pest report |
| Driver.LazyClose | main.py:30 | the lazy group ends at the first `'>'` that leaves at least one character inside and no line break before it, or there is none |
| Driver.Search | main.py:30 | the search finds the leftmost `'<'` that has a closing `'>'`, with the shortest group from there, or reports that no match exists |
| Driver.SenderAddress | main.py:30-31 | the address is the group of the leftmost, shortest match, or the whole header when nothing matches |
| Driver.AngleBracketSender | main.py:30-31 | `Name<address>` yields the address when the name has no `'<'` and the address no `'>'` or line break |
| Driver.BareSender | main.py:31 | a header without `'<'` is used as it is |
| Driver.BrokenSender | main.py:30-31 | a line break inside the brackets defeats the match, so the whole header is used |
| Driver.Persists | main.py:51 | an item with no type, or with the empty type, is never filed |
| Driver.PersistsExactly | main.py:51 | an item is filed iff the classifier answered or a keyword rule fired |
| Driver.PriorItems | main.py:55-66 | the kept items are the file's list, or none when the file is missing, unreadable or not a list |
| Driver.Stored | main.py:51-71 | a filed item leaves a list one longer than the kept items, ending in the item; an unfiled one leaves the store file as it was |
| Driver.StoredAppendsOne | main.py:51-71 | filing appends exactly the one item to the kept list and leaves a list; without filing the store file is left exactly as it was, unreadable or not |
| Driver.MessageAndItem | main.py:34-79 | for `ItemFor`, `MessageFor` and `HandleEmail`: `send_reply` is given the sender and the original subject, with the copy routed by the item's type; the item carries the sender and the stored unit ("Unknown" for strangers) |
| Driver.FallbackReplyNotEmpty | main.py:39 | when the provider fails, the reply sent is never empty |
| Driver.Handlings | main.py:25 | a batch yields one item and one reply per email |
| Driver.Replay | main.py:25-79 | replaying a batch appends exactly one reply per email and keeps the earlier outbox as its prefix |
| Driver.ReplayStep | main.py:25 | one more email applies its filing and its reply to the state so far |
| Driver.Messages | main.py:79 | the sent replies are those of the handled emails, in order |
| Driver.EveryEmailAnswered | main.py:25-79 | after a batch the outbox is the old outbox plus one reply per email, in order, whatever was filed |
| Driver.StoreKeepsOrder | main.py:55-71 | after a batch the kept items come first and in order, followed by the filed items in email order |
| Driver.NothingFiled | main.py:51 | when no item has a type, the store is left as it was |
| Driver.Assistant.constructor | main.py:20-23 | a new assistant starts with the given store and an empty outbox |
| Driver.Assistant.LoadItems | main.py:55-66 | loading yields the file's list, or the empty list for a missing, unreadable or non-list file |
| Driver.Assistant.ProcessEmail | main.py:29-79 | one email updates the store to the filing of its item and appends its reply to the outbox |
| Driver.Assistant.Run | main.py:25-79 | a batch replays each email in order, so the outbox gains one reply per email and the store keeps its items followed by the filed ones |

## Left out

- Network calls (the provider's HTTP request and the SMTP and IMAP sessions) are not modelled. The provider is a function parameter, and mail fetching and sending are not part of the model: email_client.py is not part of this model.
- Sampling temperatures and token budgets (responder.py:129-130, workflow.py:106-107) are opaque provider settings.
- config.py is not part of this model; it only reads environment variables.
- The provider is a fixed function of its prompts: two calls with the same prompt give the same answer. A live model may answer differently each time.
- `json.loads` and `json.dump` are not modelled as text. Parsing is a parameter, and the store holds JSON values. Key order, indentation and floating-point numbers are not represented.
- File input and output are not modelled beyond the store's states Absent, Unreadable and Present. A store file that is not valid UTF-8 raises a decoding error that the source does not catch. That crash is not modelled; such a file counts as Unreadable.
- A failed store write (main.py:70, for example when the `output/` directory is missing) raises and ends the run before the reply is sent, for that email and all later ones. Writes are assumed to succeed, so Driver.EveryEmailAnswered holds only for runs whose writes succeed.
- The console diagnostics (`print`) have no effect on the state and are left out.
- Strings.Lower: only ASCII letters are lower-cased, while Python's `str.lower` folds all of Unicode.
- Strings.Strip: only ASCII whitespace and the information separators are stripped, while Python also strips other Unicode spaces.
- Workflow.RuleBasedActionItem: the timestamp is a parameter rather than the UTC clock.
- Workflow.ExtractActionItem: the timestamp is a parameter. An HTTP, status or response-shape failure is the provider returning None, a parse error is the parser returning None, and a `.lower()` on a non-text type is the fallback.
- Driver.MessageAndItem: the `cc` default of `action_item.get` is never needed, because every item carries `cc`.
- Driver.MessageAndItem: the unit default of `tenant_context.get("unit", "unknown")` is never needed, because every tenant record has a unit.
- Responder.GenerateReply: a whitespace-only completion gives an empty reply, and the contract promises a non-empty reply only on the fallback path.
