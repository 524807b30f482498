/** The per-email driver: work out who wrote, answer them, file the action
    item when it has a type, and keep the item store and the outgoing mail
    as state that each email updates. */
module Driver {
  import opened Basics
  import opened Strings
  import opened Utils
  import opened Responder
  import opened Workflow

  // ---------------------------------------------------------------------
  // The sender address: the regular expression `<(.+?)>`

  /** `c` closes a lazy `.+?` group opened at `open`: at least one
      character inside, a `'>'` at `c`, and no line break in between
      (the dot does not match one). */
  predicate ValidClose(s: string, open: nat, c: nat)
  {
    open + 2 <= c < |s| && s[c] == '>' && forall k | open + 1 <= k < c :: s[k] != '\n'
  }

  /** The pattern matches with its `'<'` at `open` and its `'>'` at `c`. */
  predicate Matches(s: string, open: nat, c: nat)
  {
    open < |s| && s[open] == '<' && ValidClose(s, open, c)
  }

  /** The match a regular-expression search reports: the leftmost start,
      and from there the shortest group. */
  ghost predicate SearchResult(s: string, open: nat, c: nat)
  {
    && Matches(s, open, c)
    && (forall o: nat, c': nat | o < open :: !Matches(s, o, c'))
    && (forall c': nat | Matches(s, open, c') :: c <= c')
  }

  /** The lazy group grows one character at a time from `j`. */
  function LazyClose(s: string, open: nat, j: nat): (c: Option<nat>)
    requires open < j <= |s|
    requires forall k | open + 1 <= k < j :: s[k] != '\n'
    requires forall k | open + 2 <= k < j :: s[k] != '>'
    ensures c.Some? ==> ValidClose(s, open, c.value) && forall k | open + 2 <= k < c.value :: s[k] != '>'
    ensures c.None? ==> forall k | j <= k < |s| :: !ValidClose(s, open, k)
    decreases |s| - j
  {
    if j == |s| then None
    else if s[j] == '\n' then None
    else if s[j] == '>' && open + 2 <= j then Some(j)
    else LazyClose(s, open, j + 1)
  }

  /** The search tries each start from `i` on, leftmost first. */
  function Search(s: string, i: nat): (m: Option<(nat, nat)>)
    requires i <= |s|
    ensures m.Some? ==>
      && i <= m.value.0
      && Matches(s, m.value.0, m.value.1)
      && (forall o: nat, c: nat | i <= o < m.value.0 :: !Matches(s, o, c))
      && (forall c: nat | Matches(s, m.value.0, c) :: m.value.1 <= c)
    ensures m.None? ==> forall o: nat, c: nat | i <= o :: !Matches(s, o, c)
    decreases |s| - i
  {
    if i == |s| then None
    else if s[i] == '<' && LazyClose(s, i, i + 1).Some? then Some((i, LazyClose(s, i, i + 1).value))
    else Search(s, i + 1)
  }

  /** The reply address: the group of the first match, else the header. */
  function SenderAddress(from: string): (to: string)
    ensures (forall o: nat, c: nat :: !Matches(from, o, c)) ==> to == from
    ensures (exists o: nat, c: nat :: Matches(from, o, c)) ==>
      exists o: nat, c: nat | SearchResult(from, o, c) :: to == from[o + 1..c]
  {
    match Search(from, 0)
    case Some((o, c)) =>
      assert SearchResult(from, o, c);
      from[o + 1..c]
    case None => from
  }

  /** `Name <address>` yields the address when the name has no `'<'` and
      the address has no `'>'` and no line break. */
  lemma {:induction false} AngleBracketSender(name: string, address: string)
    requires '<' !in name
    requires address != [] && '>' !in address && '\n' !in address
    ensures SenderAddress(name + "<" + address + ">") == address
  {
    var s := name + "<" + address + ">";
    var o, c := |name|, |name| + 1 + |address|;
    assert s[o] == '<';
    assert forall k | o + 1 <= k < c :: s[k] == address[k - o - 1];
    assert Matches(s, o, c);
    assert s[o + 1..c] == address;
  }

  /** Without a `'<'` the header itself is the address. */
  lemma {:induction false} BareSender(from: string)
    requires '<' !in from
    ensures SenderAddress(from) == from
  {
    forall o: nat, c: nat
      ensures !Matches(from, o, c)
    {
      if o < |from| {
        assert from[o] in from;
      }
    }
  }

  /** A line break inside the brackets defeats the match. */
  lemma {:induction false} BrokenSender(address: string)
    requires '\n' in address && '<' !in address && '>' !in address
    ensures SenderAddress("<" + address + ">") == "<" + address + ">"
  {
    var s := "<" + address + ">";
    var n :| 0 <= n < |address| && address[n] == '\n';
    forall o: nat, c: nat
      ensures !Matches(s, o, c)
    {
      if 0 < o < |s| - 1 {
        assert s[o] == address[o - 1];
      } else if o == 0 {
        if 2 <= c < |s| - 1 {
          assert s[c] == address[c - 1];
        } else if c == |s| - 1 {
          assert s[n + 1] == address[n];
        }
      }
    }
  }

  // ---------------------------------------------------------------------
  // Persisting action items

  /** Python truthiness of `action_item["type"]`: neither None nor "". */
  predicate Persists(item: ActionItem)
    ensures Persists(item) ==> item.itemType.Some?
    ensures item.itemType == None ==> !Persists(item)
    ensures item.itemType == Some("") ==> !Persists(item)
  {
    item.itemType.Some? && item.itemType.value != ""
  }

  /** Classifier items always have a type; rule items have one exactly when
      some rule fired. */
  lemma PersistsExactly(body: string, subject: string, tenantEmail: string, tenantUnit: string, timestamp: string,
                        complete: Completion, parse: JsonParser)
    ensures Persists(ExtractedItem(body, subject, tenantEmail, tenantUnit, timestamp, complete, parse)) <==>
      ModelAnswer(body, subject, complete, parse).Some? || ClassificationOf(ExtractorText(body, subject)).Some?
  {
    match ModelAnswer(body, subject, complete, parse)
    case Some(answer) => LlmItemPersists(answer, body, tenantEmail, tenantUnit, timestamp);
    case None => RuleItemPersists(body, subject, tenantEmail, tenantUnit, timestamp);
  }

  /** An item built from a usable classifier answer is always filed. */
  lemma LlmItemPersists(answer: Answer, body: string, tenantEmail: string, tenantUnit: string, timestamp: string)
    ensures Persists(LlmItem(answer, body, tenantEmail, tenantUnit, timestamp))
  {
  }

  /** A rule-based item is filed exactly when a rung of the extractor's
      ladder fires. */
  lemma RuleItemPersists(body: string, subject: string, tenantEmail: string, tenantUnit: string, timestamp: string)
    ensures Persists(RuleItem(body, subject, tenantEmail, tenantUnit, timestamp)) <==>
      ClassificationOf(ExtractorText(body, subject)).Some?
  {
  }

  /** The item as `json.dump` writes it. */
  function ItemJson(item: ActionItem): Json
  {
    JObject(map[
      "type" := OptionalText(item.itemType),
      "location" := item.location,
      "issue" := item.issue,
      "status" := JString(item.status),
      "tenant_email" := JString(item.tenantEmail),
      "unit" := JString(item.unit),
      "timestamp" := JString(item.timestamp),
      "original_text" := JString(item.originalText),
      "priority" := item.priority,
      "cc" := JString(item.cc)])
  }

  /** What the store file holds when the driver opens it. */
  datatype StoreFile =
    | Absent                 // no file yet
    | Unreadable             // the file exists but is not valid JSON
    | Present(doc: Json)     // the parsed document

  /** The items kept from the store: its list, or nothing. */
  function PriorItems(store: StoreFile): (items: seq<Json>)
    ensures store.Present? && store.doc.JArray? ==> items == store.doc.elems
    ensures !(store.Present? && store.doc.JArray?) ==> items == []
  {
    match store
    case Present(JArray(elems)) => elems
    case _ => []
  }

  /** The store after one email: unchanged unless the item persists, else
      the kept list with the item appended. */
  function Stored(store: StoreFile, item: ActionItem): (after: StoreFile)
    ensures !Persists(item) ==> after == store
    ensures Persists(item) ==>
      && after.Present? && after.doc.JArray?
      && |after.doc.elems| == |PriorItems(store)| + 1
      && after.doc.elems[|PriorItems(store)|] == ItemJson(item)
  {
    if Persists(item) then Present(JArray(PriorItems(store) + [ItemJson(item)])) else store
  }

  lemma StoredAppendsOne(store: StoreFile, item: ActionItem)
    ensures PriorItems(Stored(store, item)) == PriorItems(store) + (if Persists(item) then [ItemJson(item)] else [])
    ensures Persists(item) ==> Stored(store, item).Present? && Stored(store, item).doc.JArray?
    ensures !Persists(item) ==> Stored(store, item) == store
  {
  }

  // ---------------------------------------------------------------------
  // One email, and a batch of them

  datatype Email = Email(from: string, subject: string, body: string)

  /** A reply as it is handed to the mail sender. */
  datatype Outgoing = Outgoing(to: string, subject: string, body: string, cc: string)

  /** The item filed for an email, with the sender's stored unit. */
  function ItemFor(email: Email, timestamp: string, complete: Completion, parse: JsonParser): ActionItem
  {
    var to := SenderAddress(email.from);
    ExtractedItem(email.body, email.subject, to, GetTenantContext(to).unit, timestamp, complete, parse)
  }

  /** The reply sent for an email. */
  function MessageFor(email: Email, timestamp: string, complete: Completion, parse: JsonParser): Outgoing
  {
    var to := SenderAddress(email.from);
    Outgoing(to, email.subject, GenerateReply(email.body, GetTenantContext(to), complete),
             ItemFor(email, timestamp, complete, parse).cc)
  }

  /** The reply goes back to the sender, under the original subject, with
      the stakeholder of the item's type in copy, and the item carries the
      sender's address and stored unit ("Unknown" for strangers). */
  lemma MessageAndItem(email: Email, timestamp: string, complete: Completion, parse: JsonParser)
    ensures MessageFor(email, timestamp, complete, parse).to == SenderAddress(email.from)
    ensures MessageFor(email, timestamp, complete, parse).subject == email.subject
    ensures MessageFor(email, timestamp, complete, parse).cc == Route(ItemFor(email, timestamp, complete, parse).itemType)
    ensures ItemFor(email, timestamp, complete, parse).tenantEmail == SenderAddress(email.from)
    ensures SenderAddress(email.from) !in MockTenants ==> ItemFor(email, timestamp, complete, parse).unit == "Unknown"
    ensures SenderAddress(email.from) in MockTenants ==>
      ItemFor(email, timestamp, complete, parse).unit == MockTenants[SenderAddress(email.from)].unit
  {
  }

  /** The reply's body is never empty when the provider gave nothing. */
  lemma FallbackReplyNotEmpty(email: Email, timestamp: string, complete: Completion, parse: JsonParser)
    requires complete(ReplySystemPrompt, ReplyPrompt(email.body, GetTenantContext(SenderAddress(email.from)))).None?
    ensures MessageFor(email, timestamp, complete, parse).body != ""
  {
  }

  /** What handling one email produces: the item and the reply. */
  datatype Handled = Handled(item: ActionItem, message: Outgoing)

  function HandleEmail(email: Email, timestamp: string, complete: Completion, parse: JsonParser): Handled
  {
    Handled(ItemFor(email, timestamp, complete, parse), MessageFor(email, timestamp, complete, parse))
  }

  /** The item and reply of each email of a batch, each stamped by the
      clock with its position in the batch. */
  function Handlings(emails: seq<Email>, clock: nat -> string, complete: Completion, parse: JsonParser): (hs: seq<Handled>)
    ensures |hs| == |emails|
  {
    seq(|emails|, k requires 0 <= k < |emails| => HandleEmail(emails[k], clock(k), complete, parse))
  }

  /** Store and outbox after a sequence of handled emails, in order. */
  function Replay(store: StoreFile, outbox: seq<Outgoing>, hs: seq<Handled>): (after: (StoreFile, seq<Outgoing>))
    ensures |after.1| == |outbox| + |hs| && after.1[..|outbox|] == outbox
  {
    if hs == [] then (store, outbox)
    else
      var before := Replay(store, outbox, hs[..|hs| - 1]);
      (Stored(before.0, hs[|hs| - 1].item), before.1 + [hs[|hs| - 1].message])
  }

  /** Replaying one more handled email applies it to the state so far. */
  lemma ReplayStep(store: StoreFile, outbox: seq<Outgoing>, hs: seq<Handled>, i: nat)
    requires i < |hs|
    ensures Replay(store, outbox, hs[..i + 1]) ==
      (Stored(Replay(store, outbox, hs[..i]).0, hs[i].item), Replay(store, outbox, hs[..i]).1 + [hs[i].message])
  {
    assert hs[..i + 1][..i] == hs[..i];
  }

  function Messages(hs: seq<Handled>): (ms: seq<Outgoing>)
    ensures |ms| == |hs| && forall k | 0 <= k < |hs| :: ms[k] == hs[k].message
  {
    seq(|hs|, k requires 0 <= k < |hs| => hs[k].message)
  }

  /** The JSON of the items that persist, in order. */
  function Filed(hs: seq<Handled>): seq<Json>
  {
    if hs == [] then []
    else
      var last := hs[|hs| - 1].item;
      Filed(hs[..|hs| - 1]) + (if Persists(last) then [ItemJson(last)] else [])
  }

  /** Every email gets exactly one reply, in order, whatever is filed. */
  lemma {:induction false} EveryEmailAnswered(store: StoreFile, outbox: seq<Outgoing>, hs: seq<Handled>)
    ensures Replay(store, outbox, hs).1 == outbox + Messages(hs)
  {
    if hs != [] {
      var init := hs[..|hs| - 1];
      EveryEmailAnswered(store, outbox, init);
      assert Messages(hs) == Messages(init) + [hs[|hs| - 1].message];
    }
  }

  /** The kept items stay first and in order; then come the filed items,
      one per email whose item persists. */
  lemma {:induction false} StoreKeepsOrder(store: StoreFile, outbox: seq<Outgoing>, hs: seq<Handled>)
    ensures PriorItems(Replay(store, outbox, hs).0) == PriorItems(store) + Filed(hs)
  {
    if hs != [] {
      var init := hs[..|hs| - 1];
      StoreKeepsOrder(store, outbox, init);
      StoredAppendsOne(Replay(store, outbox, init).0, hs[|hs| - 1].item);
    }
  }

  /** Nothing is filed, and the store is left as it was, when no item of
      the batch persists. */
  lemma {:induction false} NothingFiled(store: StoreFile, outbox: seq<Outgoing>, hs: seq<Handled>)
    requires forall k | 0 <= k < |hs| :: !Persists(hs[k].item)
    ensures Replay(store, outbox, hs).0 == store && Filed(hs) == []
  {
    if hs != [] {
      NothingFiled(store, outbox, hs[..|hs| - 1]);
    }
  }

  /** The assistant's state: the item store and the mail sent so far. */
  class Assistant {
    var store: StoreFile
    var outbox: seq<Outgoing>

    constructor (store: StoreFile)
      ensures this.store == store && outbox == []
    {
      this.store := store;
      outbox := [];
    }

    /** Read the existing items: kept only if the file exists, parses and
        holds a list. */
    static method LoadItems(store: StoreFile) returns (items: seq<Json>)
      ensures items == PriorItems(store)
    {
      if store.Absent? {
        items := [];
      } else if store.Unreadable? {
        items := [];
      } else if !store.doc.JArray? {
        items := [];
      } else {
        items := store.doc.elems;
      }
    }

    /** Handle one email. */
    method ProcessEmail(email: Email, timestamp: string, complete: Completion, parse: JsonParser)
      modifies this
      ensures store == Stored(old(store), HandleEmail(email, timestamp, complete, parse).item)
      ensures outbox == old(outbox) + [HandleEmail(email, timestamp, complete, parse).message]
    {
      var to := SenderAddress(email.from);
      var tenant := GetTenantContext(to);
      var reply := GenerateReply(email.body, tenant, complete);
      var item := ExtractActionItem(email.body, email.subject, to, tenant.unit, timestamp, complete, parse);
      assert item == HandleEmail(email, timestamp, complete, parse).item;
      if item.itemType.Some? && item.itemType.value != "" {
        var items := LoadItems(store);
        items := items + [ItemJson(item)];
        store := Present(JArray(items));
      }
      var message := Outgoing(to, email.subject, reply, item.cc);
      assert message == HandleEmail(email, timestamp, complete, parse).message;
      outbox := outbox + [message];
    }

    /** Handle a batch of emails in order. */
    method Run(emails: seq<Email>, clock: nat -> string, complete: Completion, parse: JsonParser)
      modifies this
      ensures (store, outbox) == Replay(old(store), old(outbox), Handlings(emails, clock, complete, parse))
      ensures outbox == old(outbox) + Messages(Handlings(emails, clock, complete, parse))
      ensures PriorItems(store) == PriorItems(old(store)) + Filed(Handlings(emails, clock, complete, parse))
    {
      ghost var hs := Handlings(emails, clock, complete, parse);
      for i := 0 to |emails|
        invariant (store, outbox) == Replay(old(store), old(outbox), hs[..i])
      {
        assert hs[i] == HandleEmail(emails[i], clock(i), complete, parse);
        ReplayStep(old(store), old(outbox), hs, i);
        ProcessEmail(emails[i], clock(i), complete, parse);
      }
      assert hs[..|emails|] == hs;
      EveryEmailAnswered(old(store), old(outbox), hs);
      StoreKeepsOrder(old(store), old(outbox), hs);
    }
  }
}
