/** What the inbound transaction reads off a provider's message (webhook-processor.js, channel-webhook-service.js). */
module InboundMessage {
  import opened Wrappers
  import opened Ordering
  import opened JsonValue

  datatype Kind = MessageKind | DeliveryKind | OtherKind

  /**
   * An event as it is queued: the provider's message and contacts are JSON. `timestampMs` is what `Number` makes of the
   * message's timestamp, in milliseconds, and absent when that is not a finite number.
   */
  datatype Payload =
    Payload(providerEventId: string, kind: Kind, message: Json, contacts: Json, timestampMs: Option<int>)

  /** `String(v || '')`. */
  function TextOr(v: Json): string { ToText(Or(v, Str(""))) }

  function PhoneOf(p: Payload): string { TextOr(Get(p.message, "from")) }

  /** `incomingBody`. */
  function IncomingBody(message: Json): string {
    var typ := Get(message, "type");
    var body := Get(Get(message, "text"), "body");
    if typ == Str("text") || Truthy(body) then TextOr(body)
    else if typ == Str("button") then TextOr(Get(Get(message, "button"), "text"))
    else if typ == Str("interactive") then
      var interactive := Get(message, "interactive");
      TextOr(Or(Get(Get(interactive, "button_reply"), "title"), Get(Get(interactive, "list_reply"), "title")))
    else "[" + ToText(Or(typ, Str("mensagem"))) + " recebida]"
  }

  function BodyOf(p: Payload): string { IncomingBody(p.message) }

  /** `contacts.find(contact => contact.wa_id === phone)`; `None` when a contact read on the way is null, which throws. */
  function FindContact(contacts: seq<Json>, phone: string): Option<Json> {
    if contacts == [] then Some(Null)
    else if contacts[0].Null? then None
    else if Get(contacts[0], "wa_id") == Str(phone) then Some(contacts[0])
    else FindContact(contacts[1..], phone)
  }

  /** The name for a new conversation; `None` when reading it throws. */
  function NameOf(p: Payload): Option<string> {
    var phone := PhoneOf(p);
    var found := match p.contacts
      case Null => Some(Null)
      case Arr(items) => FindContact(items, phone)
      case _ => None;
    if found.None? then None
    else
      Some(ToText(Or(Get(Get(found.value, "profile"), "name"), Or(Str(phone), Str("Contato")))))
  }

  // ----- what the tables accept

  const MAX_BODY: int := 4000
  const MAX_NAME: int := 200

  /** The earliest timestamp of PostgreSQL, in 4713 BC. */
  const MIN_TIME: int := -210_866_803_200_000
  /** The latest time of a JavaScript `Date`. */
  const MAX_TIME: int := 8_640_000_000_000_000

  predicate BodyOk(p: Payload) { 1 <= |BodyOf(p)| <= MAX_BODY }

  predicate NameOk(p: Payload) { NameOf(p).Some? && 1 <= |NameOf(p).value| <= MAX_NAME }

  predicate TimeOk(time: int) { MIN_TIME <= time <= MAX_TIME }

  function TimeOf(p: Payload, now: int): int { if p.timestampMs.Some? then p.timestampMs.value else now }

  /** What the event itself must satisfy for its message ever to be stored. */
  predicate Acceptable(p: Payload) { BodyOk(p) && NameOf(p).Some? && (p.timestampMs.Some? ==> TimeOk(p.timestampMs.value)) }

  // ----- what a body says

  /**
   * What the body of a message must be, kind by kind. A text comes first, whatever the type says; then the text of a
   * button; then the title of a button reply, before that of a list reply; and for any other kind a notice.
   */
  ghost predicate BodyTells(message: Json, body: string) {
    var typ := Get(message, "type");
    var text := Get(Get(message, "text"), "body");
    var button := Get(Get(message, "button"), "text");
    var reply := Get(Get(Get(message, "interactive"), "button_reply"), "title");
    var item := Get(Get(Get(message, "interactive"), "list_reply"), "title");
    && (forall s | s != "" && text == Str(s) :: body == s)
    && (typ == Str("text") && !Truthy(text) ==> body == "")
    && (typ == Str("button") && !Truthy(text) ==>
          (forall s | button == Str(s) :: body == s) && (button == Null ==> body == ""))
    && (typ == Str("interactive") && !Truthy(text) ==>
          && (forall s | s != "" && reply == Str(s) :: body == s)
          && (forall s | !Truthy(reply) && item == Str(s) :: body == s)
          && (reply == Null && item == Null ==> body == ""))
    && (!Truthy(text) ==>
          && (forall t | t !in {"", "text", "button", "interactive"} && typ == Str(t) :: body == "[" + t + " recebida]")
          && (typ == Null ==> body == "[mensagem recebida]"))
    // and of values that are no texts, as they print
    && (Truthy(text) ==> body == ToText(text))
    && (!Truthy(text) && typ == Str("button") ==> body == if Truthy(button) then ToText(button) else "")
    && (!Truthy(text) && typ == Str("interactive") ==>
          body == if Truthy(reply) then ToText(reply) else if Truthy(item) then ToText(item) else "")
    && (!Truthy(text) && typ !in {Str("text"), Str("button"), Str("interactive")} ==>
          body == "[" + (if Truthy(typ) then ToText(typ) else "mensagem") + " recebida]")
  }

  lemma IncomingBodyTells(message: Json)
    ensures BodyTells(message, IncomingBody(message))
  {
  }

  /** The sender, and the name a new conversation gets: the profile's, else the phone, else a fixed word. */
  lemma PhoneTells(p: Payload)
    ensures forall s | Get(p.message, "from") == Str(s) :: PhoneOf(p) == s
    ensures PhoneOf(p) == if Truthy(Get(p.message, "from")) then ToText(Get(p.message, "from")) else ""
  {
  }

  lemma NameTells(p: Payload, k: nat, phone: string)
    requires Get(p.message, "from") == Str(phone) && p.contacts.Arr? && k < |p.contacts.items|
    requires forall i | 0 <= i < k :: p.contacts.items[i] != Null && Get(p.contacts.items[i], "wa_id") != Str(phone)
    requires Get(p.contacts.items[k], "wa_id") == Str(phone)
    ensures forall s | s != "" && Get(Get(p.contacts.items[k], "profile"), "name") == Str(s) :: NameOf(p) == Some(s)
    ensures var name := Get(Get(p.contacts.items[k], "profile"), "name");
      NameOf(p) == Some(if Truthy(name) then ToText(name) else if phone == "" then "Contato" else phone)
  {
    FirstContact(p.contacts.items, phone, k);
  }

  lemma {:induction false} FirstContact(contacts: seq<Json>, phone: string, k: nat)
    requires k < |contacts| && Get(contacts[k], "wa_id") == Str(phone)
    requires forall i | 0 <= i < k :: contacts[i] != Null && Get(contacts[i], "wa_id") != Str(phone)
    ensures FindContact(contacts, phone) == Some(contacts[k])
    decreases contacts
  {
    if k > 0 { FirstContact(contacts[1..], phone, k - 1); }
  }

  /** Contacts that are neither absent nor a list cannot be read, nor can a list with null before the sender's contact. */
  lemma {:induction false} UnreadableContacts(p: Payload, k: nat, phone: string)
    requires Get(p.message, "from") == Str(phone)
    ensures p.contacts != Null && !p.contacts.Arr? ==> NameOf(p) == None
    ensures p.contacts.Arr? && k < |p.contacts.items| && p.contacts.items[k] == Null ==>
      (forall i | 0 <= i < k :: Get(p.contacts.items[i], "wa_id") != Str(phone)) ==> NameOf(p) == None
  {
    if p.contacts.Arr? && k < |p.contacts.items| && p.contacts.items[k] == Null
      && forall i | 0 <= i < k :: Get(p.contacts.items[i], "wa_id") != Str(phone) {
      NullContact(p.contacts.items, phone, k);
    }
  }

  lemma {:induction false} NullContact(contacts: seq<Json>, phone: string, k: nat)
    requires k < |contacts| && contacts[k] == Null
    requires forall i | 0 <= i < k :: Get(contacts[i], "wa_id") != Str(phone)
    ensures FindContact(contacts, phone) == None
    decreases contacts
  {
    if k > 0 { NullContact(contacts[1..], phone, k - 1); }
  }

  /** Without a contact of that phone the name is the phone itself. */
  lemma NameWithoutContact(p: Payload, phone: string)
    requires Get(p.message, "from") == Str(phone)
    requires p.contacts == Null
          || (p.contacts.Arr?
              && forall i | 0 <= i < |p.contacts.items| ::
                   p.contacts.items[i] != Null && Get(p.contacts.items[i], "wa_id") != Str(phone))
    ensures NameOf(p) == Some(if phone == "" then "Contato" else phone)
  {
    if p.contacts.Arr? { NoContact(p.contacts.items, phone); }
  }

  lemma {:induction false} NoContact(contacts: seq<Json>, phone: string)
    requires forall i | 0 <= i < |contacts| :: contacts[i] != Null && Get(contacts[i], "wa_id") != Str(phone)
    ensures FindContact(contacts, phone) == Some(Null)
    decreases contacts
  {
    if contacts != [] { NoContact(contacts[1..], phone); }
  }

  /** The limits, as the tables state them. */
  lemma LimitsTell(p: Payload, time: int)
    ensures BodyOk(p) <==> 1 <= |BodyOf(p)| <= 4000
    ensures NameOk(p) <==> exists name :: NameOf(p) == Some(name) && 1 <= |name| <= 200
    ensures TimeOk(time) <==> -210_866_803_200_000 <= time <= 8_640_000_000_000_000
  {
    hide NameOf, BodyOf;
  }

  // ----- facts

  predicate Announced(message: Json) {
    var typ := Get(message, "type");
    typ == Str("text") || typ == Str("button") || typ == Str("interactive") || Truthy(Get(Get(message, "text"), "body"))
  }

  /**
   * A message of any other kind has the body of a notice, which names its kind; so only the listed kinds can lack a
   * body.
   */
  lemma NoticeBody(message: Json)
    requires !Announced(message)
    ensures |IncomingBody(message)| >= 11
    ensures IncomingBody(message)[0] == '['
  {
  }

  /** The name defaults to the phone and then to a constant: it is empty only when a profile's name prints as nothing. */
  lemma EmptyName(p: Payload)
    requires NameOf(p) == Some("")
    ensures p.contacts.Arr? && exists c | c in p.contacts.items :: PrintsAsNothing(c)
  {
    var found := FindContact(p.contacts.items, PhoneOf(p)).value;
    FoundIsMember(p.contacts.items, PhoneOf(p));
    var name := Get(Get(found, "profile"), "name");
    assert Truthy(name);
  }

  /** A truthy name that prints as nothing. */
  predicate PrintsAsNothing(contact: Json) {
    var name := Get(Get(contact, "profile"), "name");
    Truthy(name) && ToText(name) == ""
  }

  lemma FoundIsMember(contacts: seq<Json>, phone: string)
    requires FindContact(contacts, phone).Some? && FindContact(contacts, phone).value != Null
    ensures FindContact(contacts, phone).value in contacts
  {
  }

  /** An answer of a kind that the transaction does not know: its body is empty, which the table refuses. */
  const FLOW_REPLY: Json :=
    Obj([Prop("type", Str("interactive")), Prop("interactive", Obj([Prop("nfm_reply", Obj([]))]))])

  lemma FlowReplyHasNoBody(p: Payload)
    requires p.message == FLOW_REPLY
    ensures BodyOf(p) == "" && !BodyOk(p) && !Acceptable(p)
  {
    var interactive := Obj([Prop("nfm_reply", Obj([]))]);
    assert Get(FLOW_REPLY, "type") == Str("interactive");
    assert Lookup(FLOW_REPLY.props[1..], "interactive") == interactive;
    assert Get(FLOW_REPLY, "interactive") == interactive;
    assert Lookup(interactive.props[1..], "button_reply") == Null;
    assert Get(interactive, "button_reply") == Null && Get(interactive, "list_reply") == Null;
    assert Lookup(FLOW_REPLY.props[1..][1..], "text") == Null;
    assert Get(FLOW_REPLY, "text") == Null;
  }
}
