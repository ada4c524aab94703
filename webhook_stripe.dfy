/**
  The Stripe webhook (api/webhook-stripe.js). It verifies the signature of the event; for a
  completed checkout it parses the answers saved in the session metadata and inserts one
  record into the `consultations` collection. Signature verification and JSON parsing are
  oracles whose results are inputs; the database is a `Store` object whose outcome flags
  stand for what the server does.
 */
module WebhookStripe {
  import opened Wrappers

  /** The parts of the checkout session the handler reads. */
  datatype Session = Session(
    id: string,
    customerEmail: Option<string>,   // `customer_details.email`; None when `customer_details` is missing
    paymentStatus: string)

  datatype Event = Event(eventType: string, session: Session)

  /** What `constructEvent` gave: the event, or the message of the error it threw. */
  datatype Verification = Verified(event: Event) | Rejected(message: string)

  /** The parsed questionnaire answers. */
  type Answers = map<string, string>

  /** One document of the `consultations` collection. */
  datatype Consultation = Consultation(
    sessionId: string,
    customerEmail: string,
    answers: Answers,
    paymentStatus: string,
    createdAt: int)

  /** How the handler ended: a reply, or an exception it does not catch. */
  datatype Handled = Replied(status: nat, text: string) | Uncaught

  const CompletedType := "checkout.session.completed"

  /** The document for a session, or `None` when building it throws because `customer_details` is missing. */
  function DocumentOf(s: Session, answers: Answers, now: int): (d: Option<Consultation>)
    ensures d.Some? <==> s.customerEmail.Some?
    ensures d.Some? ==>
      && d.value.sessionId == s.id && d.value.customerEmail == s.customerEmail.value
      && d.value.answers == answers && d.value.paymentStatus == s.paymentStatus && d.value.createdAt == now
  {
    match s.customerEmail
    case None => None
    case Some(email) => Some(Consultation(s.id, email, answers, s.paymentStatus, now))
  }

  /** The collection and the number of clients connected and not yet closed. */
  class Store {
    var records: seq<Consultation>
    var openClients: nat

    constructor ()
      ensures records == [] && openClients == 0
    {
      records := [];
      openClients := 0;
    }

    /** `client.connect()`; `succeeds` is whether the server accepts the connection. */
    method Connect(succeeds: bool) returns (ok: bool)
      modifies this`openClients
      ensures ok == succeeds
      ensures openClients == old(openClients) + (if ok then 1 else 0)
    {
      ok := succeeds;
      if ok {
        openClients := openClients + 1;
      }
    }

    /** `collection.insertOne(doc)`; a failed insert stores nothing. */
    method InsertOne(doc: Consultation, succeeds: bool) returns (ok: bool)
      modifies this`records
      ensures ok == succeeds
      ensures records == if ok then old(records) + [doc] else old(records)
    {
      ok := succeeds;
      if ok {
        records := records + [doc];
      }
    }

    /** `client.close()` of a connected client. */
    method Close(succeeds: bool) returns (ok: bool)
      requires openClients > 0
      modifies this`openClients
      ensures ok == succeeds
      ensures openClients == if ok then old(openClients) - 1 else old(openClients)
    {
      ok := succeeds;
      if ok {
        openClients := openClients - 1;
      }
    }
  }

  /**
    The handler. `parsed` is what `JSON.parse(session.metadata.answers)` gives (`None` when
    it throws), `connects`, `inserts` and `closes` whether each database step succeeds, and
    `now` the time `new Date()` reads.
   */
  method HandleWebhook(store: Store, verification: Verification, parsed: Option<Answers>,
                       connects: bool, inserts: bool, closes: bool, now: int) returns (h: Handled)
    modifies store
    // a bad signature: 400 before the store is touched
    ensures verification.Rejected? ==>
      h == Replied(400, "Webhook Error: " + verification.message)
      && store.records == old(store.records) && store.openClients == old(store.openClients)
    // another event type: acknowledged, nothing written
    ensures verification.Verified? && verification.event.eventType != CompletedType ==>
      h == Replied(200, "Received")
      && store.records == old(store.records) && store.openClients == old(store.openClients)
    // unparsable answers: the exception escapes before the try block, nothing written
    ensures verification.Verified? && verification.event.eventType == CompletedType && parsed.None? ==>
      h == Uncaught && store.records == old(store.records) && store.openClients == old(store.openClients)
    // a completed checkout: one record exactly when the document was built and inserted
    ensures verification.Verified? && verification.event.eventType == CompletedType && parsed.Some? ==>
      var doc := DocumentOf(verification.event.session, parsed.value, now);
      var stored := connects && doc.Some? && inserts;
      && store.records == (if stored then old(store.records) + [doc.value] else old(store.records))
      && store.openClients == old(store.openClients) + (if connects && !(stored && closes) then 1 else 0)
      && h == (if stored && closes then Replied(200, "Received") else Replied(500, "Internal Server Error"))
  {
    if verification.Rejected? {
      return Replied(400, "Webhook Error: " + verification.message);
    }
    var event := verification.event;
    if event.eventType == CompletedType {
      var session := event.session;
      if parsed.None? {
        return Uncaught;
      }
      var answers := parsed.value;
      var ok := store.Connect(connects);
      if !ok {
        return Replied(500, "Internal Server Error");
      }
      var doc := DocumentOf(session, answers, now);
      if doc.None? {
        return Replied(500, "Internal Server Error");
      }
      ok := store.InsertOne(doc.value, inserts);
      if !ok {
        return Replied(500, "Internal Server Error");
      }
      ok := store.Close(closes);
      if !ok {
        return Replied(500, "Internal Server Error");
      }
    }
    return Replied(200, "Received");
  }
}
