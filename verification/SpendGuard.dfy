/** The guard in front of the provider: which requests it refuses, how it rewrites the one it forwards, and what it
    counts. Reading a body takes several turns of the event loop, so other requests may be handled between a request's
    opening checks and its delivery; everything from there up to the marker file is one turn. */
module SpendGuard {
  import opened Outcomes

  const MODEL := "claude-sonnet-5"
  const MAX_BYTES := 256 * 1024
  const MAX_TOKENS := 512

  datatype Tools = Absent | NoTools | SomeTools

  /** Empty text stands for a field that is missing, null or empty; `maxTokens` is `None` unless it is a safe integer and
      `messages` unless it is a list; `other` is the rest of the body. */
  datatype Body = Body(
    model: string, tools: Tools, mcpServers: bool, container: bool, toolChoice: Option<string>, messages: Option<nat>,
    serviceTier: string, speed: string, maxTokens: Option<int>, other: string)

  datatype Parsed = NotJson | Null | Parsed(body: Body)

  datatype Opening = Opening(rightRoute: bool, rightCredential: bool)

  /** The ledger as it reads at delivery: invalid, without this open reservation, or with it. */
  datatype LedgerView = Invalid | Revoked | Open

  /** A request's chunks, what they parse to, and the ledger and the marker's fate once they are read. */
  datatype Delivery = Delivery(chunks: seq<nat>, content: Parsed, ledger: LedgerView, markerFree: bool)

  datatype Reason =
    | RouteDenied | AuthDenied | RequestLimit | TooLarge | InvalidJson | ModelDenied | ToolsDenied | MessagesRequired
    | ServiceTierDenied | SpeedDenied | OutputLimitRequired | CredentialInBody | MemoryMismatch | ReservationRevoked | AlreadyUsed

  /** `Broken` is an error answered without counting it as a refusal. */
  datatype Verdict = Refused(reason: Reason) | Broken | Forwarded(body: Body)

  /** How bodies are written out, and what the memory proof asks of them. */
  datatype Setup = Setup(write: Body -> string, bytes: string -> nat, holdsCredential: string -> bool, deliversMemory: string -> bool)

  // ---- what a request's content comes to ----

  function Total(chunks: seq<nat>): nat {
    if chunks == [] then 0 else Total(chunks[..|chunks| - 1]) + chunks[|chunks| - 1]
  }

  function Objection(b: Body): Option<Reason> {
    if b.model != MODEL then Some(ModelDenied)
    else if b.tools == SomeTools || b.mcpServers || b.container || (b.toolChoice.Some? && b.toolChoice.value != "none") then Some(ToolsDenied)
    else if b.messages.None? || b.messages.value == 0 then Some(MessagesRequired)
    else if b.serviceTier != "" && b.serviceTier != "standard_only" && b.serviceTier != "auto" then Some(ServiceTierDenied)
    else if b.speed != "" && b.speed != "standard" then Some(SpeedDenied)
    else if b.maxTokens.None? || b.maxTokens.value < 1 then Some(OutputLimitRequired)
    else None
  }

  function Clamped(b: Body): Body
    requires b.maxTokens.Some?
  {
    b.(maxTokens := Some(if b.maxTokens.value < MAX_TOKENS then b.maxTokens.value else MAX_TOKENS), serviceTier := "standard_only")
  }

  function TextObjection(s: Setup, text: string): Option<Reason> {
    if s.holdsCredential(text) then Some(CredentialInBody)
    else if s.bytes(text) > MAX_BYTES then Some(TooLarge)
    else if !s.deliversMemory(text) then Some(MemoryMismatch)
    else None
  }

  function Judge(s: Setup, d: Delivery, marker: bool): Verdict {
    if Total(d.chunks) > MAX_BYTES then Refused(TooLarge)
    else
      match d.content
      case NotJson => Refused(InvalidJson)
      case Null => Broken
      case Parsed(body) =>
        if Objection(body).Some? then Refused(Objection(body).value)
        else
          var text := s.write(Clamped(body));
          if TextObjection(s, text).Some? then Refused(TextObjection(s, text).value)
          else if d.ledger.Invalid? then Broken
          else if d.ledger.Revoked? then Refused(ReservationRevoked)
          else if marker || !d.markerFree then Refused(AlreadyUsed)
          else Forwarded(Clamped(body))
  }

  /** The guard's counters, the marker file, and the bodies that left for the provider. */
  datatype Counts = Counts(forwarded: nat, refused: map<Reason, nat>, marker: bool, sent: seq<Body>)

  function Count(refused: map<Reason, nat>, reason: Reason): map<Reason, nat> {
    refused[reason := 1 + if reason in refused then refused[reason] else 0]
  }

  function OpeningObjection(c: Counts, o: Opening): Option<Reason> {
    if !o.rightRoute then Some(RouteDenied)
    else if !o.rightCredential then Some(AuthDenied)
    else if c.forwarded > 0 || c.marker then Some(RequestLimit)
    else None
  }

  function Opened(c: Counts, o: Opening): Counts {
    match OpeningObjection(c, o)
    case None => c
    case Some(reason) => c.(refused := Count(c.refused, reason))
  }

  function Delivered(c: Counts, s: Setup, d: Delivery): Counts {
    match Judge(s, d, c.marker)
    case Refused(reason) => c.(refused := Count(c.refused, reason))
    case Broken => c
    case Forwarded(body) => Counts(c.forwarded + 1, c.refused, true, c.sent + [body])
  }

  /** A parsed request body, which the guard rewrites in place. */
  class Message {
    var maxTokens: Option<int>
    var serviceTier: string
    /** The fields the guard only reads; its own limits and tier are the two above. */
    const fields: Body

    constructor (body: Body)
      ensures Value() == body
    {
      maxTokens, serviceTier, fields := body.maxTokens, body.serviceTier, body;
    }

    function Value(): Body
      reads this
    {
      fields.(maxTokens := maxTokens, serviceTier := serviceTier)
    }

    method Clamp()
      requires maxTokens.Some?
      modifies this
      ensures Value() == Clamped(old(Value()))
    {
      if maxTokens.value > MAX_TOKENS { maxTokens := Some(MAX_TOKENS); }
      serviceTier := "standard_only";
    }
  }

  class Guard {
    const setup: Setup
    var forwarded: nat
    var refused: map<Reason, nat>
    var marker: bool
    var sent: seq<Body>

    constructor (setup: Setup, marker: bool)
      ensures this.setup == setup && Now() == Counts(0, map[], marker, [])
    {
      this.setup, forwarded, refused, this.marker, sent := setup, 0, map[], marker, [];
    }

    function Now(): Counts
      reads this
    {
      Counts(forwarded, refused, marker, sent)
    }

    method Reject(reason: Reason)
      modifies this`refused
      ensures refused == Count(old(refused), reason)
    {
      refused := refused[reason := 1 + if reason in refused then refused[reason] else 0];
    }

    /** The checks before the body is read. */
    method Open(o: Opening) returns (admitted: bool)
      modifies this
      ensures Now() == Opened(old(Now()), o) && (admitted <==> OpeningObjection(old(Now()), o).None?)
    {
      admitted := false;
      if !o.rightRoute { Reject(RouteDenied); return; }
      if !o.rightCredential { Reject(AuthDenied); return; }
      if forwarded > 0 || marker { Reject(RequestLimit); return; }
      admitted := true;
    }

    /** Reading stops at the first chunk that goes over the limit, which happens exactly when the whole body would. */
    static method ReadBody(chunks: seq<nat>) returns (tooLarge: bool)
      ensures tooLarge <==> Total(chunks) > MAX_BYTES
    {
      var length := 0;
      for i := 0 to |chunks|
        invariant length == Total(chunks[..i]) <= MAX_BYTES
      {
        assert chunks[..i + 1][..i] == chunks[..i];
        length := length + chunks[i];
        if length > MAX_BYTES {
          TotalGrows(chunks, i + 1);
          return true;
        }
      }
      assert chunks[..|chunks|] == chunks;
      tooLarge := false;
    }

    /** A request whose body has arrived: refused, failed, or forwarded behind a marker created for it. */
    method Deliver(d: Delivery) returns (verdict: Verdict)
      modifies this
      ensures verdict == Judge(setup, d, old(marker)) && Now() == Delivered(old(Now()), setup, d)
    {
      var tooLarge := ReadBody(d.chunks);
      if tooLarge { Reject(TooLarge); return Refused(TooLarge); }
      if d.content.NotJson? { Reject(InvalidJson); return Refused(InvalidJson); }
      if d.content.Null? { return Broken; }
      var objection := Objection(d.content.body);
      if objection.Some? { Reject(objection.value); return Refused(objection.value); }
      var message := new Message(d.content.body);
      message.Clamp();
      var text := setup.write(message.Value());
      objection := TextObjection(setup, text);
      if objection.Some? { Reject(objection.value); return Refused(objection.value); }
      if d.ledger.Invalid? { return Broken; }
      if d.ledger.Revoked? { Reject(ReservationRevoked); return Refused(ReservationRevoked); }
      if marker || !d.markerFree { Reject(AlreadyUsed); return Refused(AlreadyUsed); }
      marker := true;
      forwarded := forwarded + 1;
      sent := sent + [message.Value()];
      verdict := Forwarded(message.Value());
    }
  }

  lemma {:induction false} TotalGrows(chunks: seq<nat>, n: nat)
    requires n <= |chunks|
    ensures Total(chunks[..n]) <= Total(chunks)
  {
    if n < |chunks| {
      var front := chunks[..|chunks| - 1];
      assert front[..n] == chunks[..n];
      TotalGrows(front, n);
    } else {
      assert chunks[..n] == chunks;
    }
  }

  // ---- any interleaving of requests ----

  /** A request is opened, an opened one is delivered later or dropped, and another process may create the marker. */
  datatype Event = Opens(opening: Opening) | Delivers(delivery: Delivery) | MarkedElsewhere

  function Happens(c: Counts, s: Setup, e: Event): Counts {
    match e
    case Opens(o) => Opened(c, o)
    case Delivers(d) => Delivered(c, s, d)
    case MarkedElsewhere => c.(marker := true)
  }

  function Run(s: Setup, events: seq<Event>): Counts {
    if events == [] then Counts(0, map[], false, []) else Happens(Run(s, events[..|events| - 1]), s, events[|events| - 1])
  }

  /** What the provider may be sent: one turn of the pinned model, without tools, at the standard tier and within the
      output limit the reservation was priced at. */
  predicate WithinReservation(b: Body) {
    && b.model == MODEL && b.tools != SomeTools && !b.mcpServers && !b.container && (b.toolChoice.Some? ==> b.toolChoice.value == "none")
    && b.messages.Some? && b.messages.value > 0 && b.serviceTier == "standard_only" && (b.speed == "" || b.speed == "standard")
    && b.maxTokens.Some? && 1 <= b.maxTokens.value <= MAX_TOKENS
  }

  predicate Acceptable(s: Setup, b: Body) {
    WithinReservation(b) && s.bytes(s.write(b)) <= MAX_BYTES && !s.holdsCredential(s.write(b)) && s.deliversMemory(s.write(b))
  }

  /** However requests interleave, one at most is sent, and only one that the reservation covers. */
  lemma {:induction false} OneAcceptableRequest(s: Setup, events: seq<Event>)
    ensures var c := Run(s, events);
            && |c.sent| == c.forwarded <= 1 && (c.forwarded == 1 ==> c.marker)
            && forall b :: b in c.sent ==> Acceptable(s, b)
  {
    if events != [] {
      var before, e := Run(s, events[..|events| - 1]), events[|events| - 1];
      OneAcceptableRequest(s, events[..|events| - 1]);
      if e.Delivers? { ForwardedIsAcceptable(s, e.delivery, before.marker); }
      hide Judge, Acceptable;
    }
  }

  lemma ForwardedIsAcceptable(s: Setup, d: Delivery, marker: bool)
    ensures Judge(s, d, marker).Forwarded? ==> !marker && Acceptable(s, Judge(s, d, marker).body)
  {
  }

  function Refusals(refused: map<Reason, nat>, reasons: seq<Reason>): nat {
    if reasons == [] then 0
    else (if reasons[0] in refused then refused[reasons[0]] else 0) + Refusals(refused, reasons[1..])
  }

  const REASONS := [
    RouteDenied, AuthDenied, RequestLimit, TooLarge, InvalidJson, ModelDenied, ToolsDenied, MessagesRequired,
    ServiceTierDenied, SpeedDenied, OutputLimitRequired, CredentialInBody, MemoryMismatch, ReservationRevoked, AlreadyUsed]

  predicate Distinct(reasons: seq<Reason>) {
    forall i, j :: 0 <= i < j < |reasons| ==> reasons[i] != reasons[j]
  }

  lemma {:induction false} CountsOnce(refused: map<Reason, nat>, reason: Reason, reasons: seq<Reason>)
    requires Distinct(reasons)
    ensures Refusals(Count(refused, reason), reasons) == Refusals(refused, reasons) + if reason in reasons then 1 else 0
  {
    if reasons != [] { CountsOnce(refused, reason, reasons[1..]); }
  }

  function Place(reason: Reason): nat {
    match reason
    case RouteDenied => 0
    case AuthDenied => 1
    case RequestLimit => 2
    case TooLarge => 3
    case InvalidJson => 4
    case ModelDenied => 5
    case ToolsDenied => 6
    case MessagesRequired => 7
    case ServiceTierDenied => 8
    case SpeedDenied => 9
    case OutputLimitRequired => 10
    case CredentialInBody => 11
    case MemoryMismatch => 12
    case ReservationRevoked => 13
    case AlreadyUsed => 14
  }

  lemma PlaceIsRight(i: nat)
    requires i < |REASONS|
    ensures Place(REASONS[i]) == i
  {
  }

  lemma EveryReasonIsListed(reason: Reason)
    ensures reason in REASONS && Distinct(REASONS)
  {
    assert |REASONS| == 15 && REASONS[Place(reason)] == reason;
    hide REASONS, Place;
    forall i, j | 0 <= i < j < |REASONS| ensures REASONS[i] != REASONS[j] {
      PlaceIsRight(i);
      PlaceIsRight(j);
    }
  }

  /** How many of the events ended a request. */
  function Ends(s: Setup, events: seq<Event>): nat {
    if events == [] then 0
    else
      var front, e := events[..|events| - 1], events[|events| - 1];
      Ends(s, front) +
      match e
      case Opens(o) => if OpeningObjection(Run(s, front), o).Some? then 1 else 0
      case Delivers(d) => if Judge(s, d, Run(s, front).marker).Broken? then 0 else 1
      case MarkedElsewhere => 0
  }

  /** Every request that ends without an error is counted once: under its one refusal, or as forwarded. */
  lemma {:induction false} EveryRequestIsCounted(s: Setup, events: seq<Event>)
    ensures Refusals(Run(s, events).refused, REASONS) + Run(s, events).forwarded == Ends(s, events)
  {
    hide Judge, OpeningObjection, REASONS;
    if events == [] {
      NothingRefused(REASONS);
    } else {
      var front, e := events[..|events| - 1], events[|events| - 1];
      EveryRequestIsCounted(s, front);
      forall reason ensures Refusals(Count(Run(s, front).refused, reason), REASONS) == Refusals(Run(s, front).refused, REASONS) + 1 {
        EveryReasonIsListed(reason);
        CountsOnce(Run(s, front).refused, reason, REASONS);
      }
    }
  }

  lemma {:induction false} NothingRefused(reasons: seq<Reason>)
    ensures Refusals(map[], reasons) == 0
  {
    if reasons != [] { NothingRefused(reasons[1..]); }
  }
}
