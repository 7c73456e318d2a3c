/**
 * The outgoing side of the standalone service (package `env`): the process-wide
 * outbound queue of capacity 1000, the sender debounce map and its sweep, and
 * the delivery of one email to at most three mail-exchange servers.
 */
module MailOutgoing {
  import opened Wrappers
  import opened Text
  import opened Mime
  import opened Mx

  /** Capacity of `emailQueue`. */
  const QueueCapacity: nat := 1000
  /** Servers tried per delivery: three sends of about ten seconds each. */
  const MaxCandidates: nat := 3
  /** DKIM selector used for every signature. */
  const Selector: string := "default"
  /** One hour in nanoseconds, the unit of the clock values here. */
  const Hour: int := 3600 * 1_000_000_000

  datatype Email = Email(
    toName: string, toAddress: string,
    fromName: string, fromAddress: string,
    subject: string, content: string, html: bool,
    attachments: seq<Attachment>)

  datatype SendError =
    | BuildingError(reason: string)
    | EncodingError(reason: string)
    | SigningError(reason: string)
      /** The message prints the nil URL that `url.Parse` returned, not the address. */
    | MalformedAddress
    | NoMxAvailable(host: string)
    | DnsLookupFailed(host: string)
    | CannotSend(errors: seq<string>)

  /** The foreign collaborators of one delivery; `urlHost` is `url.Parse(s)` followed by `Hostname()`. */
  datatype Network = Network(
    encode: Encoder, sign: Signer, urlHost: string -> Option<string>,
    lookupMX: string -> Lookup, sendMail: Sender)

  /**
   * The text `fmt.Errorf` produces for each error. A malformed address prints the
   * nil URL, and a lookup that found no records at all ends in an empty list.
   */
  function Message(e: SendError): (m: string)
    ensures e == MalformedAddress ==> m == "malformed email address <nil>"
    ensures e == CannotSend([]) ==> m == "cannot send email: "
  {
    match e
    case BuildingError(r) => "building error " + r
    case EncodingError(r) => "encoding error " + r
    case SigningError(r) => "signing error " + r
    case MalformedAddress => "malformed email address <nil>"
    case NoMxAvailable(h) => "no mx records available for " + h
    case DnsLookupFailed(h) => "dns lookup failed for " + h
    case CannotSend(errors) => "cannot send email: " + Join(errors, ", ")
  }

  /** With comma-free sender errors, the final error lists them separated by exactly |errors| - 1 commas. */
  lemma CannotSendLists(errors: seq<string>)
    requires |errors| > 0
    requires forall i :: 0 <= i < |errors| ==> ',' !in errors[i]
    ensures CountChar(Message(CannotSend(errors)), ',') == |errors| - 1
  {
    assert CountChar(", ", ',') == 1;
    JoinCount(errors, ", ", ',');
    CountCharAbsent("cannot send email: ", ',');
    CountCharAppend("cannot send email: ", Join(errors, ", "), ',');
  }

  // ---------------------------------------------------------------------------
  // Queue and debounce map

  /** A non-blocking send on a channel of capacity `QueueCapacity`: appended, or dropped when full. */
  function Enqueued(queue: seq<Email>, e: Email): (r: seq<Email>)
    ensures |queue| <= QueueCapacity ==> |r| <= QueueCapacity
    ensures r == queue + [e] || r == queue
    ensures r == queue <==> |queue| >= QueueCapacity
  {
    if |queue| < QueueCapacity then queue + [e] else queue
  }

  /** The entries of the debounce map the sweep keeps at time `now`. */
  function Unexpired(debounce: map<string, int>, now: int): (r: map<string, int>)
    ensures forall sender :: sender in r <==> sender in debounce && !(now > debounce[sender])
    ensures forall sender :: sender in r ==> r[sender] == debounce[sender]
  {
    map sender | sender in debounce && now <= debounce[sender] :: debounce[sender]
  }

  /** A sweep keeps everything a later sweep would keep. */
  lemma SweepMonotone(debounce: map<string, int>, now: int, later: int)
    requires now <= later
    ensures Unexpired(debounce, later).Keys <= Unexpired(debounce, now).Keys
    ensures Unexpired(Unexpired(debounce, now), later) == Unexpired(debounce, later)
  {
  }

  /** The package-level mutable state of `env`: `emailQueue` and `emailDebounce`. */
  class Globals {
    /** Emails waiting in `emailQueue`, oldest first. */
    var queued: seq<Email>
    /** Sender address to the time its auto-reply cooldown ends. */
    var debounce: map<string, int>

    ghost predicate Valid()
      reads this
    {
      |queued| <= QueueCapacity
    }

    constructor ()
      ensures Valid() && queued == [] && debounce == map[]
    {
      queued := [];
      debounce := map[];
    }

    /** Enqueue without blocking; when the queue is full the email is dropped (and logged). */
    method QueueEmail(e: Email)
      requires Valid()
      modifies this`queued
      ensures Valid()
      ensures queued == Enqueued(old(queued), e)
    {
      if |queued| < QueueCapacity {
        queued := queued + [e];
      }
    }

    /** The body of the timer goroutine: delete every entry whose expiry is before `now`. */
    method SweepDebounce(now: int)
      modifies this`debounce
      ensures debounce == Unexpired(old(debounce), now)
    {
      var pending := debounce.Keys;
      while pending != {}
        invariant pending <= old(debounce).Keys
        invariant forall sender :: sender in debounce <==>
                    sender in old(debounce) && (sender in pending || now <= old(debounce)[sender])
        invariant forall sender :: sender in debounce ==> debounce[sender] == old(debounce)[sender]
        decreases pending
      {
        var sender :| sender in pending;
        if now > debounce[sender] {
          debounce := debounce - {sender};
        }
        pending := pending - {sender};
      }
    }
  }

  // ---------------------------------------------------------------------------
  // SendEmail

  /** What the builder is given: sender, recipient, subject, body, and the attachments in order. */
  function EnvelopeOf(e: Email): (b: Builder)
    ensures b.fromName == e.fromName && b.fromAddress == e.fromAddress
    ensures b.toName == e.toName && b.toAddress == e.toAddress
    ensures b.subject == e.subject
    ensures b.body.Html? == e.html && Content(b.body) == e.content
    ensures |b.parts| == |e.attachments|
    ensures forall i :: 0 <= i < |b.parts| ==> Carries(b.parts[i], e.attachments[i])
  {
    Builder(e.fromName, e.fromAddress, e.toName, e.toAddress, e.subject, BodyOf(e.html, e.content),
            seq(|e.attachments|, i requires 0 <= i < |e.attachments| => PartOf(e.attachments[i])))
  }

  datatype Plan = Plan(body: seq<byte>, host: string, records: seq<MxRecord>)

  /** Build, encode, sign, find the host and look up its records, stopping at the first failure. */
  function PlanDelivery(e: Email, domain: string, net: Network): (r: Result<Plan, SendError>)
    ensures r.Success? <==>
              && net.encode(EnvelopeOf(e)).Encoded?
              && net.sign(net.encode(EnvelopeOf(e)).bytes, domain, Selector).Signed?
              && net.urlHost("email://" + e.toAddress).Some?
              && net.lookupMX(net.urlHost("email://" + e.toAddress).value).Found?
    ensures r.Success? ==>
              && r.value.body == net.sign(net.encode(EnvelopeOf(e)).bytes, domain, Selector).bytes
              && net.urlHost("email://" + e.toAddress) == Some(r.value.host)
              && net.lookupMX(r.value.host) == Found(r.value.records)
    ensures r.Failure? ==> !r.error.CannotSend?
    ensures r.Failure? && (r.error.NoMxAvailable? || r.error.DnsLookupFailed?) ==>
              net.urlHost("email://" + e.toAddress) == Some(r.error.host)
  {
    match net.encode(EnvelopeOf(e))
    case BuildError(r) => Failure(BuildingError(r))
    case EncodeError(r) => Failure(EncodingError(r))
    case Encoded(output) =>
      match net.sign(output, domain, Selector)
      case SignError(r) => Failure(SigningError(r))
      case Signed(envelope) =>
        match net.urlHost("email://" + e.toAddress)
        case None => Failure(MalformedAddress)
        case Some(host) =>
          match net.lookupMX(host)
          case NotFound => Failure(NoMxAvailable(host))
          case LookupFailed(_) => Failure(DnsLookupFailed(host))
          case Found(records) => Success(Plan(envelope, host, records))
  }

  /**
   * Building, encoding and signing are decided before the address is parsed or
   * the DNS consulted: a failure there is the same whatever those do.
   */
  lemma EnvelopeFailureSkipsLookup(e: Email, domain: string, net: Network, net': Network)
    requires net'.encode == net.encode && net'.sign == net.sign
    requires match net.encode(EnvelopeOf(e))
             case Encoded(output) => net.sign(output, domain, Selector).SignError?
             case _ => true
    ensures PlanDelivery(e, domain, net) == PlanDelivery(e, domain, net')
    ensures PlanDelivery(e, domain, net).Failure?
    ensures PlanDelivery(e, domain, net).error.BuildingError? || PlanDelivery(e, domain, net).error.EncodingError?
            || PlanDelivery(e, domain, net).error.SigningError?
  {
  }

  /** A not-found answer and any other lookup failure give different errors. */
  lemma LookupFailuresDistinct(e: Email, domain: string, net: Network, net': Network, reason: string)
    requires net'.encode == net.encode && net'.sign == net.sign && net'.urlHost == net.urlHost
    requires PlanDelivery(e, domain, net).Failure? && PlanDelivery(e, domain, net).error.NoMxAvailable?
    requires forall h :: net'.lookupMX(h) == LookupFailed(reason)
    ensures PlanDelivery(e, domain, net').Failure? && PlanDelivery(e, domain, net').error.DnsLookupFailed?
    ensures PlanDelivery(e, domain, net').error.host == PlanDelivery(e, domain, net).error.host
  {
  }

  /**
   * The report of trying each candidate once, in order: the sends made; success
   * exactly when some candidate accepts, stopping at the first; otherwise one
   * sender error per candidate, in order.
   */
  ghost predicate TriedInOrder(candidates: seq<MxRecord>, from: string, to: string, body: seq<byte>,
                               send: Sender, err: Option<SendError>, handoffs: seq<Handoff>)
  {
    && |handoffs| <= |candidates|
    && (forall i :: 0 <= i < |handoffs| ==> handoffs[i] == Handoff(ServerOf(candidates[i]), from, [to], body))
    && (err.None? <==>
          exists k :: 0 <= k < |candidates| && send(k, Handoff(ServerOf(candidates[k]), from, [to], body)).None?)
    && (err.None? ==>
          && |handoffs| > 0
          && send(|handoffs| - 1, handoffs[|handoffs| - 1]).None?
          && forall j :: 0 <= j < |handoffs| - 1 ==> send(j, handoffs[j]).Some?)
    && (err.Some? ==>
          && |handoffs| == |candidates|
          && err.value.CannotSend?
          && |err.value.errors| == |candidates|
          && forall i :: 0 <= i < |candidates| ==> send(i, handoffs[i]) == Some(err.value.errors[i]))
  }

  /** The loop over the kept records, collecting the error of each failed send. */
  method TryCandidates(candidates: seq<MxRecord>, from: string, to: string, body: seq<byte>, send: Sender)
    returns (err: Option<SendError>, handoffs: seq<Handoff>)
    ensures TriedInOrder(candidates, from, to, body, send, err, handoffs)
  {
    var sendError: seq<string> := [];
    handoffs := [];
    var i := 0;
    while i < |candidates|
      invariant 0 <= i <= |candidates|
      invariant |handoffs| == i && |sendError| == i
      invariant forall k :: 0 <= k < i ==> handoffs[k] == Handoff(ServerOf(candidates[k]), from, [to], body)
      invariant forall k :: 0 <= k < i ==> send(k, handoffs[k]) == Some(sendError[k])
    {
      var mx := candidates[i];
      var h := Handoff(mx.host + ":25", from, [to], body);
      handoffs := handoffs + [h];
      var sent := send(i, h);
      if sent.None? {
        assert send(i, Handoff(ServerOf(candidates[i]), from, [to], body)).None?;
        return None, handoffs;
      }
      sendError := sendError + [sent.value];
      i := i + 1;
    }
    err := Some(CannotSend(sendError));
  }

  /**
   * Sends an email now: the signed envelope goes to the kept candidates (the
   * three most preferred records at most), each tried once, in order.
   */
  method SendEmail(e: Email, domain: string, net: Network)
    returns (err: Option<SendError>, handoffs: seq<Handoff>, candidates: seq<MxRecord>)
    ensures match PlanDelivery(e, domain, net)
            case Failure(f) => err == Some(f) && handoffs == []
            case Success(plan) =>
              && MostPreferred(candidates, plan.records, MaxCandidates)
              && TriedInOrder(candidates, e.fromAddress, e.toAddress, plan.body, net.sendMail, err, handoffs)
  {
    handoffs, candidates := [], [];
    var parts := AddParts(e.attachments);
    var builder := Builder(e.fromName, e.fromAddress, e.toName, e.toAddress, e.subject,
                           BodyOf(e.html, e.content), parts);
    assert builder == EnvelopeOf(e);
    var output: seq<byte>;
    match net.encode(builder) {
      case BuildError(r) => return Some(BuildingError(r)), handoffs, candidates;
      case EncodeError(r) => return Some(EncodingError(r)), handoffs, candidates;
      case Encoded(bytes) => output := bytes;
    }
    var envelope: seq<byte>;
    match net.sign(output, domain, Selector) {
      case SignError(r) => return Some(SigningError(r)), handoffs, candidates;
      case Signed(bytes) => envelope := bytes;
    }
    var host: string;
    match net.urlHost("email://" + e.toAddress) {
      case None => return Some(MalformedAddress), handoffs, candidates;
      case Some(h) => host := h;
    }
    var mxRecords: seq<MxRecord>;
    match net.lookupMX(host) {
      case NotFound => return Some(NoMxAvailable(host)), handoffs, candidates;
      case LookupFailed(_) => return Some(DnsLookupFailed(host)), handoffs, candidates;
      case Found(rs) => mxRecords := rs;
    }
    var sorted := SortByPref(mxRecords);
    candidates := KeepFirst(sorted, MaxCandidates);
    KeepFirstMostPreferred(sorted, mxRecords, MaxCandidates);
    err, handoffs := TryCandidates(candidates, e.fromAddress, e.toAddress, envelope, net.sendMail);
  }
}
