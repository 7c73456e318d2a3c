/**
 * The outgoing half of the library engine (package `email`): the middleware list,
 * the bounded outbound queue and the delivery of one email to its recipient's
 * mail-exchange servers with a fixed attempt budget.
 */
module EngineOutgoing {
  import opened Wrappers
  import opened Text
  import opened Mime
  import opened Mx

  datatype Address = Address(name: string, address: string)

  datatype Email = Email(
    from: Address, to: seq<Address>,
    subject: string, content: string, html: bool,
    attachments: seq<Attachment>)

  /**
   * What a middleware returns: whether to proceed, its error (nil or a message),
   * and the email as the middleware left it (it receives a pointer and may change it).
   */
  datatype Verdict = Verdict(proceed: bool, err: Option<string>, email: Email)

  type Middleware = Email -> Verdict

  datatype Chained = Proceed(email: Email) | Cancelled(err: Option<string>)

  /** One failed handoff: attempt number (from 1), attempt budget, and the sender's error. */
  datatype AttemptError = AttemptError(attempt: nat, total: nat, cause: string)

  datatype SendError =
    | NoRecipients
    | CancelledByMiddleware(err: Option<string>)
    | BuildFailed(reason: string)
    | EncodeFailed(reason: string)
    | SignFailed(reason: string)
    | InvalidAddress(address: string)
    | NoMxRecords(host: string)
    | MxUnresolvable(host: string, reason: string)
      /** `records[i % len(records)]` with no records: a Go runtime panic, not an error value. */
    | DivideByZeroPanic
    | DeliveryFailed(attempts: seq<AttemptError>)

  /** The foreign collaborators of one delivery. */
  datatype Network = Network(encode: Encoder, sign: Signer, lookupMX: string -> Lookup, sendMail: Sender)

  const Second: int := 1_000_000_000
  const TenSeconds: int := 10 * Second
  /** Defaults of `New`. */
  const DefaultQueueCapacity: nat := 1024
  const DefaultTimeout: int := 30 * Second
  const DefaultSelector: string := "default"

  // ---------------------------------------------------------------------------
  // Error text

  function ErrText(err: Option<string>): string
  {
    match err
    case None => "%!s(<nil>)"
    case Some(m) => m
  }

  function AttemptLine(a: AttemptError): string
  {
    "attempt " + Decimal(a.attempt) + "/" + Decimal(a.total) + " failed: " + a.cause
  }

  /**
   * The attempt number can be read back from its line: after "attempt " come its
   * decimal digits, which parse to the number, and then the "/" before the budget.
   */
  lemma AttemptLineNumber(a: AttemptError)
    ensures var k := Decimal(a.attempt);
            var line := AttemptLine(a);
            && |line| > 8 + |k|
            && line[..8] == "attempt "
            && ParseDecimal(line[8..8 + |k|]) == a.attempt
            && line[8 + |k|] == '/'
  {
    var k := Decimal(a.attempt);
    var line := AttemptLine(a);
    DecimalRoundTrip(a.attempt);
    assert line == "attempt " + k + ("/" + Decimal(a.total) + " failed: " + a.cause);
    assert line[8..8 + |k|] == k;
  }

  function AttemptLines(attempts: seq<AttemptError>): (lines: seq<string>)
    ensures |lines| == |attempts|
    ensures forall i :: 0 <= i < |lines| ==> lines[i] == AttemptLine(attempts[i])
  {
    if |attempts| == 0 then [] else [AttemptLine(attempts[0])] + AttemptLines(attempts[1..])
  }

  /** The text `fmt.Errorf` produces for each error; a nil veto error prints as `%!s(<nil>)`. */
  function Message(e: SendError): (m: string)
    ensures e == CancelledByMiddleware(None) ==> m == "cancelled by middleware: %!s(<nil>)"
    ensures e.DeliveryFailed? && |e.attempts| == 1 ==> m == "email delivery failed: " + AttemptLine(e.attempts[0])
  {
    match e
    case NoRecipients => "no recipients"
    case CancelledByMiddleware(err) => "cancelled by middleware: " + ErrText(err)
    case BuildFailed(r) => "unable to build envelope: " + r
    case EncodeFailed(r) => "unable to encode envelope: " + r
    case SignFailed(r) => "unable to sign envelope: " + r
    case InvalidAddress(a) => "invalid email address: " + a
    case NoMxRecords(h) => "no mx records present for " + h
    case MxUnresolvable(h, r) => "mx records unresolvable for " + h + ": " + r
    case DivideByZeroPanic => "runtime error: integer divide by zero"
    case DeliveryFailed(attempts) => "email delivery failed: " + Join(AttemptLines(attempts), "\n")
  }

  /**
   * When no sender error spans several lines, the aggregated failure holds
   * exactly one line per attempt.
   */
  lemma DeliveryFailedLines(attempts: seq<AttemptError>)
    requires |attempts| > 0
    requires forall i :: 0 <= i < |attempts| ==> '\n' !in attempts[i].cause
    ensures CountChar(Message(DeliveryFailed(attempts)), '\n') == |attempts| - 1
  {
    var lines := AttemptLines(attempts);
    forall i | 0 <= i < |lines|
      ensures '\n' !in lines[i]
    {
      var a := attempts[i];
      var k, n := Decimal(a.attempt), Decimal(a.total);
      assert lines[i] == "attempt " + k + "/" + n + " failed: " + a.cause;
      assert forall j :: 0 <= j < |k| ==> IsDigit(k[j]);
      assert forall j :: 0 <= j < |n| ==> IsDigit(n[j]);
    }
    assert CountChar("\n", '\n') == 1;
    JoinCount(lines, "\n", '\n');
    CountCharAbsent("email delivery failed: ", '\n');
    CountCharAppend("email delivery failed: ", Join(lines, "\n"), '\n');
  }

  // ---------------------------------------------------------------------------
  // extractHostFromAddress

  /** Index of the first `@` in `s`, or `|s|` when there is none. */
  function FirstAt(s: string): (i: nat)
    ensures i <= |s|
    ensures '@' !in s[..i]
    ensures i < |s| ==> s[i] == '@'
  {
    if |s| == 0 then 0
    else if s[0] == '@' then 0
    else
      assert s[..1 + FirstAt(s[1..])] == [s[0]] + s[1..][..FirstAt(s[1..])];
      1 + FirstAt(s[1..])
  }

  /**
   * `strings.SplitN(address, "@", 2)`: the host is everything after the first `@`;
   * a missing `@` or an empty remainder is an invalid address.
   */
  function ExtractHostFromAddress(address: string): (r: Result<string, SendError>)
    ensures r.Failure? ==> r.error == InvalidAddress(address)
    ensures r.Failure? <==>
              ('@' !in address || (address[|address| - 1] == '@' && '@' !in address[..|address| - 1]))
    ensures r.Success? ==>
              var k := |address| - |r.value|;
              && |r.value| > 0 && k > 0
              && address[k - 1] == '@' && '@' !in address[..k - 1]
              && r.value == address[k..]
  {
    var i := FirstAt(address);
    if i + 1 >= |address| then
      assert i == |address| ==> address[..i] == address;
      assert i + 1 == |address| ==> address[..|address| - 1] == address[..i];
      Failure(InvalidAddress(address))
    else
      assert '@' in address[..|address| - 1] by { assert address[..|address| - 1][i] == '@'; }
      Success(address[i + 1..])
  }

  /** The host comes back out of any address built from an `@`-free local part and a host. */
  lemma ExtractHostRoundTrip(local: string, host: string)
    requires '@' !in local && host != ""
    ensures ExtractHostFromAddress(local + "@" + host) == Success(host)
  {
    var address := local + "@" + host;
    assert address[..|local|] == local;
    assert address[|local|] == '@';
    assert address[..|address| - 1][|local|] == '@';
  }

  /** Only the first `@` separates: "a@b@c" has host "b@c". */
  lemma ExtractHostSplitsAtFirstAt()
    ensures ExtractHostFromAddress("a@b@c") == Success("b@c")
  {
    ExtractHostRoundTrip("a", "b@c");
  }

  // ---------------------------------------------------------------------------
  // Middleware

  /** One middleware applied to the email the previous ones left. */
  function Step(mw: Middleware, email: Email): Chained
  {
    var v := mw(email);
    if v.proceed then Proceed(v.email) else Cancelled(v.err)
  }

  /**
   * The middleware chain in registration order: the first veto cancels with its
   * error; an error returned together with `proceed` is ignored.
   */
  function Chain(mws: seq<Middleware>, email: Email): (r: Chained)
    ensures (forall m :: m in mws ==> forall e :: m(e).proceed && m(e).email == e) ==> r == Proceed(email)
    ensures r.Cancelled? ==> exists m, e :: m in mws && !m(e).proceed && m(e).err == r.err
  {
    if |mws| == 0 then Proceed(email)
    else
      var v := mws[0](email);
      assert mws[0] in mws && forall m :: m in mws[1..] ==> m in mws;
      if !v.proceed then Cancelled(v.err) else Chain(mws[1..], v.email)
  }

  /** A middleware registered last runs after all earlier ones, on the email they produced. */
  lemma {:induction false} ChainAppend(mws: seq<Middleware>, mw: Middleware, email: Email)
    ensures Chain(mws + [mw], email) ==
              match Chain(mws, email)
              case Cancelled(err) => Cancelled(err)
              case Proceed(e) => Step(mw, e)
  {
    if |mws| > 0 {
      assert (mws + [mw])[1..] == mws[1..] + [mw];
      var v := mws[0](email);
      if v.proceed {
        ChainAppend(mws[1..], mw, v.email);
      }
    }
  }

  /** Once the chain is cancelled, no later middleware can change the outcome. */
  lemma {:induction false} FirstVetoWins(mws: seq<Middleware>, later: seq<Middleware>, email: Email)
    requires Chain(mws, email).Cancelled?
    ensures Chain(mws + later, email) == Chain(mws, email)
  {
    assert |mws| > 0;
    assert (mws + later)[1..] == mws[1..] + later;
    var v := mws[0](email);
    if v.proceed {
      FirstVetoWins(mws[1..], later, v.email);
    }
  }

  /** The loop over the registered middleware. */
  method RunMiddleware(mws: seq<Middleware>, email: Email) returns (r: Chained)
    ensures r == Chain(mws, email)
  {
    var current := email;
    var i := 0;
    while i < |mws|
      invariant 0 <= i <= |mws|
      invariant Chain(mws, email) == Chain(mws[i..], current)
    {
      assert mws[i..][1..] == mws[i + 1..];
      var v := mws[i](current);
      if !v.proceed {
        return Cancelled(v.err);
      }
      current := v.email;
      i := i + 1;
    }
    return Proceed(current);
  }

  // ---------------------------------------------------------------------------
  // Envelope, signature, candidate lookup

  /**
   * What the builder is given for one addressee. The sender is passed to
   * enmime's `From(name, addr)` as `From(email.From.Address, email.From.Name)`,
   * so its name and address change places.
   */
  function EnvelopeFor(email: Email, addressee: Address): (b: Builder)
    ensures b.fromName == email.from.address && b.fromAddress == email.from.name
    ensures b.toName == addressee.name && b.toAddress == addressee.address
    ensures b.subject == email.subject
    ensures b.body.Html? == email.html && Content(b.body) == email.content
    ensures |b.parts| == |email.attachments|
    ensures forall i :: 0 <= i < |b.parts| ==> Carries(b.parts[i], email.attachments[i])
  {
    Builder(email.from.address, email.from.name, addressee.name, addressee.address,
            email.subject, BodyOf(email.html, email.content),
            seq(|email.attachments|, i requires 0 <= i < |email.attachments| => PartOf(email.attachments[i])))
  }

  method BuildEnvelope(email: Email, addressee: Address) returns (b: Builder)
    ensures b == EnvelopeFor(email, addressee)
  {
    var parts := AddParts(email.attachments);
    b := Builder(email.from.address, email.from.name, addressee.name, addressee.address,
                 email.subject, BodyOf(email.html, email.content), parts);
  }

  /**
   * DKIM signing when enabled, with the encoded envelope as the signer's input and
   * its output as the body sent; otherwise the envelope goes out unchanged. This is
   * the corrected step (see `SignStageAsWritten` for the step as written).
   */
  function SignStage(enabled: bool, sign: Signer, domain: string, selector: string, envelope: seq<byte>)
    : (r: Result<seq<byte>, SendError>)
    ensures !enabled ==> r == Success(envelope)
    ensures enabled ==> (r.Success? <==> sign(envelope, domain, selector).Signed?)
    ensures enabled && r.Success? ==> r.value == sign(envelope, domain, selector).bytes
    ensures r.Failure? ==> r.error == SignFailed(sign(envelope, domain, selector).reason)
  {
    if !enabled then Success(envelope)
    else
      match sign(envelope, domain, selector)
      case Signed(bytes) => Success(bytes)
      case SignError(reason) => Failure(SignFailed(reason))
  }

  /**
   * The signing step as the engine writes it: the signer's writer is the envelope
   * buffer and its reader the still-empty output buffer, so when enabled the signer
   * is given no bytes, and the buffer that would be sent stays empty.
   */
  function SignStageAsWritten(enabled: bool, sign: Signer, domain: string, selector: string, envelope: seq<byte>)
    : (r: Result<seq<byte>, SendError>)
    ensures !enabled ==> r == Success(envelope)
    ensures enabled ==> (r.Success? <==> sign([], domain, selector).Signed?)
    ensures enabled && r.Success? ==> r.value == []
  {
    if !enabled then Success(envelope)
    else
      match sign([], domain, selector)
      case Signed(_) => Success([])
      case SignError(reason) => Failure(SignFailed(reason))
  }

  /**
   * DKIM signing reads a header section from its input, and an empty input has
   * none: with signing enabled, the as-written step fails with that signing error
   * whatever the envelope was, so no DKIM-enabled delivery ever reaches the network,
   * while the corrected step signs the envelope itself.
   */
  lemma SigningEmptyInputFails(sign: Signer, domain: string, selector: string, envelope: seq<byte>)
    requires sign([], domain, selector).SignError?
    ensures SignStageAsWritten(true, sign, domain, selector, envelope)
            == Failure(SignFailed(sign([], domain, selector).reason))
    ensures sign(envelope, domain, selector).Signed? ==> SignStage(true, sign, domain, selector, envelope).Success?
  {
  }

  /**
   * For a hypothetical signer that accepts an empty input (go-msgauth's does not;
   * see `SigningEmptyInputFails`), the as-written step would hand an empty body to
   * the network whatever the envelope was, while the corrected step hands over the
   * signer's output on the envelope itself.
   */
  lemma SignedEnvelopeIsLost(sign: Signer, domain: string, selector: string, envelope: seq<byte>)
    requires |envelope| > 0
    requires sign([], domain, selector).Signed? && sign(envelope, domain, selector).Signed?
    ensures SignStageAsWritten(true, sign, domain, selector, envelope) == Success([])
    ensures SignStageAsWritten(true, sign, domain, selector, envelope)
            != SignStageAsWritten(false, sign, domain, selector, envelope)
    ensures SignStage(true, sign, domain, selector, envelope) == Success(sign(envelope, domain, selector).bytes)
  {
  }

  /** What delivery to one addressee has ready before its first send. */
  datatype Plan = Plan(body: seq<byte>, host: string, records: seq<MxRecord>)

  /** Build, encode, sign, find the host and look up its records, stopping at the first failure. */
  function PlanDelivery(email: Email, addressee: Address, dkimEnabled: bool, domain: string,
                        selector: string, net: Network): (r: Result<Plan, SendError>)
    ensures r.Success? <==>
              && net.encode(EnvelopeFor(email, addressee)).Encoded?
              && SignStage(dkimEnabled, net.sign, domain, selector,
                           net.encode(EnvelopeFor(email, addressee)).bytes).Success?
              && ExtractHostFromAddress(addressee.address).Success?
              && net.lookupMX(ExtractHostFromAddress(addressee.address).value).Found?
    ensures r.Success? ==>
              && r.value.body == SignStage(dkimEnabled, net.sign, domain, selector,
                                           net.encode(EnvelopeFor(email, addressee)).bytes).value
              && r.value.host == ExtractHostFromAddress(addressee.address).value
              && net.lookupMX(r.value.host) == Found(r.value.records)
    ensures r.Failure? ==>
              || r.error.BuildFailed? || r.error.EncodeFailed? || r.error.SignFailed?
              || r.error == InvalidAddress(addressee.address)
              || r.error.NoMxRecords? || r.error.MxUnresolvable?
  {
    match net.encode(EnvelopeFor(email, addressee))
    case BuildError(r) => Failure(BuildFailed(r))
    case EncodeError(r) => Failure(EncodeFailed(r))
    case Encoded(envelope) =>
      match SignStage(dkimEnabled, net.sign, domain, selector, envelope)
      case Failure(f) => Failure(f)
      case Success(body) =>
        match ExtractHostFromAddress(addressee.address)
        case Failure(f) => Failure(f)
        case Success(host) =>
          match net.lookupMX(host)
          case NotFound => Failure(NoMxRecords(host))
          case LookupFailed(r) => Failure(MxUnresolvable(host, r))
          case Found(records) => Success(Plan(body, host, records))
  }

  /** With signing disabled, the bytes handed to the network are the encoded envelope itself. */
  lemma UnsignedBodyIsEnvelope(email: Email, addressee: Address, domain: string, selector: string, net: Network)
    requires PlanDelivery(email, addressee, false, domain, selector, net).Success?
    ensures net.encode(EnvelopeFor(email, addressee)).Encoded?
    ensures PlanDelivery(email, addressee, false, domain, selector, net).value.body
            == net.encode(EnvelopeFor(email, addressee)).bytes
  {
  }

  /**
   * A failure while building, encoding or signing is decided before the DNS is
   * consulted: the outcome is the same whatever the resolver and the network do.
   */
  lemma EnvelopeFailureSkipsLookup(email: Email, addressee: Address, dkimEnabled: bool, domain: string,
                                   selector: string, net: Network, net': Network)
    requires net'.encode == net.encode && net'.sign == net.sign
    requires match net.encode(EnvelopeFor(email, addressee))
             case Encoded(envelope) => SignStage(dkimEnabled, net.sign, domain, selector, envelope).Failure?
             case _ => true
    ensures PlanDelivery(email, addressee, dkimEnabled, domain, selector, net)
            == PlanDelivery(email, addressee, dkimEnabled, domain, selector, net')
    ensures PlanDelivery(email, addressee, dkimEnabled, domain, selector, net).Failure?
  {
  }

  // ---------------------------------------------------------------------------
  // Attempts

  /** `max(int(timeout.Seconds()/10), 1)` for a timeout in nanoseconds. */
  function AttemptTotal(timeout: int): (n: nat)
    ensures n >= 1
    ensures timeout >= TenSeconds ==> n * TenSeconds <= timeout < (n + 1) * TenSeconds
    ensures timeout < 2 * TenSeconds ==> n == 1
  {
    if timeout < TenSeconds then 1 else timeout / TenSeconds
  }

  /** Attempt i hands the envelope to candidate i modulo the number of candidates. */
  function HandoffAt(candidates: seq<MxRecord>, i: nat, from: string, to: string, body: seq<byte>): Handoff
    requires |candidates| > 0
  {
    Handoff(ServerOf(candidates[i % |candidates|]), from, [to], body)
  }

  lemma MulAtLeast(a: int, n: int)
    requires a >= 1 && n > 0
    ensures a * n >= n
  {
  }

  lemma ModUnique(x: int, n: int, q: int, r: int)
    requires n > 0 && 0 <= r < n && x == q * n + r
    ensures x % n == r
  {
    var q', r' := x / n, x % n;
    assert x == q' * n + r';
    assert (q - q') * n == r' - r;
    if q > q' {
      MulAtLeast(q - q', n);
    } else if q < q' {
      MulAtLeast(q' - q, n);
    }
  }

  /** Attempts past the end of the candidate list start again from the most preferred one. */
  lemma HandoffWrapsAround(candidates: seq<MxRecord>, i: nat, from: string, to: string, body: seq<byte>)
    requires |candidates| > 0
    ensures HandoffAt(candidates, i + |candidates|, from, to, body) == HandoffAt(candidates, i, from, to, body)
    ensures i < |candidates| ==> HandoffAt(candidates, i, from, to, body).server == ServerOf(candidates[i])
  {
    var n := |candidates|;
    assert i + n == (i / n + 1) * n + i % n;
    ModUnique(i + n, n, i / n + 1, i % n);
  }

  /**
   * The default 30-second timeout gives three attempts and a 5-second one a single
   * attempt; with two candidates the third attempt goes back to the first.
   */
  lemma DefaultBudgetWrapsAround(a: MxRecord, b: MxRecord, from: string, to: string, body: seq<byte>)
    ensures AttemptTotal(DefaultTimeout) == 3 && AttemptTotal(5 * Second) == 1
    ensures HandoffAt([a, b], 2, from, to, body).server == ServerOf(a)
  {
    HandoffWrapsAround([a, b], 0, from, to, body);
  }

  /**
   * The report of an attempt loop over `candidates` with budget `total`: the
   * sends made, in order; success exactly when some attempt within the budget
   * succeeds, stopping at the first one; otherwise one error per attempt.
   */
  ghost predicate AttemptsReport(candidates: seq<MxRecord>, total: nat, from: string, to: string,
                                 body: seq<byte>, send: Sender, err: Option<SendError>, handoffs: seq<Handoff>)
    requires |candidates| > 0
  {
    && |handoffs| <= total
    && (forall i :: 0 <= i < |handoffs| ==> handoffs[i] == HandoffAt(candidates, i, from, to, body))
    && (err.None? <==> exists k :: 0 <= k < total && send(k, HandoffAt(candidates, k, from, to, body)).None?)
    && (err.None? ==>
          && |handoffs| > 0
          && send(|handoffs| - 1, handoffs[|handoffs| - 1]).None?
          && forall j :: 0 <= j < |handoffs| - 1 ==> send(j, handoffs[j]).Some?)
    && (err.Some? ==>
          && |handoffs| == total
          && err.value.DeliveryFailed?
          && |err.value.attempts| == total
          && forall i :: 0 <= i < total ==>
               && send(i, handoffs[i]) == Some(err.value.attempts[i].cause)
               && err.value.attempts[i].attempt == i + 1
               && err.value.attempts[i].total == total)
  }

  /** The attempt loop: cycle through the candidates, stop at the first success. */
  method DeliverAttempts(candidates: seq<MxRecord>, total: nat, from: string, to: string,
                         body: seq<byte>, send: Sender)
    returns (err: Option<SendError>, handoffs: seq<Handoff>)
    requires |candidates| > 0
    ensures AttemptsReport(candidates, total, from, to, body, send, err, handoffs)
  {
    var attemptErrors: seq<AttemptError> := [];
    handoffs := [];
    var i := 0;
    while i < total
      invariant 0 <= i <= total
      invariant |handoffs| == i && |attemptErrors| == i
      invariant forall k :: 0 <= k < i ==> handoffs[k] == HandoffAt(candidates, k, from, to, body)
      invariant forall k :: 0 <= k < i ==>
                  && send(k, handoffs[k]) == Some(attemptErrors[k].cause)
                  && attemptErrors[k].attempt == k + 1
                  && attemptErrors[k].total == total
    {
      var host := candidates[i % |candidates|].host;
      var h := Handoff(host + ":25", from, [to], body);
      handoffs := handoffs + [h];
      var sent := send(i, h);
      if sent.None? {
        assert send(i, HandoffAt(candidates, i, from, to, body)).None?;
        return None, handoffs;
      }
      attemptErrors := attemptErrors + [AttemptError(i + 1, total, sent.value)];
      i := i + 1;
    }
    err := Some(DeliveryFailed(attemptErrors));
  }

  // ---------------------------------------------------------------------------
  // Engine

  class Engine {
    const domain: string
    /** Capacity of the outbound channel, fixed when it is made. */
    const capacity: nat
    /** `OutgoingTimeout`, in nanoseconds. */
    var timeout: int
    var dkimEnabled: bool
    var selector: string
    var middleware: seq<Middleware>
    /** Emails waiting in the outbound channel, oldest first. */
    var queued: seq<Email>

    ghost predicate Valid()
      reads this
    {
      |queued| <= capacity
    }

    /** `New(domain)`: the engine with its defaults. */
    constructor New(domain: string)
      ensures Valid()
      ensures this.domain == domain && capacity == DefaultQueueCapacity
      ensures timeout == DefaultTimeout && selector == DefaultSelector && !dkimEnabled
      ensures middleware == [] && queued == []
    {
      this.domain := domain;
      capacity := DefaultQueueCapacity;
      timeout := DefaultTimeout;
      selector := DefaultSelector;
      dkimEnabled := false;
      middleware := [];
      queued := [];
    }

    /** Registers a middleware after all those registered before. */
    method UseOutgoing(handler: Middleware)
      modifies this`middleware
      ensures middleware == old(middleware) + [handler]
    {
      middleware := middleware + [handler];
    }

    /** Non-blocking send on the channel: enqueue at the back, or report a full queue. */
    method QueueEmail(email: Email) returns (accepted: bool)
      requires Valid()
      modifies this`queued
      ensures Valid()
      ensures accepted <==> |old(queued)| < capacity
      ensures queued == if accepted then old(queued) + [email] else old(queued)
    {
      if |queued| < capacity {
        queued := queued + [email];
        accepted := true;
      } else {
        accepted := false;
      }
    }

    /**
     * Sends an email now. Only the first addressee is ever reached: the loop over
     * `To` returns from its first iteration whatever happens there. `candidates`
     * is the preference-ordered list the attempts cycle through. With signing
     * enabled the signer is given the encoded envelope and its output is sent
     * (the corrected signing step; see `SignStageAsWritten`).
     */
    method SendEmail(email: Email, net: Network)
      returns (err: Option<SendError>, handoffs: seq<Handoff>, candidates: seq<MxRecord>)
      ensures |email.to| == 0 ==> err == Some(NoRecipients) && handoffs == []
      ensures |email.to| > 0 && Chain(middleware, email).Cancelled? ==>
                err == Some(CancelledByMiddleware(Chain(middleware, email).err)) && handoffs == []
      ensures |email.to| > 0 && Chain(middleware, email).Proceed? ==>
                FirstAddresseeReport(Chain(middleware, email).email, dkimEnabled, domain, selector,
                                     timeout, net, err, handoffs, candidates)
    {
      handoffs, candidates := [], [];
      if |email.to| == 0 {
        return Some(NoRecipients), handoffs, candidates;
      }
      var chained := RunMiddleware(middleware, email);
      if chained.Cancelled? {
        return Some(CancelledByMiddleware(chained.err)), handoffs, candidates;
      }
      var e := chained.email;
      if |e.to| == 0 {
        return None, handoffs, candidates;
      }
      var addressee := e.to[0];
      var builder := BuildEnvelope(e, addressee);
      var envelope: seq<byte>;
      match net.encode(builder) {
        case BuildError(r) => return Some(BuildFailed(r)), handoffs, candidates;
        case EncodeError(r) => return Some(EncodeFailed(r)), handoffs, candidates;
        case Encoded(bytes) => envelope := bytes;
      }
      var complete: seq<byte>;
      if dkimEnabled {
        match net.sign(envelope, domain, selector) {
          case SignError(r) => return Some(SignFailed(r)), handoffs, candidates;
          case Signed(bytes) => complete := bytes;
        }
      } else {
        complete := envelope;
      }
      var host := ExtractHostFromAddress(addressee.address);
      if host.Failure? {
        return Some(host.error), handoffs, candidates;
      }
      var records: seq<MxRecord>;
      match net.lookupMX(host.value) {
        case NotFound => return Some(NoMxRecords(host.value)), handoffs, candidates;
        case LookupFailed(r) => return Some(MxUnresolvable(host.value, r)), handoffs, candidates;
        case Found(rs) => records := rs;
      }
      candidates := SortByPref(records);
      if |candidates| == 0 {
        return Some(DivideByZeroPanic), handoffs, candidates;
      }
      var total := AttemptTotal(timeout);
      err, handoffs := DeliverAttempts(candidates, total, e.from.address, addressee.address, complete, net.sendMail);
    }
  }

  /**
   * Delivery to the first addressee of the email the middleware passed on:
   * nothing at all when the middleware emptied `To`; the first preparation
   * failure; or attempts over a preference ordering of the looked-up records,
   * all of them addressed to `To[0]` and carrying the prepared bytes.
   */
  ghost predicate FirstAddresseeReport(e: Email, dkimEnabled: bool, domain: string, selector: string,
                                       timeout: int, net: Network, err: Option<SendError>,
                                       handoffs: seq<Handoff>, candidates: seq<MxRecord>)
  {
    if |e.to| == 0 then err.None? && handoffs == []
    else
      match PlanDelivery(e, e.to[0], dkimEnabled, domain, selector, net)
      case Failure(f) => err == Some(f) && handoffs == []
      case Success(plan) =>
        && IsPrefOrdering(candidates, plan.records)
        && (|plan.records| == 0 ==> err == Some(DivideByZeroPanic) && handoffs == [])
        && (|plan.records| > 0 ==>
              AttemptsReport(candidates, AttemptTotal(timeout), e.from.address, e.to[0].address,
                             plan.body, net.sendMail, err, handoffs))
  }
}
