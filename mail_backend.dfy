/**
 * The inbound SMTP session of the standalone service (package `env`): the
 * recipient check, the refused authentication, and the handling of a received
 * message, which is dropped, answered with an auto-reply, or forwarded through
 * the outbound queue.
 */
module MailBackend {
  import opened Wrappers
  import opened Mime
  import opened MailOutgoing

  /** The SMTP replies a session produces. */
  datatype SmtpError =
    | UnknownRecipient  // 550 "Unknown Recipient"
    | DataReset         // smtp.ErrDataReset
    | AuthUnsupported   // smtp.ErrAuthUnsupported

  /**
   * The reply code an error carries: 550 for an unknown recipient and 502 for
   * refused authentication (both `SMTPError` values); the data reset is a plain
   * error with no code of its own.
   */
  function ReplyCode(e: SmtpError): (code: Option<nat>)
    ensures e == UnknownRecipient <==> code == Some(550)
    ensures e == AuthUnsupported <==> code == Some(502)
    ensures e == DataReset <==> code.None?
  {
    match e
    case UnknownRecipient => Some(550)
    case AuthUnsupported => Some(502)
    case DataReset => None
  }

  /** The settings read from the environment, plus the embedded auto-reply page and image. */
  datatype Config = Config(
    domain: string,
    dmarcUser: string, noreplyUser: string, forwardUser: string,
    forwardAddress: string, disableNoreply: string,
    noreplyIndex: string, noreplyImage: seq<byte>)

  function DmarcAddress(c: Config): string { c.dmarcUser + "@" + c.domain }
  function NoreplyAddress(c: Config): string { c.noreplyUser + "@" + c.domain }
  function ForwardInbox(c: Config): string { c.forwardUser + "@" + c.domain }

  /** The defaults `envString` falls back to when nothing is set. */
  function DefaultConfig(noreplyIndex: string, noreplyImage: seq<byte>): Config
  {
    Config("example.org", "dmarc", "noreply", "support", "", "", noreplyIndex, noreplyImage)
  }

  // ---------------------------------------------------------------------------
  // Recipient check, authentication, sender

  /** Two addresses at the same domain are equal only when their user names are. */
  lemma SameDomainAddressesDiffer(a: string, b: string, domain: string)
    requires a != b
    ensures a + "@" + domain != b + "@" + domain
  {
    if |a| == |b| {
      var i :| 0 <= i < |a| && a[i] != b[i];
      assert (a + "@" + domain)[i] == a[i];
      assert (b + "@" + domain)[i] == b[i];
    } else {
      assert |a + "@" + domain| != |b + "@" + domain|;
    }
  }

  /**
   * `Rcpt` as written: it rejects when the recipient differs from any one of the
   * three inbox addresses, so it accepts only an address equal to all three.
   */
  function RcptAsWritten(c: Config, toAddress: string): (r: Option<SmtpError>)
    ensures r.None? <==>
              toAddress == DmarcAddress(c) && toAddress == NoreplyAddress(c) && toAddress == ForwardInbox(c)
    ensures r.Some? ==> r.value == UnknownRecipient
  {
    if toAddress != DmarcAddress(c) || toAddress != NoreplyAddress(c) || toAddress != ForwardInbox(c) then
      Some(UnknownRecipient)
    else
      None
  }

  /** As soon as two inbox user names differ, every recipient is refused. */
  lemma RcptAsWrittenRejectsEveryone(c: Config, toAddress: string)
    requires c.dmarcUser != c.noreplyUser || c.noreplyUser != c.forwardUser
    ensures RcptAsWritten(c, toAddress) == Some(UnknownRecipient)
  {
    if c.dmarcUser != c.noreplyUser {
      SameDomainAddressesDiffer(c.dmarcUser, c.noreplyUser, c.domain);
    } else {
      SameDomainAddressesDiffer(c.noreplyUser, c.forwardUser, c.domain);
    }
  }

  /** With the default settings, mail to the DMARC inbox itself is refused. */
  lemma RcptAsWrittenRefusesDmarcInbox(noreplyIndex: string, noreplyImage: seq<byte>)
    ensures var c := DefaultConfig(noreplyIndex, noreplyImage);
            RcptAsWritten(c, "dmarc@example.org") == Some(UnknownRecipient)
  {
    var c := DefaultConfig(noreplyIndex, noreplyImage);
    RcptAsWrittenRejectsEveryone(c, "dmarc@example.org");
  }

  /** The allowlist check as its comment describes it: one of the three inboxes. */
  function Rcpt(c: Config, toAddress: string): (r: Option<SmtpError>)
    ensures r.None? <==>
              toAddress == DmarcAddress(c) || toAddress == NoreplyAddress(c) || toAddress == ForwardInbox(c)
    ensures r.Some? ==> r.value == UnknownRecipient
  {
    if toAddress != DmarcAddress(c) && toAddress != NoreplyAddress(c) && toAddress != ForwardInbox(c) then
      Some(UnknownRecipient)
    else
      None
  }

  /** No authentication mechanism is offered. */
  function AuthMechanisms(): (mechanisms: seq<string>)
    ensures mechanisms == []
  {
    []
  }

  /** Any attempt to authenticate is refused, whatever the mechanism. */
  function Auth(mechanism: string): (r: SmtpError)
    ensures r == AuthUnsupported
  {
    AuthUnsupported
  }

  /** Every envelope sender is accepted. */
  function Mail(fromAddress: string): (r: Option<SmtpError>)
    ensures r.None?
  {
    None
  }

  /** Ending a session never fails. */
  function Logout(): (r: Option<SmtpError>)
    ensures r.None?
  {
    None
  }

  // ---------------------------------------------------------------------------
  // Data

  /** A parsed `*mail.Address`. */
  datatype MailAddress = MailAddress(name: string, address: string)

  /** The header values `enmime.ReadEnvelope` makes available. */
  datatype Headers = Headers(to: string, from: string, subject: string)

  /**
   * The foreign collaborators of `Data`: envelope parsing, address parsing, and
   * `dkim.Verify`. The latter gives `None` when it returns an error (the header
   * section cannot be read) and otherwise one outcome per signature found, `true`
   * for a signature that verifies; a bad signature is not an error of the call.
   */
  datatype Inbound = Inbound(
    readEnvelope: seq<byte> -> Option<Headers>,
    parseAddress: string -> Option<MailAddress>,
    dkimVerify: seq<byte> -> Option<seq<bool>>)

  /** A message that was read and parsed, and on which `dkim.Verify` returned no error. */
  datatype Accepted = Accepted(raw: seq<byte>, to: MailAddress, from: MailAddress, subject: string)

  /**
   * The checks before routing: the data must be readable, the envelope and its
   * `To` and `From` headers must parse, and `dkim.Verify` must not return an error.
   */
  function Accept(read: Option<seq<byte>>, lib: Inbound): (r: Option<Accepted>)
    ensures r.Some? <==>
              && read.Some?
              && lib.readEnvelope(read.value).Some?
              && lib.parseAddress(lib.readEnvelope(read.value).value.to).Some?
              && lib.parseAddress(lib.readEnvelope(read.value).value.from).Some?
              && lib.dkimVerify(read.value).Some?
    ensures r.Some? ==>
              && r.value.raw == read.value
              && r.value.to == lib.parseAddress(lib.readEnvelope(read.value).value.to).value
              && r.value.from == lib.parseAddress(lib.readEnvelope(read.value).value.from).value
              && r.value.subject == lib.readEnvelope(read.value).value.subject
  {
    match read
    case None => None
    case Some(data) =>
      match lib.readEnvelope(data)
      case None => None
      case Some(headers) =>
        match lib.parseAddress(headers.to)
        case None => None
        case Some(to) =>
          match lib.parseAddress(headers.from)
          case None => None
          case Some(from) =>
            if lib.dkimVerify(data).None? then None
            else Some(Accepted(data, to, from, headers.subject))
  }

  /**
   * Only an error from `dkim.Verify` refuses a message: one with no signature, or
   * whose every signature fails, is accepted like a verified one.
   */
  lemma UnverifiedMailAccepted(data: seq<byte>, lib: Inbound, outcomes: seq<bool>)
    requires lib.readEnvelope(data).Some?
    requires lib.parseAddress(lib.readEnvelope(data).value.to).Some?
    requires lib.parseAddress(lib.readEnvelope(data).value.from).Some?
    requires lib.dkimVerify(data) == Some(outcomes)
    requires forall i :: 0 <= i < |outcomes| ==> !outcomes[i]
    ensures Accept(Some(data), lib).Some?
    ensures Accept(Some(data), lib)
            == Accept(Some(data), lib.(dkimVerify := d => if d == data then Some([true]) else lib.dkimVerify(d)))
  {
  }

  /** What happens to a received message. */
  datatype Route =
    | Reset
    | DropReport
    | Reject
    | Debounced
    | AutoReply(sender: string, reply: Email)
    | Forward(forward: Email)

  function RouteError(route: Route): (err: Option<SmtpError>)
    ensures err.None? <==> route.DropReport? || route.Debounced? || route.AutoReply? || route.Forward?
  {
    match route
    case Reset => Some(DataReset)
    case Reject => Some(UnknownRecipient)
    case _ => None
  }

  /** The auto-reply to a sender that wrote to the noreply inbox. */
  function AutoReplyFor(c: Config, from: MailAddress): (e: Email)
    ensures e.toAddress == from.address && e.toName == from.name
    ensures e.fromAddress == NoreplyAddress(c)
    ensures e.subject == "Need Help?" && e.html && e.content == c.noreplyIndex
    ensures |e.attachments| == 1
    ensures e.attachments[0] == Attachment("image/png", "robot.png", c.noreplyImage, true)
  {
    Email(from.name, from.address, NoreplyAddress(c), NoreplyAddress(c), "Need Help?", c.noreplyIndex, true,
          [Attachment("image/png", "robot.png", c.noreplyImage, true)])
  }

  /** The message that carries a received one, untouched, to the forward address. */
  function ForwardFor(c: Config, a: Accepted): (e: Email)
    ensures e.toAddress == c.forwardAddress
    ensures e.fromAddress == "catchall@" + c.domain && e.fromName == a.from.address
    ensures e.subject == "Fwd: " + a.subject && !e.html
    ensures |e.attachments| == 1
    ensures !e.attachments[0].inline && e.attachments[0].contentType == "message/rfc822"
    ensures e.attachments[0].data == a.raw
  {
    Email("", c.forwardAddress, a.from.address, "catchall@" + c.domain, "Fwd: " + a.subject,
          "Forwarding an email from: " + a.from.address, false,
          [Attachment("message/rfc822", "forwarded_email.eml", a.raw, false)])
  }

  /**
   * Routing of an accepted message. The DMARC inbox swallows it; the noreply
   * inbox is refused while `SMTP_DISABLE_NOREPLY` is empty, stays silent for a
   * sender present in the debounce map whatever its expiry, and otherwise
   * answers; every other recipient is forwarded when a forward address is set.
   */
  function RouteOf(c: Config, a: Accepted, debounce: map<string, int>): (r: Route)
    ensures !r.Reset?
    ensures r.DropReport? <==> a.to.address == DmarcAddress(c)
    ensures r.Debounced? <==>
              && a.to.address != DmarcAddress(c) && a.to.address == NoreplyAddress(c)
              && c.disableNoreply != "" && a.from.address in debounce
    ensures r.AutoReply? <==>
              && a.to.address != DmarcAddress(c) && a.to.address == NoreplyAddress(c)
              && c.disableNoreply != "" && a.from.address !in debounce
    ensures r.AutoReply? ==> r.sender == a.from.address && r.reply == AutoReplyFor(c, a.from)
    ensures r.Forward? <==>
              a.to.address != DmarcAddress(c) && a.to.address != NoreplyAddress(c) && c.forwardAddress != ""
    ensures r.Forward? ==> r.forward == ForwardFor(c, a)
    ensures r.Reject? <==>
              || (a.to.address != DmarcAddress(c) && a.to.address == NoreplyAddress(c) && c.disableNoreply == "")
              || (a.to.address != DmarcAddress(c) && a.to.address != NoreplyAddress(c) && c.forwardAddress == "")
  {
    if a.to.address == DmarcAddress(c) then DropReport
    else if a.to.address == NoreplyAddress(c) then
      if c.disableNoreply == "" then Reject
      else if a.from.address in debounce then Debounced
      else AutoReply(a.from.address, AutoReplyFor(c, a.from))
    else if c.forwardAddress == "" then Reject
    else Forward(ForwardFor(c, a))
  }

  /** The route of one `Data` call: a reset unless the message is accepted, then its routing. */
  function Classify(c: Config, read: Option<seq<byte>>, lib: Inbound, debounce: map<string, int>): (r: Route)
    ensures r.Reset? <==> Accept(read, lib).None?
    ensures Accept(read, lib).Some? ==> r == RouteOf(c, Accept(read, lib).value, debounce)
  {
    match Accept(read, lib)
    case None => Reset
    case Some(a) => RouteOf(c, a, debounce)
  }

  /** Only whether a sender is present counts, never the expiry stored for it. */
  lemma ExpiryIgnored(c: Config, read: Option<seq<byte>>, lib: Inbound, m1: map<string, int>, m2: map<string, int>)
    requires m1.Keys == m2.Keys
    ensures Classify(c, read, lib, m1) == Classify(c, read, lib, m2)
  {
  }

  /** The outbound queue and the debounce map, as one value. */
  datatype Outbox = Outbox(queued: seq<Email>, debounce: map<string, int>)

  /**
   * One call of `Data` at time `now`: its reply and the state it leaves. A message
   * that is not accepted is reset; a refused, dropped or debounced one changes
   * nothing; an auto-reply silences its sender for an hour and queues one reply;
   * a forward queues one forward and leaves the debounce map alone.
   */
  function Receive(c: Config, lib: Inbound, read: Option<seq<byte>>, now: int, s: Outbox)
    : (r: (Option<SmtpError>, Outbox))
    ensures r.0.Some? ==> r.1 == s
    ensures |s.queued| <= QueueCapacity ==> |r.1.queued| <= QueueCapacity
    ensures Accept(read, lib).None? ==> r == (Some(DataReset), s)
    ensures Accept(read, lib).Some? ==>
              var a := Accept(read, lib).value;
              match RouteOf(c, a, s.debounce)
              case Reject => r == (Some(UnknownRecipient), s)
              case DropReport => r == (None, s)
              case Debounced => r == (None, s)
              case AutoReply(_, _) =>
                r == (None, Outbox(Enqueued(s.queued, AutoReplyFor(c, a.from)),
                                   s.debounce[a.from.address := now + Hour]))
              case Forward(_) => r == (None, Outbox(Enqueued(s.queued, ForwardFor(c, a)), s.debounce))
              case Reset => false
  {
    var route := Classify(c, read, lib, s.debounce);
    var next :=
      match route
      case AutoReply(sender, reply) => Outbox(Enqueued(s.queued, reply), s.debounce[sender := now + Hour])
      case Forward(forward) => Outbox(Enqueued(s.queued, forward), s.debounce)
      case _ => s;
    (RouteError(route), next)
  }

  /**
   * Two identical messages to the noreply inbox from a new sender, at any two
   * times without a sweep between them, queue exactly one auto-reply.
   */
  lemma RepeatQueuesOneReply(c: Config, lib: Inbound, read: Option<seq<byte>>, t1: int, t2: int, s: Outbox)
    requires Classify(c, read, lib, s.debounce).AutoReply?
    requires |s.queued| < QueueCapacity
    ensures var s1 := Receive(c, lib, read, t1, s).1;
            var s2 := Receive(c, lib, read, t2, s1).1;
            && s2.queued == s.queued + [Classify(c, read, lib, s.debounce).reply]
            && s2.debounce == s1.debounce
            && Receive(c, lib, read, t2, s1).0.None?
  {
    var a := Accept(read, lib).value;
    var s1 := Receive(c, lib, read, t1, s).1;
    assert a.from.address in s1.debounce;
    assert Classify(c, read, lib, s1.debounce) == Debounced;
  }

  /**
   * Once a sweep after the cooldown has removed the sender, the same message
   * queues a second auto-reply. This needs a sweep later than `t1 + Hour`; the
   * service's timer sweeps only once, an hour after start, so in the running
   * service a sender answered after that sweep stays silenced until restart.
   */
  lemma ReplyAgainAfterSweep(c: Config, lib: Inbound, read: Option<seq<byte>>, t1: int, later: int, t2: int,
                             s: Outbox)
    requires Classify(c, read, lib, s.debounce).AutoReply?
    requires later > t1 + Hour
    requires |s.queued| + 2 <= QueueCapacity
    ensures var s1 := Receive(c, lib, read, t1, s).1;
            var swept := Outbox(s1.queued, Unexpired(s1.debounce, later));
            var reply := Classify(c, read, lib, s.debounce).reply;
            Receive(c, lib, read, t2, swept).1.queued == s.queued + [reply, reply]
  {
    var a := Accept(read, lib).value;
    var s1 := Receive(c, lib, read, t1, s).1;
    var swept := Outbox(s1.queued, Unexpired(s1.debounce, later));
    assert a.from.address !in swept.debounce;
    assert Classify(c, read, lib, swept.debounce) == Classify(c, read, lib, s.debounce);
  }

  /** A DMARC report changes nothing: no reply, no forward, no debounce entry. */
  lemma ReportLeavesStateAlone(c: Config, lib: Inbound, read: Option<seq<byte>>, now: int, s: Outbox)
    requires Accept(read, lib).Some? && Accept(read, lib).value.to.address == DmarcAddress(c)
    ensures Receive(c, lib, read, now, s) == (None, s)
  {
  }

  /**
   * `Data`: read and parse the message, run `dkim.Verify` on it, then route it, writing the
   * debounce map and the outbound queue of the process.
   */
  method Data(st: Globals, c: Config, lib: Inbound, read: Option<seq<byte>>, now: int)
    returns (err: Option<SmtpError>)
    requires st.Valid()
    modifies st
    ensures st.Valid()
    ensures (err, Outbox(st.queued, st.debounce))
            == Receive(c, lib, read, now, Outbox(old(st.queued), old(st.debounce)))
  {
    if read.None? {
      return Some(DataReset);
    }
    var data := read.value;
    var envelope := lib.readEnvelope(data);
    if envelope.None? {
      return Some(DataReset);
    }
    var to := lib.parseAddress(envelope.value.to);
    if to.None? {
      return Some(DataReset);
    }
    var from := lib.parseAddress(envelope.value.from);
    if from.None? {
      return Some(DataReset);
    }
    if lib.dkimVerify(data).None? {
      return Some(DataReset);
    }
    var toAddress, sender := to.value.address, from.value;
    if toAddress == DmarcAddress(c) {
      return None;
    }
    if toAddress == NoreplyAddress(c) {
      if c.disableNoreply == "" {
        return Some(UnknownRecipient);
      }
      if sender.address in st.debounce {
        return None;
      }
      st.debounce := st.debounce[sender.address := now + Hour];
      st.QueueEmail(Email(sender.name, sender.address, NoreplyAddress(c), NoreplyAddress(c), "Need Help?",
                          c.noreplyIndex, true, [Attachment("image/png", "robot.png", c.noreplyImage, true)]));
      return None;
    }
    if c.forwardAddress == "" {
      return Some(UnknownRecipient);
    }
    st.QueueEmail(Email("", c.forwardAddress, sender.address, "catchall@" + c.domain,
                        "Fwd: " + envelope.value.subject, "Forwarding an email from: " + sender.address, false,
                        [Attachment("message/rfc822", "forwarded_email.eml", data, false)]));
    return None;
  }
}
