# Outgoing and inbound mail, modelled in Dafny

This project models the mail-handling core of `tools-email`:

- **The library engine's outgoing path** (package `email`, `engine_outgoing.go`). It covers:
  - the middleware chain;
  - the bounded outbound queue;
  - delivery of an email. The envelope is built, encoded and optionally DKIM-signed. The recipient's host is extracted and its MX records are looked up and sorted by preference. Then a budget of attempts cycles through those servers.
- **The standalone service's outgoing path** (package `env`, `MailOutgoing.go`). It covers:
  - the process-wide queue of capacity 1000;
  - the sender debounce map and its sweep;
  - delivery to at most the three most preferred MX servers, each tried once.
- **The service's SMTP session** (`MailBackend.go`). It covers:
  - the recipient allowlist;
  - the refused authentication;
  - the handling of a received message. A message arriving at the DMARC inbox is dropped. One arriving at the noreply inbox gets a debounced auto-reply through the outbound queue. Anything else is forwarded, as an attached `message/rfc822` copy, through the same queue.

The foreign libraries are parameters of the model. They are given as function values: enmime's builder and encoder, DKIM signing and verification, `url.Parse`, `net.LookupMX`, `net/mail` address parsing and `smtp.SendMail`. The sender is indexed by attempt number, so repeated sends to the same server may have different outcomes. Delivery is a method that returns the error it reports and the sequence of handoffs it made. Each handoff records server, sender, recipients and body. Its contract ties both to a specification predicate over the looked-up records.

Modules:

| module | file | models |
|---|---|---|
| `Wrappers` | wrappers.dfy | `Option` and `Result` |
| `Text` | text.dfy | `strings.Join`, decimal rendering, character counts |
| `Mime` | mime.dfy | attachments and the builder parts they become |
| `Mx` | mx.dfy | MX records, sorting by preference, keeping the first few |
| `EngineOutgoing` | engine_outgoing.dfy | `email/engine_outgoing.go`, the `New` defaults |
| `MailOutgoing` | mail_outgoing.dfy | `env/MailOutgoing.go` |
| `MailBackend` | mail_backend.dfy | `env/MailBackend.go` |

Some behaviour is kept as the code has it, where that differs from what a reader of the comments or the design would expect:

- **The engine only reaches the first addressee.** The loop over `To` returns from its first iteration whatever happens there.
- **A middleware can empty `To`.** It receives a pointer to the email and may change it. If it empties `To`, `SendEmail` does nothing and reports success.
- **A veto with a nil error prints `%!s(<nil>)`.**
- **The engine swaps the sender's name and address.** It passes them to enmime's `From(name, addr)` in the opposite order.
- **An empty MX answer with no error panics in the engine** (`i % 0`). This is modelled as the outcome `DivideByZeroPanic`.
- **The engine rounds its attempt budget down.** The budget is `max(floor(timeout / 10 s), 1)`. The servers are cycled modulo their number.
- **The env malformed-address error prints the nil URL**, not the address.
- **The noreply switch is inverted.** With `SMTP_DISABLE_NOREPLY` empty (its default), mail to the noreply inbox is refused. The auto-reply is sent only when the switch is set.
- **The debounce check tests only whether the sender is present.** It does not test whether the stored expiry has passed, so a sender stays silenced until a sweep removes their entry. The sweep timer fires only once, an hour after start.
- **`Data` forwards everything that is not for the DMARC or noreply inbox.** It does not check for the forward inbox. It refuses only when no forward address is configured.
- **DKIM verification refuses only on an error of the call.** `Data` resets only when `dkim.Verify` returns an error, which it does when the header cannot be read. A missing or failing signature is reported per signature and ignored, so such mail is accepted.
- **`sort.Slice` is not stable.** The contracts promise a preference ordering, meaning sorted and a permutation of what was looked up. They do not promise a tie order.

## Model

| member | source | states |
|---|---|---|
| `Mime.PartOf` | env/MailOutgoing.go:114-119 | an inline attachment becomes an inline part and any other attachment a regular one, keeping data, content type and file name, with the file name as content ID for an inline part; no other part does all of this |
| `Mime.BodyOf` | env/MailOutgoing.go:108-112 | the body is HTML exactly when the email says HTML, otherwise plain text, and in either case carries the email's content |
| `Mime.AddParts` | email/engine_outgoing.go:76-83 | the loop over the attachments yields one part per attachment, in order, each the part of that attachment |
| `Mx.Insert` | email/engine_outgoing.go:121-124 | inserting into a preference-sorted list keeps it sorted and adds exactly the one record |
| `Mx.SortByPref` | email/engine_outgoing.go:121-124 | the records come back ordered by non-decreasing preference and are a permutation of those looked up |
| `Mx.KeepFirst` | env/MailOutgoing.go:158-160 | truncation keeps the first `min(n, len)` records as a prefix |
| `Mx.KeepFirstMostPreferred` | env/MailOutgoing.go:155-160 | sorting then keeping three gives a sorted sub-multiset of size `min(3, len)` whose every preference is at most every dropped record's |
| `Text.JoinCount` | email/engine_outgoing.go:146 | about `Text.Join` (`strings.Join`): joining parts free of a character with a separator holding it once yields exactly `len - 1` occurrences |
| `Text.Decimal` | email/engine_outgoing.go:140 | the `%d` rendering is a non-empty string of digits, a single digit exactly below ten, with a leading `0` only for zero itself |
| `Text.DecimalRoundTrip` | email/engine_outgoing.go:140 | the rendering `Text.Decimal` gives parses back to the same number |
| `EngineOutgoing.AttemptLineNumber` | email/engine_outgoing.go:140 | in `AttemptLine`, the attempt number is written in decimal after `attempt ` and before `/`, and reads back as the same number |
| `EngineOutgoing.AttemptLines` | email/engine_outgoing.go:140-141 | one line per failed attempt, in attempt order |
| `EngineOutgoing.Message` | email/engine_outgoing.go:46-146 | a veto with a nil error reads `cancelled by middleware: %!s(<nil>)`, and a single failed attempt reads `email delivery failed: ` followed by that attempt's line |
| `EngineOutgoing.DeliveryFailedLines` | email/engine_outgoing.go:140-146 | when no sender error contains a newline, the aggregated delivery error has exactly one line per attempt |
| `EngineOutgoing.FirstAt` | email/engine_outgoing.go:19 | the split point is the first `@`, or the end when there is none |
| `EngineOutgoing.ExtractHostFromAddress` | email/engine_outgoing.go:18-24 | fails with the invalid-address error exactly when there is no `@` or only one at the very end; otherwise returns the non-empty remainder after the first `@` |
| `EngineOutgoing.ExtractHostRoundTrip` | email/engine_outgoing.go:18-24 | an address built from an `@`-free local part and a non-empty host yields that host |
| `EngineOutgoing.ExtractHostSplitsAtFirstAt` | email/engine_outgoing.go:19-23 | only the first `@` splits: `a@b@c` has host `b@c` |
| `EngineOutgoing.Chain` | email/engine_outgoing.go:50-54 | middleware that all proceed without changing the email pass it on unchanged, and a cancellation's error is the error some middleware returned with its veto |
| `EngineOutgoing.ChainAppend` | email/engine_outgoing.go:27-29 | a middleware registered last runs only if all earlier ones proceed, on the email they left |
| `EngineOutgoing.FirstVetoWins` | email/engine_outgoing.go:50-54 | once a middleware vetoes, later ones cannot change the outcome |
| `EngineOutgoing.RunMiddleware` | email/engine_outgoing.go:50-54 | the middleware loop computes the chain: the first veto cancels with its error, otherwise the email as the last middleware left it |
| `EngineOutgoing.EnvelopeFor` | email/engine_outgoing.go:62-83 | the builder gets the sender with name and address swapped, the addressee, the subject, HTML or text body, the body with the email's content, HTML or text, and one part per attachment in order carrying its inline flag, data, content type and file name |
| `EngineOutgoing.BuildEnvelope` | email/engine_outgoing.go:62-83 | building the envelope step by step gives `EnvelopeFor` |
| `EngineOutgoing.SignStage` | email/engine_outgoing.go:92-106 | signing disabled passes the envelope through; enabled, it succeeds exactly when the signer accepts the envelope, and sends the signer's output or fails with the signing error (the corrected step) |
| `EngineOutgoing.SignStageAsWritten` | email/engine_outgoing.go:93-106 | as written, the signer reads the empty output buffer and writes into the envelope buffer: enabled, it succeeds exactly when the signer accepts empty input, and then leaves an empty body to send |
| `EngineOutgoing.SigningEmptyInputFails` | email/engine_outgoing.go:93-102 | with a signer that rejects empty input, as DKIM signing does (it finds no header section), the as-written step fails with that signing error whatever the envelope, while the corrected step signs whenever the envelope can be signed |
| `EngineOutgoing.SignedEnvelopeIsLost` | email/engine_outgoing.go:96-105 | for a non-empty envelope and a hypothetical signer that accepts empty input, the as-written step would send nothing while the corrected one sends the signature over the envelope |
| `EngineOutgoing.PlanDelivery` | email/engine_outgoing.go:62-120 | preparation succeeds exactly when encoding, the (corrected) signing step, host extraction and the MX lookup all succeed, and then carries the signed bytes, the host and the records found; any failure is one of the preparation errors |
| `EngineOutgoing.UnsignedBodyIsEnvelope` | email/engine_outgoing.go:103-106 | with DKIM disabled the bytes prepared for sending are exactly the encoded envelope |
| `EngineOutgoing.EnvelopeFailureSkipsLookup` | email/engine_outgoing.go:85-113 | a build, encode or signing failure is reported whatever the resolver and the network would do |
| `EngineOutgoing.AttemptTotal` | email/engine_outgoing.go:130 | at least one attempt; for timeouts of ten seconds or more, the number of whole ten-second slices; one attempt below twenty seconds |
| `EngineOutgoing.HandoffWrapsAround` | email/engine_outgoing.go:131-138 | about `HandoffAt` and `Mx.ServerOf` (`host:25`): attempt `i + n` goes to the same server as attempt `i`, and the first `n` attempts go to the candidates in order |
| `EngineOutgoing.DefaultBudgetWrapsAround` | email/engine_base.go:152 | the default thirty-second timeout gives three attempts, five seconds gives one, and with two servers the third attempt returns to the first |
| `EngineOutgoing.DeliverAttempts` | email/engine_outgoing.go:129-146 | attempt `i` goes to candidate `i mod n`; success exactly when some attempt in the budget succeeds, stopping at the first; otherwise a delivery error with one numbered `i/total` entry per attempt carrying that attempt's error |
| `EngineOutgoing.Engine.New` | email/engine_base.go:148-165 | a new engine has the given domain, a 1024-slot empty queue, a 30-second timeout, the `default` selector and no middleware |
| `EngineOutgoing.Engine.UseOutgoing` | email/engine_outgoing.go:27-29 | the handler is appended after all those registered before |
| `EngineOutgoing.Engine.QueueEmail` | email/engine_outgoing.go:32-39 | accepted exactly when the queue had room, in which case the email is appended at the back; otherwise the queue is unchanged |
| `EngineOutgoing.Engine.SendEmail` | email/engine_outgoing.go:42-149 | no recipients gives its error and no sends; a veto gives the cancellation error; otherwise only the first addressee of the email the middleware passed on is prepared, then attempts over a preference ordering of its MX records, as `DeliverAttempts` states; with DKIM enabled it uses the corrected signing step (see Findings), where the source fails every such send with a signing error |
| `MailOutgoing.Message` | env/MailOutgoing.go:124-175 | a malformed address reads `malformed email address <nil>`, and a delivery with no records at all reads `cannot send email: ` with an empty list |
| `MailOutgoing.CannotSendLists` | env/MailOutgoing.go:173-175 | with comma-free sender errors, the final error separates them with exactly `len - 1` commas |
| `MailOutgoing.Enqueued` | env/MailOutgoing.go:90-96 | the email is appended when the queue is below 1000 and dropped otherwise; the queue never exceeds 1000 |
| `MailOutgoing.Unexpired` | env/MailOutgoing.go:46-52 | a sender survives the sweep exactly when the sweep time is not after its expiry, keeping its expiry |
| `MailOutgoing.SweepMonotone` | env/MailOutgoing.go:46-52 | a later sweep keeps no more than an earlier one, and sweeping twice equals sweeping once at the later time |
| `MailOutgoing.Globals.constructor` | env/MailOutgoing.go:21-22 | the queue and the debounce map start empty |
| `MailOutgoing.Globals.QueueEmail` | env/MailOutgoing.go:90-96 | the queue becomes `Enqueued` of the old queue, and stays within capacity |
| `MailOutgoing.Globals.SweepDebounce` | env/MailOutgoing.go:46-52 | the loop over the map deletes exactly the expired entries |
| `MailOutgoing.EnvelopeOf` | env/MailOutgoing.go:104-120 | the builder gets sender and recipient as given, the subject, the body with the email's content, HTML or text, and one part per attachment in order carrying its inline flag, data, content type and file name |
| `MailOutgoing.PlanDelivery` | env/MailOutgoing.go:101-151 | preparation succeeds exactly when encoding, signing, the URL parse and the MX lookup all succeed, and then carries the signer's output, the parsed host and the records found; a lookup failure names the parsed host, and no preparation failure is a send error |
| `MailOutgoing.EnvelopeFailureSkipsLookup` | env/MailOutgoing.go:122-135 | a build, encode or signing failure is one of those three errors, whatever address parsing, DNS and the network do |
| `MailOutgoing.LookupFailuresDistinct` | env/MailOutgoing.go:144-151 | a not-found answer and any other lookup failure give different errors for the same host |
| `MailOutgoing.TryCandidates` | env/MailOutgoing.go:162-175 | each kept server is tried once, in order; success exactly when one accepts, stopping there; otherwise one collected error per server, in order |
| `MailOutgoing.SendEmail` | env/MailOutgoing.go:99-176 | the first preparation failure is returned with no sends; otherwise the three most preferred records at most are tried in order with the signed envelope |
| `MailBackend.ReplyCode` | env/MailBackend.go:18-22 | an unknown recipient carries code 550 and refused authentication 502; the data reset carries none of its own |
| `MailBackend.RcptAsWritten` | env/MailBackend.go:46-54 | as written, a recipient is accepted exactly when it equals all three inbox addresses at once |
| `MailBackend.RcptAsWrittenRejectsEveryone` | env/MailBackend.go:46-54 | whenever two inbox user names differ, every recipient is refused |
| `MailBackend.RcptAsWrittenRefusesDmarcInbox` | env/MailBackend.go:46-54 | with `DefaultConfig` (domain `example.org`, users `dmarc`, `noreply`, `support`), whose inbox addresses `DmarcAddress`, `NoreplyAddress` and `ForwardInbox` are user `@` domain, `dmarc@example.org` is refused |
| `MailBackend.Rcpt` | env/MailBackend.go:45-54 | a recipient is accepted exactly when it is one of the three inbox addresses; otherwise it gets the unknown-recipient error |
| `MailBackend.AuthMechanisms` | env/MailBackend.go:31-33 | no authentication mechanism is offered |
| `MailBackend.Auth` | env/MailBackend.go:34-36 | every mechanism is refused as unsupported |
| `MailBackend.Mail` | env/MailBackend.go:41-43 | every envelope sender is accepted |
| `MailBackend.Logout` | env/MailBackend.go:38-40 | ending a session never fails |
| `MailBackend.Accept` | env/MailBackend.go:58-84 | a message is accepted exactly when it is read, its envelope and both addresses parse, and `dkim.Verify` returns no error; the accepted message carries the raw bytes, the parsed `To` and `From` addresses and the `Subject` header |
| `MailBackend.UnverifiedMailAccepted` | env/MailBackend.go:81-84 | a message with no DKIM signature, or whose every signature fails, is accepted exactly as a verified one |
| `MailBackend.RouteError` | env/MailBackend.go:86-141 | the session reply is nil exactly for a dropped report, a debounced sender, an auto-reply or a forward |
| `MailBackend.AutoReplyFor` | env/MailBackend.go:107-121 | the auto-reply goes from the noreply inbox to the sender, with subject "Need Help?", the HTML page and the inline `robot.png` image |
| `MailBackend.ForwardFor` | env/MailBackend.go:129-140 | the forward goes from `catchall@domain` to the forward address, subject "Fwd: " and the original subject, with the raw message as a non-inline `message/rfc822` attachment |
| `MailBackend.RouteOf` | env/MailBackend.go:86-141 | DMARC mail is dropped; noreply mail is refused unless the switch is set, then skipped for a present sender or answered; anything else is forwarded when a forward address is set and refused otherwise |
| `MailBackend.Classify` | env/MailBackend.go:57-141 | the reset reply comes exactly when the message is not accepted; otherwise the route is `RouteOf` the accepted message |
| `MailBackend.ExpiryIgnored` | env/MailBackend.go:103-105 | the classification depends only on which senders are in the debounce map, not on their expiries |
| `MailBackend.Receive` | env/MailBackend.go:57-141 | an unaccepted message is reset and a refused, dropped or debounced one answered, all with the state unchanged; an auto-reply stores `now + 1h` for the sender and enqueues `AutoReplyFor`; a forward enqueues `ForwardFor` and leaves the map alone; the queue stays within capacity |
| `MailBackend.RepeatQueuesOneReply` | env/MailBackend.go:103-106 | two messages from the same sender to the noreply inbox, with no sweep between, queue exactly one auto-reply |
| `MailBackend.ReplyAgainAfterSweep` | env/MailBackend.go:106 | after a sweep more than an hour later, the same sender is answered again; this needs a sweep later than `t1 + 1h`, and the source's timer sweeps only once, an hour after start, so a sender answered after that sweep stays silenced until restart |
| `MailBackend.ReportLeavesStateAlone` | env/MailBackend.go:88-90 | a DMARC report is answered with nil and changes neither the queue nor the map |
| `MailBackend.Data` | env/MailBackend.go:57-142 | the session handler returns the reply and leaves the queue and the debounce map exactly as `Receive` says |

## Left out

- Worker goroutines, `Start`/`Shutdown`, `StartupWorkers` and the closing of the queue on shutdown are left out. They are concurrency and lifecycle, and the queues are modelled as sequences.
- The HTTP ingress, the authorization handler, the inbound engine (`engine_incoming`), setup and option loading are left out. Configuration enters as the `Config` value and the engine fields.
- The DKIM key, the TLS material and the embedded noreply page and image are left out. They are opaque values. `{{DOMAIN}}` substitution in the page happens at start-up, outside this model.
- enmime, DKIM, `net/url`, `net/mail`, DNS and SMTP are foreign libraries. They are function parameters, and only how their results are used is modelled. In particular, the DNS error classification is taken as given: not-found versus any other failure.
- The clock is left out. `time.Now()` is one `now` parameter per call. The sweep reads the clock once per entry, and the timer fires once; only one pass of the sweep body is modelled.
- `EngineOutgoing.AttemptTotal` takes the timeout in integer nanoseconds and floors exactly. The source converts through `float64` (`Seconds()/10`). That agrees below about 2^24 seconds (roughly 194 days). From there on, a timeout 1 ns short of a multiple of ten seconds rounds up to it and gets one attempt more than the model gives.
- `EngineOutgoing.Engine.SendEmail` uses the corrected signing step, so with DKIM enabled it sends the signature over the encoded envelope. The source hands the signer an empty input, which DKIM signing rejects, so every DKIM-enabled send fails with `unable to sign envelope` (see Findings; `EngineOutgoing.SignStageAsWritten` and `EngineOutgoing.SigningEmptyInputFails` model the step as written).
- `MailBackend.ReplyCode` gives the code each error value carries. The reply go-smtp writes for a plain error such as the data reset is outside this model.
- Logging is left out (queue-full drops, unknown inboxes, delivery results).
- Races between the timer goroutine and sessions on the debounce map are left out. Each `Data` call and each sweep is taken as atomic.
- `Session.Reset` and `Backend.NewSession` are left out. They have no state or outcome to model.
- `Mx.SortByPref` is a deterministic insertion sort. Its contract, and those of the delivery methods that use it, promise only a preference ordering, because `sort.Slice` leaves the order of equal preferences unspecified.

## Findings

| source | as written | input that shows it | evidently intended | confidence | as-written member | corrected member |
|---|---|---|---|---|---|---|
| env/MailBackend.go:47-49 | the three inequalities are joined with `\|\|`, so any recipient that differs from one inbox is refused | default settings, `RCPT TO:<dmarc@example.org>` | accept exactly the three inbox addresses (`&&`) | high; not executed | `MailBackend.RcptAsWrittenRefusesDmarcInbox` | `MailBackend.Rcpt` |
| email/engine_outgoing.go:96 | `dkim.Sign(&envelope, &complete, …)` makes the still-empty `complete` the signer's input and the envelope buffer its output; signing finds no header section in an empty input and fails, so with DKIM enabled every delivery returns `unable to sign envelope` and nothing is sent | `OutgoingDKIMEnabled` set, any email with a recipient | sign the encoded envelope into `complete` and send that | high for the swapped buffers; medium for the signing error, which rests on the DKIM library's behaviour on empty input; not executed | `EngineOutgoing.SigningEmptyInputFails` | `EngineOutgoing.SignStage` |
