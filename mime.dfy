/**
 * The message shape both generations hand to the MIME builder (enmime), and the
 * attachment loop that feeds it. Building and encoding the envelope themselves
 * belong to the library and are an oracle here (`Encoder`).
 */
module Mime {

  newtype byte = x: int | 0 <= x < 256

  /** An attachment of an outgoing email: content type, file name, payload, disposition. */
  datatype Attachment = Attachment(contentType: string, filename: string, data: seq<byte>, inline: bool)

  /** A part added to the builder: `AddInline(data, type, name, contentID)` or `AddAttachment(data, type, name)`. */
  datatype Part =
    | InlinePart(data: seq<byte>, contentType: string, filename: string, contentId: string)
    | AttachedPart(data: seq<byte>, contentType: string, filename: string)

  datatype Body = Html(html: string) | PlainText(text: string)

  /** Everything the builder has been told before `Build()`. */
  datatype Builder = Builder(
    fromName: string, fromAddress: string,
    toName: string, toAddress: string,
    subject: string, body: Body, parts: seq<Part>)

  /** Outcome of `builder.Build()` followed by `part.Encode(&buf)`. */
  datatype Encoded = Encoded(bytes: seq<byte>) | BuildError(reason: string) | EncodeError(reason: string)

  type Encoder = Builder -> Encoded

  /** Outcome of `dkim.Sign` over an encoded envelope (RFC 6376 DKIM signature). */
  datatype Signed = Signed(bytes: seq<byte>) | SignError(reason: string)

  /** `dkim.Sign(envelope)` with the given signing domain and selector. */
  type Signer = (seq<byte>, string, string) -> Signed

  /**
   * `p` is what the builder is told for `a`: inline exactly when `a` is, with its
   * payload, content type and file name, and the file name as content ID.
   */
  predicate Carries(p: Part, a: Attachment)
  {
    && (p.InlinePart? <==> a.inline)
    && p.data == a.data && p.contentType == a.contentType && p.filename == a.filename
    && (p.InlinePart? ==> p.contentId == a.filename)
  }

  /** The part one attachment becomes; an inline part uses its file name as content ID. */
  function PartOf(a: Attachment): (p: Part)
    ensures Carries(p, a)
    ensures forall q :: Carries(q, a) ==> q == p
  {
    if a.inline then InlinePart(a.data, a.contentType, a.filename, a.filename)
    else AttachedPart(a.data, a.contentType, a.filename)
  }

  function Content(b: Body): string
  {
    if b.Html? then b.html else b.text
  }

  /** `builder.HTML(content)` or `builder.Text(content)`: the kind follows the flag, the content is kept. */
  function BodyOf(html: bool, content: string): (b: Body)
    ensures b.Html? <==> html
    ensures Content(b) == content
  {
    if html then Html(content) else PlainText(content)
  }

  /**
   * The loop over the attachments: each one, in order, becomes an inline part
   * when its flag is set and a regular attachment otherwise.
   */
  method AddParts(attachments: seq<Attachment>) returns (parts: seq<Part>)
    ensures |parts| == |attachments|
    ensures forall i :: 0 <= i < |parts| ==> parts[i] == PartOf(attachments[i])
  {
    parts := [];
    var i := 0;
    while i < |attachments|
      invariant 0 <= i <= |attachments|
      invariant |parts| == i
      invariant forall k :: 0 <= k < i ==> parts[k] == PartOf(attachments[k])
    {
      parts := parts + [PartOf(attachments[i])];
      i := i + 1;
    }
  }
}
