/** The body extractor `extract_email_body`, over an abstract MIME message:
    the parts as `msg.walk()` yields them, each with the content type that
    `get_content_type()` reports and the outcome of decoding its payload as
    UTF-8. */
module Body {
  import opened Wrappers

  /** The outcome of `get_payload(decode=True).decode('utf-8')` on one part. */
  datatype Payload = Decoded(text: string) | DecodeFailed

  datatype Part = Part(contentType: string, payload: Payload)

  /** A message is either multipart (its parts in walk order) or single-part. */
  datatype MimeMessage = Multipart(parts: seq<Part>) | SinglePart(payload: Payload)

  const PlainText: string := "text/plain"

  /** `i` is the first `text/plain` part in walk order. */
  ghost predicate FirstPlainAt(parts: seq<Part>, i: int)
  {
    0 <= i < |parts| && parts[i].contentType == PlainText &&
    forall j :: 0 <= j < i ==> parts[j].contentType != PlainText
  }

  /** The decoded payload, or `None` when decoding raised (the exception is
      caught and the extractor falls through to `return None`). */
  function DecodedText(p: Payload): (r: Option<string>)
    ensures r.Some? <==> p.Decoded?
    ensures p.Decoded? ==> r.value == p.text
  {
    match p
    case Decoded(t) => Some(t)
    case DecodeFailed => None
  }

  /** The `for part in msg.walk()` search: the index of the first
      `text/plain` part, `None` when there is none. */
  function FirstPlainIndex(parts: seq<Part>): (r: Option<nat>)
    ensures r.Some? ==> FirstPlainAt(parts, r.value)
    ensures r.None? ==> forall j :: 0 <= j < |parts| ==> parts[j].contentType != PlainText
  {
    if parts == [] then None
    else if parts[0].contentType == PlainText then Some(0)
    else
      match FirstPlainIndex(parts[1..])
      case None => None
      case Some(k) => Some(k + 1)
  }

  /** The body of a message: the decoded payload of a single-part message
      (whatever its content type), or of the first `text/plain` part of a
      multipart one. `BodyIsFirstPlainPart` states the multipart case. */
  function ExtractEmailBody(msg: MimeMessage): (body: Option<string>)
    ensures msg.SinglePart? ==> body == DecodedText(msg.payload)
  {
    match msg
    case SinglePart(payload) => DecodedText(payload)
    case Multipart(parts) =>
      match FirstPlainIndex(parts)
      case Some(i) => DecodedText(parts[i].payload)
      case None => None
  }

  /** A multipart message yields the decoded payload of its first
      `text/plain` part; it yields `None` when it has no such part, and also
      when that part fails to decode (later `text/plain` parts are not tried,
      since the exception leaves the loop). */
  lemma BodyIsFirstPlainPart(parts: seq<Part>)
    ensures ExtractEmailBody(Multipart(parts)).Some? ==>
              exists i :: FirstPlainAt(parts, i) && parts[i].payload == Decoded(ExtractEmailBody(Multipart(parts)).value)
    ensures forall i :: FirstPlainAt(parts, i) ==> ExtractEmailBody(Multipart(parts)) == DecodedText(parts[i].payload)
    ensures (forall i :: 0 <= i < |parts| ==> parts[i].contentType != PlainText) ==> ExtractEmailBody(Multipart(parts)).None?
  {
    var r := FirstPlainIndex(parts);
    if r.Some? {
      assert FirstPlainAt(parts, r.value);
    }
  }

  /** A decode failure of the first `text/plain` part gives `None` even when a
      later `text/plain` part would decode. */
  lemma {:induction false} DecodeFailureStopsSearch(parts: seq<Part>, later: Part)
    requires |parts| > 0 && parts[0] == Part(PlainText, DecodeFailed)
    requires later.contentType == PlainText && later.payload.Decoded?
    ensures ExtractEmailBody(Multipart(parts + [later])) == None
  {
    BodyIsFirstPlainPart(parts + [later]);
    assert FirstPlainAt(parts + [later], 0);
  }
}
