/**
 The support attachment on both ends: the extension reads and encodes a file in chunks, and the back end
 checks the text it receives before decoding it, inside a body limit derived from the decoded limit.
 */
module Attachment {
  import opened Common
  import opened Text
  import opened Base64
  import opened PortalHosts

  const MAX_ATTACHMENT_BYTES := 5242880
  const CHUNK_SIZE := 8192
  const ENVELOPE_BYTES := 65536
  const ALLOWED_ATTACHMENT_TYPES := {
    "image/png", "image/jpeg", "image/gif", "image/webp",
    "application/pdf", "text/plain", "application/json", "application/zip"
  }

  datatype File = File(name: string, type_: string, bytes: Bytes)

  datatype Upload = Upload(filename: string, contentType: string, content: string)

  datatype ReadError = TooLarge | Empty | TypeNotAccepted

  datatype ParseError = UnknownType | NotBase64 | EmptyAttachment | OverLimit

  // ---------------------------------------------------------------- the extension

  function ResolveAttachmentType(file: File): Option<string> {
    if file.type_ in ALLOWED_ATTACHMENT_TYPES then Some(file.type_)
    else if file.type_ == "" && (EndsWith(ToLower(file.name), ".txt") || EndsWith(ToLower(file.name), ".log"))
    then Some("text/plain")
    else None
  }

  function Concat(parts: seq<Bytes>): Bytes {
    if parts == [] then [] else Concat(parts[..|parts| - 1]) + parts[|parts| - 1]
  }

  /** fileToBase64: chunks of 8192 bytes, joined and encoded. */
  method FileToBase64(bytes: Bytes) returns (content: string)
    ensures content == Encode(bytes)
  {
    var parts: seq<Bytes> := [];
    var offset := 0;
    while offset < |bytes|
      invariant 0 <= offset
      invariant Concat(parts) == bytes[..Min(offset, |bytes|)]
    {
      var end := Min(offset + CHUNK_SIZE, |bytes|);
      var chunk := bytes[offset..end];
      assert (parts + [chunk])[..|parts|] == parts;
      assert bytes[..offset] + chunk == bytes[..end];
      parts := parts + [chunk];
      offset := offset + CHUNK_SIZE;
    }
    assert bytes[..Min(offset, |bytes|)] == bytes;
    content := Encode(Concat(parts));
  }

  method ReadAttachment(file: Option<File>) returns (r: Result<Option<Upload>, ReadError>)
    ensures r == ReadOutcome(file)
  {
    if file.None? {
      return Ok(None);
    }
    if |file.value.bytes| > MAX_ATTACHMENT_BYTES {
      return Err(TooLarge);
    }
    if |file.value.bytes| == 0 {
      return Err(Empty);
    }
    var contentType := ResolveAttachmentType(file.value);
    if contentType.None? {
      return Err(TypeNotAccepted);
    }
    var content := FileToBase64(file.value.bytes);
    r := Ok(Some(Upload(file.value.name, contentType.value, content)));
  }

  function ReadOutcome(file: Option<File>): Result<Option<Upload>, ReadError> {
    if file.None? then Ok(None)
    else if |file.value.bytes| > MAX_ATTACHMENT_BYTES then Err(TooLarge)
    else if |file.value.bytes| == 0 then Err(Empty)
    else match ResolveAttachmentType(file.value)
      case None => Err(TypeNotAccepted)
      case Some(type_) => Ok(Some(Upload(file.value.name, type_, Encode(file.value.bytes))))
  }

  // ---------------------------------------------------------------- the back end

  /** Math.ceil(maxBytes * 1.4) plus room for the envelope. */
  function BodyLimit(maxBytes: nat): int { CeilDiv(maxBytes * 14, 10) + ENVELOPE_BYTES }

  function ParseAttachment(u: Upload, maxBytes: nat): Result<Upload, ParseError> {
    var contentType, content := Trim(u.contentType), Trim(u.content);
    if contentType !in ALLOWED_ATTACHMENT_TYPES then Err(UnknownType)
    else if !IsBase64(content) then Err(NotBase64)
    else if ByteLength(content) == 0 then Err(EmptyAttachment)
    else if ByteLength(content) > maxBytes then Err(OverLimit)
    else Ok(Upload(Trim(u.filename), contentType, content))
  }

  /** Whatever the back end accepts decodes, to a non-empty content within the configured limit. */
  lemma {:induction false} AcceptedIsWithinLimit(u: Upload, maxBytes: nat)
    requires ParseAttachment(u, maxBytes).Ok?
    ensures var decoded := Decode(ParseAttachment(u, maxBytes).value.content);
            decoded.Some? && 1 <= |decoded.value| <= maxBytes
  {
    LengthIsHonest(Trim(u.content));
  }

  lemma {:induction false} EncodedIsTrimmed(bs: Bytes)
    ensures Trim(Encode(bs)) == Encode(bs)
  {
    var n := EncodedMatches(bs);
    var s := Encode(bs);
    assert forall i | 0 <= i < |s| :: IsDigit(s[i]) || s[i] == '=';
    TrimStays(s);
  }

  /** The encoding of up to maxBytes leaves at least 65,000 bytes of the body for everything else. */
  lemma {:induction false} FitsTheBody(bs: Bytes, maxBytes: nat)
    requires |bs| <= maxBytes
    ensures |Encode(bs)| + 65000 <= BodyLimit(maxBytes)
    ensures BodyLimit(5242880) == 7405568
  {
    EncodedLength(bs);
  }

  /**
   What the extension sends and what it refuses: the size first, then emptiness, then the type, which is the
   file's own if it is accepted, and plain text for an untyped file whose name ends as a text or log file does.
   */
  lemma {:induction false} ReadByFile(file: File)
    ensures var plain := file.type_ == "" && (EndsWith(ToLower(file.name), ".txt") || EndsWith(ToLower(file.name), ".log"));
            var r := ReadOutcome(Some(file));
            && (|file.bytes| > 5242880 ==> r == Err(TooLarge))
            && (|file.bytes| == 0 ==> r == Err(Empty))
            && (1 <= |file.bytes| <= 5242880 ==>
                  && (file.type_ in ALLOWED_ATTACHMENT_TYPES ==> r == Ok(Some(Upload(file.name, file.type_, Encode(file.bytes)))))
                  && (plain ==> r == Ok(Some(Upload(file.name, "text/plain", Encode(file.bytes)))))
                  && (file.type_ !in ALLOWED_ATTACHMENT_TYPES && !plain ==> r == Err(TypeNotAccepted)))
    ensures ReadOutcome(None) == Ok(None)
  {
    assert "" !in ALLOWED_ATTACHMENT_TYPES;
  }

  /** The back end accepts exactly known types and well-formed base64 of something non-empty within its limit. */
  lemma {:induction false} ParseByUpload(u: Upload, maxBytes: nat)
    ensures var type_, content, r := Trim(u.contentType), Trim(u.content), ParseAttachment(u, maxBytes);
            && (r.Ok? <==>
                  && type_ in ALLOWED_ATTACHMENT_TYPES && IsBase64(content)
                  && Decode(content).Some? && 1 <= |Decode(content).value| <= maxBytes)
            && (r.Ok? ==> r == Ok(Upload(Trim(u.filename), type_, content)))
            && (r == Err(UnknownType) <==> type_ !in ALLOWED_ATTACHMENT_TYPES)
            && (r == Err(NotBase64) <==> type_ in ALLOWED_ATTACHMENT_TYPES && Decode(content).None?)
  {
    var content := Trim(u.content);
    if IsBase64(content) { LengthIsHonest(content); }
    if Decode(content).Some? { DecodableIsBase64(content); }
  }

  lemma WhatIsSent(file: File)
    requires ReadOutcome(Some(file)).Ok?
    ensures var u := ReadOutcome(Some(file)).value.value;
            && u.contentType in ALLOWED_ATTACHMENT_TYPES && Trim(u.contentType) == u.contentType
            && u.contentType == (if file.type_ == "" then "text/plain" else file.type_)
            && u.content == Encode(file.bytes) && 1 <= |file.bytes| <= MAX_ATTACHMENT_BYTES
  {
    TrimStays(ReadOutcome(Some(file)).value.value.contentType);
  }

  lemma WhatIsParsed(u: Upload, maxBytes: nat)
    requires u.contentType in ALLOWED_ATTACHMENT_TYPES && Trim(u.contentType) == u.contentType
    requires Trim(u.content) == u.content && IsBase64(u.content) && 1 <= ByteLength(u.content) <= maxBytes
    ensures ParseAttachment(u, maxBytes) == Ok(u.(filename := Trim(u.filename)))
  {}

  /**
   The two ends agree on every file: what the extension accepts, a back end with at least the default
   limit accepts, with the same bytes, the file's own size as the decoded length, and room to spare.
   */
  lemma {:induction false} EndsAgree(file: File, maxBytes: nat)
    requires ReadOutcome(Some(file)).Ok? && maxBytes >= MAX_ATTACHMENT_BYTES
    ensures var u := ReadOutcome(Some(file)).value.value;
            var parsed := ParseAttachment(u, maxBytes);
            && parsed.Ok?
            && parsed.value.content == u.content && parsed.value.contentType == u.contentType
            && u.contentType == (if file.type_ == "" then "text/plain" else file.type_)
            && Decode(u.content) == Some(file.bytes)
            && ByteLength(u.content) == |file.bytes|
            && |u.content| + 65000 <= BodyLimit(maxBytes)
  {
    var u := ReadOutcome(Some(file)).value.value;
    WhatIsSent(file);
    RoundTrip(file.bytes);
    var _ := EncodedMatches(file.bytes);
    EncodedIsTrimmed(file.bytes);
    LengthIsHonest(u.content);
    FitsTheBody(file.bytes, maxBytes);
    WhatIsParsed(u, maxBytes);
  }
}
