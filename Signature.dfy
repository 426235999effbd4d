/** `verify_signature` (routers/webhook.py): the chain of early-exit checks on the
    `X-Hub-Signature-256` header and the request body. HMAC-SHA256 itself is a
    parameter `mac`; the hex rendering of its digest is `Text.HexDigest`. */
module Signature {
  import opened Wrappers
  import opened Text

  /** The only accepted header shape starts with this tag and separator. */
  const Sha256Prefix: string := "sha256="

  /** Keyed digest of a body: HMAC-SHA256 with the secret as key. */
  type Mac = (string, seq<byte>) -> seq<byte>

  /** The reasons `verify_signature` raises an `HTTPException` (always status 400). */
  datatype AuthError =
    | MissingHeader
    | BadHeaderFormat
    | UnsupportedAlgorithm
    | BodyUnreadable(reason: string)
    | SignatureMismatch

  const BodyReadPrefix: string := "Failed to read request body: "

  /** The `detail` carried by each rejection: only a failed body read starts
      with the body-read prefix, and it ends with the exception's text. */
  function Detail(e: AuthError): (d: string)
    ensures e.BodyUnreadable? <==> BodyReadPrefix <= d
    ensures e.BodyUnreadable? ==> d[|BodyReadPrefix|..] == e.reason
  {
    assert BodyReadPrefix[0] == 'F';
    match e
    case MissingHeader => "Missing X-Hub-Signature-256 header"
    case BadHeaderFormat => "Invalid X-Hub-Signature-256 header format"
    case UnsupportedAlgorithm => "Unsupported signature algorithm"
    case BodyUnreadable(reason) => BodyReadPrefix + reason
    case SignatureMismatch => "Invalid signature"
  }

  /** Each detail names one cause: different errors never share a detail. */
  lemma DetailInjective(e1: AuthError, e2: AuthError)
    ensures Detail(e1) == Detail(e2) <==> e1 == e2
  {
  }

  /** How a call of `verify_signature` ends: it returns, it raises an
      `HTTPException`, or `hmac.compare_digest` raises `TypeError` because the
      received digest is a `str` with non-ASCII characters. */
  datatype Verdict = Verified | Rejected(error: AuthError) | CompareRaised

  /** `header` is the header value (`None` when absent); `body` is what reading
      the request body yields, or the text of the exception it raised. */
  function VerifySignature(header: Option<string>, body: Result<seq<byte>, string>,
                           secret: string, mac: Mac): (v: Verdict)
    ensures v == Rejected(MissingHeader) <==> header.None? || header.value == []
    ensures v.Verified? ==> body.Success?
  {
    if header.None? || header.value == [] then Rejected(MissingHeader)
    else
      var parts := Split(header.value, '=');
      if |parts| != 2 then Rejected(BadHeaderFormat)
      else if parts[0] != "sha256" then Rejected(UnsupportedAlgorithm)
      else if body.Failure? then Rejected(BodyUnreadable(body.error))
      else
        var expected := HexDigest(mac(secret, body.value));
        var received := parts[1];
        if !IsAscii(received) then CompareRaised
        else if expected != received then Rejected(SignatureMismatch)
        else Verified
  }

  /** A header with exactly one `=` carries the `sha256` tag exactly when it
      starts with `sha256=`, and then the received digest is what follows. */
  lemma TagIsSha256(s: string)
    requires Count(s, '=') == 1
    ensures |Split(s, '=')| == 2
    ensures Split(s, '=')[0] == "sha256" <==> Sha256Prefix <= s
    ensures Sha256Prefix <= s ==> Split(s, '=')[1] == s[7..]
  {
    var i := SplitOnce(s, '=');
    if Sha256Prefix <= s {
      assert s[6] == '=';
      assert i == 6;
      assert s[..i] == "sha256";
    }
    if s[..i] == "sha256" {
      assert s[..7] == Sha256Prefix;
    }
  }

  /** The format check rejects exactly the non-empty headers that do not
      contain precisely one `=`. */
  lemma BadFormatIff(header: string, body: Result<seq<byte>, string>, secret: string, mac: Mac)
    ensures VerifySignature(Some(header), body, secret, mac) == Rejected(BadHeaderFormat)
        <==> header != [] && Count(header, '=') != 1
  {
    SplitLength(header, '=');
  }

  /** Of the well-formed headers, exactly those whose tag is not `sha256` are
      rejected as unsupported (the empty tag of `=abc` and `sha1` included). */
  lemma UnsupportedIff(header: string, body: Result<seq<byte>, string>, secret: string, mac: Mac)
    ensures VerifySignature(Some(header), body, secret, mac) == Rejected(UnsupportedAlgorithm)
        <==> Count(header, '=') == 1 && !(Sha256Prefix <= header)
  {
    SplitLength(header, '=');
    if Count(header, '=') == 1 {
      TagIsSha256(header);
    }
  }

  /** The body is read only once the header passed all three header checks,
      and a failed read is reported with the exception's text. */
  lemma BodyUnreadableIff(header: string, body: Result<seq<byte>, string>, secret: string, mac: Mac,
                          reason: string)
    ensures VerifySignature(Some(header), body, secret, mac) == Rejected(BodyUnreadable(reason))
        <==> Count(header, '=') == 1 && Sha256Prefix <= header && body == Failure(reason)
  {
    SplitLength(header, '=');
    if Count(header, '=') == 1 {
      TagIsSha256(header);
    }
  }

  /** A request verifies exactly when its body was read and its header is
      `sha256=` followed by the hex digest of that body under the secret. */
  lemma VerifiedIff(header: string, body: Result<seq<byte>, string>, secret: string, mac: Mac)
    ensures VerifySignature(Some(header), body, secret, mac) == Verified
        <==> body.Success? && header == Sha256Prefix + HexDigest(mac(secret, body.value))
  {
    SplitLength(header, '=');
    if Count(header, '=') == 1 {
      TagIsSha256(header);
      if Sha256Prefix <= header {
        assert header == Sha256Prefix + header[7..];
      }
    }
    if body.Success? && header == Sha256Prefix + HexDigest(mac(secret, body.value)) {
      var d := HexDigest(mac(secret, body.value));
      HexDigestPlain(mac(secret, body.value));
      CountAppend(Sha256Prefix, d, '=');
      TagIsSha256(header);
      assert header[7..] == d;
    }
  }

  /** Round trip: signing a body with the secret and sending `sha256=<hex>`
      always verifies. */
  lemma SignedRequestVerifies(body: seq<byte>, secret: string, mac: Mac)
    ensures VerifySignature(Some(Sha256Prefix + HexDigest(mac(secret, body))), Success(body), secret, mac)
        == Verified
  {
    VerifiedIff(Sha256Prefix + HexDigest(mac(secret, body)), Success(body), secret, mac);
  }

  /** A well-formed `sha256` header with an ASCII digest other than the
      expected one is rejected as an invalid signature. */
  lemma MismatchIff(header: string, body: Result<seq<byte>, string>, secret: string, mac: Mac)
    ensures VerifySignature(Some(header), body, secret, mac) == Rejected(SignatureMismatch)
        <==> Count(header, '=') == 1 && Sha256Prefix <= header && body.Success?
             && IsAscii(header[7..]) && header[7..] != HexDigest(mac(secret, body.value))
  {
    SplitLength(header, '=');
    if Count(header, '=') == 1 {
      TagIsSha256(header);
    }
  }

  /** `compare_digest` raises only for a well-formed `sha256` header whose
      digest part holds a non-ASCII character, once the body has been read. */
  lemma CompareRaisedIff(header: string, body: Result<seq<byte>, string>, secret: string, mac: Mac)
    ensures VerifySignature(Some(header), body, secret, mac) == CompareRaised
        <==> Count(header, '=') == 1 && Sha256Prefix <= header && body.Success?
             && !IsAscii(header[7..])
  {
    SplitLength(header, '=');
    if Count(header, '=') == 1 {
      TagIsSha256(header);
    }
  }

  /** A header whose digest is that of any other byte string than the body's
      MAC is rejected: a forged digest never verifies. */
  lemma ForgedDigestRejected(body: seq<byte>, secret: string, mac: Mac, forged: seq<byte>)
    requires forged != mac(secret, body)
    ensures VerifySignature(Some(Sha256Prefix + HexDigest(forged)), Success(body), secret, mac)
        == Rejected(SignatureMismatch)
  {
    var header := Sha256Prefix + HexDigest(forged);
    HexDigestPlain(forged);
    HexDigestInjective(forged, mac(secret, body));
    CountAppend(Sha256Prefix, HexDigest(forged), '=');
    assert header[7..] == HexDigest(forged);
    MismatchIff(header, Success(body), secret, mac);
  }

  /** The three header checks come before the body is read: when one of them
      rejects, the verdict does not depend on the body, the secret or the MAC. */
  lemma HeaderChecksIgnoreBody(header: Option<string>,
                               body1: Result<seq<byte>, string>, secret1: string, mac1: Mac,
                               body2: Result<seq<byte>, string>, secret2: string, mac2: Mac)
    requires header.None? || Count(header.value, '=') != 1 || !(Sha256Prefix <= header.value)
    ensures VerifySignature(header, body1, secret1, mac1) == VerifySignature(header, body2, secret2, mac2)
    ensures VerifySignature(header, body1, secret1, mac1).Rejected?
    ensures VerifySignature(header, body1, secret1, mac1).error in {MissingHeader, BadHeaderFormat, UnsupportedAlgorithm}
  {
    if header.Some? {
      SplitLength(header.value, '=');
      if Count(header.value, '=') == 1 {
        TagIsSha256(header.value);
      }
    }
  }
}
