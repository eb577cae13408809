/**
 * Request signing (client.go `generateAuth`) and request-body marshalling
 * (`marshalRequest`). HMAC-SHA256 is a parameter `mac` of the signer: any
 * function from (key, message) to a 32-byte digest. The wall-clock reading
 * in milliseconds is the parameter `now`.
 */
module Auth {
  import opened Wrappers
  import opened Encoding
  import opened Errors

  /** A SHA-256 sized MAC. */
  type Digest = s: seq<Byte> | |s| == 32 witness seq(32, _ => 0)

  /** HMAC-SHA256 keyed by its first argument over its second. */
  type Mac = (string, string) -> Digest

  /** The signed text: the time, the method, the path, an empty line, then the body. */
  function CanonicalMessage(now: int, httpMethod: string, path: string, body: string): (m: string)
    ensures |m| == |Decimal(now)| + |httpMethod| + |path| + |body| + 8
    ensures m[..|Decimal(now)|] == Decimal(now) && m[|Decimal(now)|..|Decimal(now)| + 2] == "\r\n"
    ensures m[|m| - |body| - 4..|m| - |body|] == "\r\n\r\n" && m[|m| - |body|..] == body
  {
    var d := Decimal(now);
    var m := d + "\r\n" + httpMethod + "\r\n" + path + "\r\n\r\n" + body;
    assert m[|d|..|d| + 2] == "\r\n";
    assert m[|m| - |body| - 4..|m| - |body|] == "\r\n\r\n";
    m
  }

  /**
   * The `Authorization` header value: `hmac `, the key, `:`, the time, `:`,
   * then the hex MAC of the canonical message under the secret.
   */
  function GenerateAuth(mac: Mac, apiKey: string, secret: string,
                        httpMethod: string, path: string, body: string, now: int): (header: string)
    ensures |header| == |"hmac "| + |apiKey| + 1 + |Decimal(now)| + 1 + 64
    ensures header[..5] == "hmac " && header[5..5 + |apiKey|] == apiKey
    ensures header[5 + |apiKey|] == ':' && header[|header| - 65] == ':'
    ensures header[6 + |apiKey|..|header| - 65] == Decimal(now)
    ensures forall i :: |header| - 64 <= i < |header| ==> IsLowerHex(header[i])
    ensures HexDecode(header[|header| - 64..]) == Some(mac(secret, CanonicalMessage(now, httpMethod, path, body)))
  {
    var digest := mac(secret, CanonicalMessage(now, httpMethod, path, body));
    HeaderLayout(apiKey, Decimal(now), digest);
    "hmac " + apiKey + ":" + Decimal(now) + ":" + HexEncode(digest)
  }

  /** Where each part of a `hmac key:time:signature` header sits. */
  lemma HeaderLayout(apiKey: string, d: string, digest: Digest)
    ensures var h := "hmac " + apiKey + ":" + d + ":" + HexEncode(digest);
      && |h| == |"hmac "| + |apiKey| + 1 + |d| + 1 + 64
      && h[..5] == "hmac " && h[5..5 + |apiKey|] == apiKey
      && h[5 + |apiKey|] == ':' && h[|h| - 65] == ':'
      && h[6 + |apiKey|..|h| - 65] == d
      && (forall i :: |h| - 64 <= i < |h| ==> IsLowerHex(h[i]))
      && HexDecode(h[|h| - 64..]) == Some(digest)
  {
    var sig := HexEncode(digest);
    var h := "hmac " + apiKey + ":" + d + ":" + sig;
    HexRoundTrip(digest);
    assert h[6 + |apiKey|..|h| - 65] == d;
    assert h[|h| - 64..] == sig;
    assert forall i :: |h| - 64 <= i < |h| ==> h[i] == sig[i - (|h| - 64)];
  }

  /** What a server reads out of an `Authorization` header. */
  datatype AuthFields = AuthFields(apiKey: string, timestamp: int, signature: seq<Byte>)

  /** Reads a header of the form `GenerateAuth` writes; None for anything else. */
  function ParseAuth(header: string): Option<AuthFields> {
    if |header| < 5 || header[..5] != "hmac " then None
    else match SplitAt(header[5..], ':')
      case None => None
      case Some((apiKey, rest)) =>
        match SplitAt(rest, ':')
        case None => None
        case Some((ts, sig)) =>
          match (ParseDecimal(ts), HexDecode(sig))
          case (Some(t), Some(bytes)) => Some(AuthFields(apiKey, t, bytes))
          case _ => None
  }

  /** `s` cut at its first CR LF; None if its first CR is not followed by LF. */
  function SplitLine(s: string): Option<(string, string)> {
    match SplitAt(s, '\r')
    case None => None
    case Some((line, rest)) => if 0 < |rest| && rest[0] == '\n' then Some((line, rest[1..])) else None
  }

  lemma SplitLineAfter(line: string, rest: string)
    requires '\r' !in line
    ensures SplitLine(line + "\r\n" + rest) == Some((line, rest))
  {
    assert line + "\r\n" + rest == line + ['\r'] + ("\n" + rest);
    SplitAfterPrefix(line, '\r', "\n" + rest);
  }

  /** Reads back the four parts of a canonical message; None if it has another shape. */
  function ParseCanonical(m: string): Option<(int, string, string, string)> {
    match SplitLine(m)
    case None => None
    case Some((ts, r1)) =>
      match SplitLine(r1)
      case None => None
      case Some((httpMethod, r2)) =>
        match SplitLine(r2)
        case None => None
        case Some((path, r3)) =>
          match (ParseDecimal(ts), SplitLine(r3))
          case (Some(t), Some(("", body))) => Some((t, httpMethod, path, body))
          case _ => None
  }

  /** A server holding the secret recomputes the signature for the request it got. */
  predicate Verify(mac: Mac, secret: string, httpMethod: string, path: string, body: string, header: string) {
    match ParseAuth(header)
    case None => false
    case Some(fields) => fields.signature == mac(secret, CanonicalMessage(fields.timestamp, httpMethod, path, body))
  }

  lemma DecimalHasNoSeparators(n: int)
    ensures ':' !in Decimal(n) && '\r' !in Decimal(n)
  {
  }

  /**
   * The canonical message determines its timestamp, method, path and body,
   * as long as the method and the path hold no carriage return.
   */
  lemma CanonicalRoundTrip(now: int, httpMethod: string, path: string, body: string)
    requires '\r' !in httpMethod && '\r' !in path
    ensures ParseCanonical(CanonicalMessage(now, httpMethod, path, body)) == Some((now, httpMethod, path, body))
  {
    var d := Decimal(now);
    DecimalHasNoSeparators(now);
    var r3 := "" + "\r\n" + body;
    var r2 := path + "\r\n" + r3;
    var r1 := httpMethod + "\r\n" + r2;
    assert CanonicalMessage(now, httpMethod, path, body) == d + "\r\n" + r1;
    SplitLineAfter(d, r1);
    SplitLineAfter(httpMethod, r2);
    SplitLineAfter(path, r3);
    SplitLineAfter("", body);
    DecimalRoundTrip(now);
  }

  /** Two requests with different contents or times sign different messages. */
  lemma CanonicalInjective(t1: int, m1: string, p1: string, b1: string,
                           t2: int, m2: string, p2: string, b2: string)
    requires '\r' !in m1 && '\r' !in p1 && '\r' !in m2 && '\r' !in p2
    requires CanonicalMessage(t1, m1, p1, b1) == CanonicalMessage(t2, m2, p2, b2)
    ensures t1 == t2 && m1 == m2 && p1 == p2 && b1 == b2
  {
    CanonicalRoundTrip(t1, m1, p1, b1);
    CanonicalRoundTrip(t2, m2, p2, b2);
  }

  /**
   * The header carries the key, the same timestamp that was signed, and the
   * MAC of the canonical message, all recoverable when the key has no ':'.
   */
  lemma AuthRoundTrip(mac: Mac, apiKey: string, secret: string,
                      httpMethod: string, path: string, body: string, now: int)
    requires ':' !in apiKey
    ensures ParseAuth(GenerateAuth(mac, apiKey, secret, httpMethod, path, body, now))
      == Some(AuthFields(apiKey, now, mac(secret, CanonicalMessage(now, httpMethod, path, body))))
  {
    ParseLayout(apiKey, now, mac(secret, CanonicalMessage(now, httpMethod, path, body)));
  }

  /** Reading back a header assembled from a key without ':', a time and a digest. */
  lemma ParseLayout(apiKey: string, now: int, digest: Digest)
    requires ':' !in apiKey
    ensures ParseAuth("hmac " + apiKey + ":" + Decimal(now) + ":" + HexEncode(digest))
      == Some(AuthFields(apiKey, now, digest))
  {
    var sig := HexEncode(digest);
    var d := Decimal(now);
    var header := "hmac " + apiKey + ":" + d + ":" + sig;
    assert header == "hmac " + (apiKey + [':'] + (d + [':'] + sig));
    assert header[..5] == "hmac ";
    assert header[5..] == apiKey + [':'] + (d + [':'] + sig);
    SplitAfterPrefix(apiKey, ':', d + [':'] + sig);
    DecimalHasNoSeparators(now);
    SplitAfterPrefix(d, ':', sig);
    DecimalRoundTrip(now);
    HexRoundTrip(digest);
  }

  /** A generated header passes the server's check for the request it signed. */
  lemma GeneratedAuthVerifies(mac: Mac, apiKey: string, secret: string,
                              httpMethod: string, path: string, body: string, now: int)
    requires ':' !in apiKey
    ensures Verify(mac, secret, httpMethod, path, body, GenerateAuth(mac, apiKey, secret, httpMethod, path, body, now))
  {
    AuthRoundTrip(mac, apiKey, secret, httpMethod, path, body, now);
  }

  /** The request value handed to the transport; the JSON encoder's outcome is abstract. */
  datatype ApiRequest = NilRequest | Payload(encoded: Result<string, string>)

  /**
   * What the transport gets: the reader it sends (nil for no body, else the
   * bytes it will stream) and the bytes that get signed.
   */
  datatype Marshalled = Marshalled(reader: Option<string>, body: string)

  /**
   * `marshalRequest`: no reader and no bytes for a nil request; otherwise
   * the encoding, streamed by the reader and signed as the body, or the
   * encoder's error.
   */
  function MarshalRequest(req: ApiRequest): (r: Result<Marshalled, Error>)
    ensures r.Success? ==> (r.value.reader.Some? <==> req.Payload?)
    ensures r.Success? && r.value.reader.Some? ==> r.value.reader.value == r.value.body
    ensures req.NilRequest? ==> r.Success? && r.value.body == ""
    ensures req.Payload? ==> (r.Success? <==> req.encoded.Success?)
    ensures req.Payload? && r.Success? ==> r.value.body == req.encoded.value
    ensures r.Failure? ==> req.Payload? && r.error == Foreign(req.encoded.error)
  {
    match req
    case NilRequest => Success(Marshalled(None, ""))
    case Payload(Success(json)) => Success(Marshalled(Some(json), json))
    case Payload(Failure(reason)) => Failure(Foreign(reason))
  }

  /** A nil request is signed with an empty body segment. */
  lemma NilRequestSignsEmptyBody(now: int, httpMethod: string, path: string)
    requires '\r' !in httpMethod && '\r' !in path
    ensures MarshalRequest(NilRequest).Success?
    ensures ParseCanonical(CanonicalMessage(now, httpMethod, path, MarshalRequest(NilRequest).value.body))
      == Some((now, httpMethod, path, ""))
  {
    CanonicalRoundTrip(now, httpMethod, path, "");
  }
}
