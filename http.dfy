/** HTTP/1.x message values as the pipeline's handlers see them: request heads,
    response heads, body parts and the end-of-message marker, with the header
    predicates the handlers consult. */
module Http {

  newtype byte = x: int | 0 <= x < 256

  datatype Option<T> = None | Some(value: T)

  datatype Version = Version(major: nat, minor: nat)

  const HTTP_1_0: Version := Version(1, 0)
  const HTTP_1_1: Version := Version(1, 1)

  /** The header names the core reads or writes. */
  datatype HeaderName = ContentType | ContentLength | TransferEncoding | CacheControl | Connection

  /** Each header name carries the list of its values, in the order they were added. */
  type Headers = map<HeaderName, seq<string>>

  const NoHeaders: Headers := map[]

  function Values(h: Headers, n: HeaderName): seq<string>
  {
    if n in h then h[n] else []
  }

  /** `headers().set(n, v)`: the values of `n` become exactly `[v]`. */
  function Set(h: Headers, n: HeaderName, v: string): (r: Headers)
    ensures Values(r, n) == [v]
    ensures forall k :: k != n ==> Values(r, k) == Values(h, k)
  {
    h[n := [v]]
  }

  /** `headers().add(n, v)`: `v` is appended to the values of `n`. */
  function Add(h: Headers, n: HeaderName, v: string): (r: Headers)
    ensures Values(r, n) == Values(h, n) + [v]
    ensures forall k :: k != n ==> Values(r, k) == Values(h, k)
  {
    h[n := Values(h, n) + [v]]
  }

  /** A response head. `keepAlive` records that the response was marked keep-alive. */
  datatype Response = Response(version: Version, status: nat, headers: Headers, keepAlive: bool)

  /** A request head. `connection` is the list of options of its Connection header,
      already split on commas and lower-cased by the parser. */
  datatype Request = Request(version: Version, verb: string, uri: string, connection: seq<string>)

  /** Outbound messages: a head alone, a body part, the empty end-of-message, and a
      full response, which is a head and an end-of-message at once. */
  datatype Msg =
    | Head(response: Response)
    | Content(body: seq<byte>)
    | Last
    | Full(response: Response, body: seq<byte>)

  predicate IsResponse(m: Msg)
  {
    m.Head? || m.Full?
  }

  predicate IsLast(m: Msg)
  {
    m.Last? || m.Full?
  }

  /** The same message with its head replaced. */
  function WithResponse(m: Msg, r: Response): (out: Msg)
    requires IsResponse(m)
    ensures IsResponse(out) && out.response == r
    ensures IsLast(out) == IsLast(m) && out.Full? == m.Full?
    ensures m.Full? ==> out.body == m.body
  {
    match m
    case Head(_) => Head(r)
    case Full(_, b) => Full(r, b)
  }

  /** Inbound messages in the order the parser produces them. */
  datatype InMsg = RequestHead(request: Request) | RequestContent(bytes: seq<byte>) | RequestLast

  predicate ContentLengthSet(r: Response)
  {
    Values(r.headers, ContentLength) != []
  }

  predicate ChunkedSet(r: Response)
  {
    "chunked" in Values(r.headers, TransferEncoding)
  }

  /** A head from which the codec can frame the body: exactly one of Content-Length
      (section 3.3.2 of RFC 7230) or chunked transfer coding (section 4.1). */
  predicate ExactlyOneFraming(r: Response)
  {
    ContentLengthSet(r) != ChunkedSet(r)
  }

  predicate AtMostOneFraming(r: Response)
  {
    !(ContentLengthSet(r) && ChunkedSet(r))
  }

  predicate AtLeast11(v: Version)
  {
    v.major > 1 || (v.major == 1 && v.minor >= 1)
  }

  /** Persistence as section 6.3 of RFC 7230 decides it: a "close" option ends the
      connection; otherwise HTTP/1.1 and later persist, and HTTP/1.0 persists only
      with a "keep-alive" option. */
  predicate KeepAlive(req: Request)
  {
    if "close" in req.connection then false
    else if AtLeast11(req.version) then true
    else req.version == HTTP_1_0 && "keep-alive" in req.connection
  }

  /** Text to bytes for the ASCII literals the application writes. */
  function Ascii(s: string): (b: seq<byte>)
    ensures |b| == |s|
  {
    seq(|s|, i requires 0 <= i < |s| => (s[i] as int % 256) as byte)
  }

  predicate IsDigit(c: char)
  {
    '0' <= c <= '9'
  }

  predicate AllDigits(s: string)
  {
    forall i :: 0 <= i < |s| ==> IsDigit(s[i])
  }

  function DigitChar(d: nat): (c: char)
    requires d < 10
    ensures IsDigit(c)
  {
    ('0' as int + d) as char
  }

  function DigitValue(c: char): (d: nat)
    requires IsDigit(c)
    ensures d < 10
  {
    c as int - '0' as int
  }

  /** The decimal text of a number, as a header value set from an integer reads. */
  function Decimal(n: nat): (s: string)
    ensures |s| > 0 && AllDigits(s)
    ensures |s| > 1 ==> s[0] != '0'
    decreases n
  {
    if n < 10 then [DigitChar(n)] else Decimal(n / 10) + [DigitChar(n % 10)]
  }

  /** The number a header value of decimal digits stands for. */
  function ParseDecimal(s: string): (r: Option<nat>)
    ensures r.Some? <==> |s| > 0 && AllDigits(s)
    decreases |s|
  {
    if |s| == 0 || !IsDigit(s[|s| - 1]) then None
    else if |s| == 1 then Some(DigitValue(s[0]))
    else match ParseDecimal(s[..|s| - 1])
      case None => None
      case Some(v) => Some(10 * v + DigitValue(s[|s| - 1]))
  }

  lemma {:induction false} ParseDecimalOfDecimal(n: nat)
    ensures ParseDecimal(Decimal(n)) == Some(n)
    decreases n
  {
    if n >= 10 {
      var s := Decimal(n);
      ParseDecimalOfDecimal(n / 10);
      assert s[..|s| - 1] == Decimal(n / 10);
      assert DigitValue(s[|s| - 1]) == n % 10;
    }
  }
}
