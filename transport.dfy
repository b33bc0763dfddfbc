/** The HTTP layer of the instance client: URL normalisation, request bodies
    built from parameter maps, and the classification of one exchange with the
    server into a body or a failure. The HTTP client itself is abstract: a
    request is a value, and what the server answers is an `Exchange`. */
module Transport {
  import opened Common

  /** HttpStatus.SC_OK */
  const SC_OK := 200

  // ---------------------------------------------------------------- URLs

  /** `url.replace(" ", "%20")`: the URL with every space percent-encoded. */
  function NormalizeUrl(url: string): (r: string)
    ensures ' ' !in r
    ensures |r| >= |url|
  {
    if url == [] then [] else EncodeChar(url[0]) + NormalizeUrl(url[1..])
  }

  /** What one character of a URL becomes. */
  function EncodeChar(c: char): string
  {
    if c == ' ' then "%20" else [c]
  }

  /** The server's reading of a URL path: every `%20` stands for a space. */
  function DecodeSpaces(s: string): string
  {
    if |s| >= 3 && s[..3] == "%20" then " " + DecodeSpaces(s[3..])
    else if s == [] then []
    else [s[0]] + DecodeSpaces(s[1..])
  }

  /** Normalising changes nothing but the spaces: on a URL with no `%` of its own,
      decoding the `%20`s gives back exactly the original URL. */
  lemma {:induction false} NormalizeUrlRoundTrip(url: string)
    requires '%' !in url
    ensures DecodeSpaces(NormalizeUrl(url)) == url
  {
    if url != [] {
      var rest := NormalizeUrl(url[1..]);
      NormalizeUrlRoundTrip(url[1..]);
      if url[0] == ' ' {
        var s := "%20" + rest;
        assert NormalizeUrl(url) == s;
        assert s[..3] == "%20" && s[3..] == rest;
      } else {
        var s := [url[0]] + rest;
        assert NormalizeUrl(url) == s;
        assert s[0] == url[0] && s[1..] == rest;
        assert url == [url[0]] + url[1..];
      }
    }
  }

  /** A URL without spaces is sent as it is. */
  lemma {:induction false} NormalizeUrlWithoutSpaces(url: string)
    requires ' ' !in url
    ensures NormalizeUrl(url) == url
  {
    if url != [] {
      NormalizeUrlWithoutSpaces(url[1..]);
      assert url == [url[0]] + url[1..];
    }
  }

  /** Normalisation works character by character, so each piece of a URL (base,
      service suffix, package path) is encoded independently of the others. */
  lemma {:induction false} NormalizeUrlConcat(a: string, b: string)
    ensures NormalizeUrl(a + b) == NormalizeUrl(a) + NormalizeUrl(b)
  {
    if a == [] {
      assert a + b == b;
    } else {
      var ab := a + b;
      assert ab[0] == a[0] && ab[1..] == a[1..] + b;
      calc {
        NormalizeUrl(ab);
        EncodeChar(a[0]) + NormalizeUrl(a[1..] + b);
        { NormalizeUrlConcat(a[1..], b); }
        EncodeChar(a[0]) + (NormalizeUrl(a[1..]) + NormalizeUrl(b));
        NormalizeUrl(a) + NormalizeUrl(b);
      }
    }
  }

  // ---------------------------------------------------------------- request parameters

  /** A parameter value: a file, or any other object, which is sent as its `toString()`. */
  datatype ParamValue = FileValue(file: LocalFile) | BoolValue(flag: bool) | TextValue(text: string)

  /** `value.toString()` */
  function ValueText(value: ParamValue): string
  {
    match value
    case FileValue(file) => file.path
    case BoolValue(flag) => if flag then "true" else "false"
    case TextValue(text) => text
  }

  /** A parameter map, in its iteration order (Kotlin's `mapOf` keeps insertion order). */
  type Params = seq<(string, ParamValue)>

  datatype Part = BinaryPart(name: string, file: LocalFile) | TextPart(name: string, text: string)

  /** Kotlin's `Char.isWhitespace()` on the JVM: Java's whitespace characters and
      Unicode space separators (including the no-break spaces). */
  predicate IsWhitespace(c: char)
  {
    var n := c as int;
    (9 <= n <= 13) || (28 <= n <= 32) || n == 0xA0 || n == 0x1680
    || (0x2000 <= n <= 0x200A) || n == 0x2028 || n == 0x2029
    || n == 0x202F || n == 0x205F || n == 0x3000
  }

  /** `isBlank()`: empty or whitespace only. */
  predicate IsBlank(s: string)
  {
    forall i :: 0 <= i < |s| ==> IsWhitespace(s[i])
  }

  /** The part, if any, that one map entry contributes to a multipart body. */
  function EntryParts(key: string, value: ParamValue): seq<Part>
  {
    match value
    case FileValue(file) => if file.onDisk then [BinaryPart(key, file)] else []
    case _ => if IsBlank(ValueText(value)) then [] else [TextPart(key, ValueText(value))]
  }

  /** The parts of the multipart body built from `params`, in the map's order. */
  function MultipartParts(params: Params): (parts: seq<Part>)
    ensures |parts| <= |params|
  {
    if params == [] then []
    else MultipartParts(params[..|params| - 1]) + EntryParts(params[|params| - 1].0, params[|params| - 1].1)
  }

  /** createEntityMultipart: adds, entry by entry, an existing file as a binary
      part and any other value with a non-blank text as a text part. */
  method BuildMultipart(params: Params) returns (parts: seq<Part>)
    ensures parts == MultipartParts(params)
  {
    parts := [];
    for i := 0 to |params|
      invariant parts == MultipartParts(params[..i])
    {
      var (key, value) := params[i];
      match value {
        case FileValue(file) =>
          if file.onDisk {
            parts := parts + [BinaryPart(key, file)];
          }
        case _ =>
          var text := ValueText(value);
          if !IsBlank(text) {
            parts := parts + [TextPart(key, text)];
          }
      }
      assert params[..i + 1][..i] == params[..i];
    }
    assert params[..|params|] == params;
  }

  /** Every part of the body comes from some entry of the map. */
  lemma {:induction false} PartContributor(params: Params, part: Part) returns (i: nat)
    requires part in MultipartParts(params)
    ensures i < |params| && part in EntryParts(params[i].0, params[i].1)
  {
    var n := |params| - 1;
    var init := params[..n];
    assert MultipartParts(params) == MultipartParts(init) + EntryParts(params[n].0, params[n].1);
    if part in MultipartParts(init) {
      i := PartContributor(init, part);
      assert init[i] == params[i];
    } else {
      i := n;
    }
  }

  /** Every part an entry contributes is in the body. */
  lemma {:induction false} ContributedPart(params: Params, part: Part, i: nat)
    requires i < |params| && part in EntryParts(params[i].0, params[i].1)
    ensures part in MultipartParts(params)
  {
    var n := |params| - 1;
    var init := params[..n];
    assert MultipartParts(params) == MultipartParts(init) + EntryParts(params[n].0, params[n].1);
    if i < n {
      assert init[i] == params[i];
      ContributedPart(init, part, i);
    }
  }

  /** A part is in the body exactly when some entry of the map contributes it. */
  lemma MultipartPartsMembership(params: Params, part: Part)
    ensures part in MultipartParts(params)
        <==> exists i :: 0 <= i < |params| && part in EntryParts(params[i].0, params[i].1)
  {
    if part in MultipartParts(params) {
      var i := PartContributor(params, part);
    }
    if exists i :: 0 <= i < |params| && part in EntryParts(params[i].0, params[i].1) {
      var i :| 0 <= i < |params| && part in EntryParts(params[i].0, params[i].1);
      ContributedPart(params, part, i);
    }
  }

  /** A file is sent as a binary part under its key exactly when the map holds
      it and it is on disk. */
  lemma MultipartFileRule(params: Params, key: string, file: LocalFile)
    ensures BinaryPart(key, file) in MultipartParts(params)
        <==> (key, FileValue(file)) in params && file.onDisk
  {
    MultipartPartsMembership(params, BinaryPart(key, file));
    if (key, FileValue(file)) in params && file.onDisk {
      var i :| 0 <= i < |params| && params[i] == (key, FileValue(file));
      assert BinaryPart(key, file) in EntryParts(params[i].0, params[i].1);
    }
  }

  /** A text part is sent exactly when its text is not blank and some non-file
      entry of the map has that key and stringifies to exactly that text. */
  lemma MultipartTextRule(params: Params, key: string, text: string)
    ensures TextPart(key, text) in MultipartParts(params)
        <==> !IsBlank(text) && (exists i :: 0 <= i < |params| && params[i].0 == key
                                  && !params[i].1.FileValue? && ValueText(params[i].1) == text)
  {
    MultipartPartsMembership(params, TextPart(key, text));
  }

  /** The pairs of the url-encoded body built from `params`: every entry, as `toString()`. */
  function UrlencodedPairs(params: Params): seq<(string, string)>
  {
    seq(|params|, i requires 0 <= i < |params| => (params[i].0, ValueText(params[i].1)))
  }

  /** createEntityUrlencoded: folds every entry, unconditionally, into a list of
      name/value pairs. */
  method BuildUrlencoded(params: Params) returns (pairs: seq<(string, string)>)
    ensures |pairs| == |params|
    ensures forall i :: 0 <= i < |params| ==> pairs[i] == (params[i].0, ValueText(params[i].1))
  {
    pairs := [];
    for i := 0 to |params|
      invariant |pairs| == i
      invariant forall j :: 0 <= j < i ==> pairs[j] == (params[j].0, ValueText(params[j].1))
    {
      pairs := pairs + [(params[i].0, ValueText(params[i].1))];
    }
  }

  // ---------------------------------------------------------------- requests and responses

  datatype Verb = HttpGet | HttpPost

  datatype Body = NoBody | Multipart(parts: seq<Part>) | Urlencoded(pairs: seq<(string, string)>)

  /** The settings a fresh HTTP client is built with for each request: basic-auth
      credentials (sent preemptively), connection timeout, trust of untrusted TLS
      certificates, and the HTTP client's own automatic retries. */
  datatype ClientSettings = ClientSettings(
    user: string, password: string, timeout: int, untrustedSsl: bool, automaticRetries: bool)

  datatype Request = Request(verb: Verb, url: string, body: Body, client: ClientSettings)

  /** What one request yields: a response with its status code, status line and
      body, or the exception the HTTP client (or a hook) threw. */
  datatype Exchange = Response(statusCode: int, statusLine: string, body: string) | Fault(cause: Exception)

  /** get(url) */
  function GetRequest(url: string, client: ClientSettings): Request
  {
    Request(HttpGet, NormalizeUrl(url), NoBody, client)
  }

  /** postMultipart(url, params) */
  function MultipartRequest(url: string, params: Params, client: ClientSettings): Request
  {
    Request(HttpPost, NormalizeUrl(url), Multipart(MultipartParts(params)), client)
  }

  /** postUrlencoded(url, params) */
  function UrlencodedRequest(url: string, params: Params, client: ClientSettings): Request
  {
    Request(HttpPost, NormalizeUrl(url), Urlencoded(UrlencodedPairs(params)), client)
  }

  /** fetch through execute: the body is returned exactly when the status is
      200; every other outcome is thrown as a DeployException "Failed instance
      request: ..." wrapping what went wrong. */
  function FetchResult(exchange: Exchange): (r: Result<string>)
    ensures r.Ok? <==> exchange.Response? && exchange.statusCode == SC_OK
    ensures r.Ok? ==> r.value == exchange.body
    ensures r.Err? ==> r.error.DeployException? && r.error.cause.Some?
                       && r.error.message == "Failed instance request: " + r.error.cause.value.message
    ensures exchange.Fault? ==> r.error.cause == Some(exchange.cause)
    ensures exchange.Response? && exchange.statusCode != SC_OK ==>
              r.error.cause == Some(DeployException("Unexpected instance response: " + exchange.statusLine, None))
  {
    match exchange
    case Fault(cause) => Err(Wrap("Failed instance request: " + cause.message, cause))
    case Response(code, line, body) =>
      if code == SC_OK then Ok(body)
      else
        var unexpected := DeployException("Unexpected instance response: " + line, None);
        Err(Wrap("Failed instance request: " + unexpected.message, unexpected))
  }
}
