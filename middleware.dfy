// The request/response middleware of the admin API: it records the caller's address, the
// headers and the body for the request log, picks the response language, and after the
// handlers have run turns the code they left in the context into the HTTP status and body.
module RequestMiddleware {
  import opened Wrappers
  import opened Text
  import opened Values

  /** Request headers as net/http holds them: canonical name to its values. */
  type Header = map<string, seq<string>>

  /** The bytes textproto accepts in a header name: the token characters of RFC 7230. */
  predicate IsTokenChar(c: char)
  {
    ('a' <= c <= 'z') || ('A' <= c <= 'Z') || ('0' <= c <= '9')
    || c == '!' || c == '#' || c == '$' || c == '%' || c == '&' || c == '\'' || c == '*'
    || c == '+' || c == '-' || c == '.' || c == '^' || c == '_' || c == '`' || c == '|' || c == '~'
  }

  /** One byte of a canonical name: upper-case at the start of a word, lower-case inside it. */
  function CaseAt(c: char, wordStart: bool): char
  {
    if wordStart && 'a' <= c <= 'z' then (c as int - 32) as char
    else if !wordStart && 'A' <= c <= 'Z' then (c as int + 32) as char
    else c
  }

  /** Whether position i starts a word of a header name: the front, or just after a '-'. */
  function WordStart(key: string, i: nat): bool
    requires i < |key|
  {
    i == 0 || key[i - 1] == '-'
  }

  /** A name made of token characters only. */
  predicate IsToken(key: string)
  {
    forall i :: 0 <= i < |key| ==> IsTokenChar(key[i])
  }

  /** textproto.CanonicalMIMEHeaderKey: a name holding a byte that is not a token character
      is left as it is; any other has each word capitalised and the rest lower-cased. */
  function CanonicalKey(key: string): (k: string)
    ensures |k| == |key|
    ensures !IsToken(key) ==> k == key
    ensures IsToken(key) ==>
      forall i {:trigger k[i]} :: 0 <= i < |key| ==> k[i] == CaseAt(key[i], WordStart(key, i))
  {
    if IsToken(key) then seq(|key|, i requires 0 <= i < |key| => CaseAt(key[i], WordStart(key, i))) else key
  }

  /** Canonicalising a canonical name changes nothing, so every spelling of a name is
      looked up under one key. */
  lemma CanonicalIdempotent(key: string)
    ensures CanonicalKey(CanonicalKey(key)) == CanonicalKey(key)
  {
    var k := CanonicalKey(key);
    if IsToken(key) {
      forall i | 0 <= i < |key|
        ensures IsTokenChar(k[i]) && (k[i] == '-' <==> key[i] == '-')
      {
        assert k[i] == CaseAt(key[i], WordStart(key, i));
      }
      var k2 := CanonicalKey(k);
      forall i | 0 <= i < |key| ensures k2[i] == k[i] {
        assert k2[i] == CaseAt(k[i], WordStart(k, i));
      }
    }
  }

  /** Header.Get: the first value under the canonical form of the name, or "". */
  function HeaderGet(h: Header, key: string): (v: string)
    ensures CanonicalKey(key) !in h || |h[CanonicalKey(key)]| == 0 ==> v == ""
    ensures CanonicalKey(key) in h && |h[CanonicalKey(key)]| > 0 ==> v == h[CanonicalKey(key)][0]
  {
    var name := CanonicalKey(key);
    if name in h && |h[name]| > 0 then h[name][0] else ""
  }

  /** An incoming request; `body` is the outcome of reading the whole body, and `clientIp`
      is what the router's ClientIP reports. */
  datatype Request = Request(verb: string, path: string, header: Header, body: Result<string>, clientIp: string)

  datatype ResponseModel = ResponseModel(code: int, message: string)

  datatype RequestLog = RequestLog(verb: string, ip: string, path: string, body: string,
                                   headers: map<string, string>, response: Option<ResponseModel>)

  /** GetRealIP: the first comma-separated element of X-Forwarded-For, untrimmed; when that
      is empty, X-Real-IP (which Header.Get looks up as X-Real-Ip); when that is empty too,
      the client address. */
  function GetRealIP(h: Header, clientIp: string): (ip: string)
    ensures var x := HeaderGet(h, "X-Forwarded-For");
      x != "" && x[0] != ',' ==>
        ip != "" && StartsWith(x, ip) && ',' !in ip && (|ip| == |x| || x[|ip|] == ',')
    ensures var x := HeaderGet(h, "X-Forwarded-For");
      (x == "" || x[0] == ',') && HeaderGet(h, "X-Real-IP") != "" ==> ip == HeaderGet(h, "X-Real-IP")
    ensures var x := HeaderGet(h, "X-Forwarded-For");
      (x == "" || x[0] == ',') && HeaderGet(h, "X-Real-IP") == "" ==> ip == clientIp
  {
    var x := HeaderGet(h, "X-Forwarded-For");
    var first := match IndexOf(x, ',') case Some(i) => x[..i] case None => x;
    if first != "" then first
    else if HeaderGet(h, "X-Real-IP") != "" then HeaderGet(h, "X-Real-IP")
    else clientIp
  }

  /** The logged headers: every header but Authorization that has a value, with its first
      value. `order` is the order in which the header map is ranged over. */
  method LoggedHeaders(h: Header, order: seq<string>) returns (logged: map<string, string>)
    requires IsEnumeration(order, h.Keys)
    ensures logged.Keys == set k | k in h && k != "Authorization" && |h[k]| > 0
    ensures forall k :: k in logged ==> logged[k] == h[k][0]
  {
    logged := map[];
    var i := 0;
    while i < |order|
      invariant 0 <= i <= |order|
      invariant logged.Keys == set k | k in order[..i] && k != "Authorization" && |h[k]| > 0
      invariant forall k :: k in logged ==> k in h && logged[k] == h[k][0]
    {
      var key := order[i];
      assert order[..i + 1] == order[..i] + [key];
      if key != "Authorization" {
        if |h[key]| > 0 {
          logged := logged[key := h[key][0]];
        }
      }
      i := i + 1;
    }
    assert order[..i] == order;
  }

  /** The language loop: the Accept-Language header is kept only when it is exactly one of
      the accepted languages; anything else becomes "en". */
  method MatchLanguage(accepted: seq<string>, language: string) returns (lang: string)
    ensures language in accepted ==> lang == language
    ensures language !in accepted ==> lang == "en"
  {
    var matched := false;
    var i := 0;
    while i < |accepted|
      invariant 0 <= i <= |accepted|
      invariant matched <==> language in accepted[..i]
      decreases |accepted| - i, if matched then 0 else 1
    {
      if accepted[i] == language {
        assert language in accepted[..i + 1];
        matched := true;
        break;
      }
      assert accepted[..i + 1] == accepted[..i] + [accepted[i]];
      i := i + 1;
    }
    if matched {
      lang := language;
    } else {
      assert accepted[..i] == accepted;
      lang := "en";
    }
  }

  /** The values handlers leave in the gin context; an unset key reads as its zero value. */
  class Context {
    var code: int
    var message: string
    var data: Option<string>
    var maskData: string
    var language: string
    var token: string
    var aborted: bool

    constructor()
      ensures code == 0 && message == "" && data.None? && maskData == ""
      ensures language == "" && token == "" && !aborted
    {
      code := 0;
      message := "";
      data := None;
      maskData := "";
      language := "";
      token := "";
      aborted := false;
    }
  }

  /** The middleware up to c.Next(): token and language go into the context, and a body
      that cannot be read sets code 1 and aborts the chain. */
  method Before(ctx: Context, req: Request, order: seq<string>, accepted: seq<string>)
    returns (log: RequestLog)
    requires IsEnumeration(order, req.header.Keys)
    modifies ctx
    ensures ctx.token == HeaderGet(req.header, "Authorization")
    ensures HeaderGet(req.header, "Accept-Language") in accepted ==>
      ctx.language == HeaderGet(req.header, "Accept-Language")
    ensures HeaderGet(req.header, "Accept-Language") !in accepted ==> ctx.language == "en"
    ensures log.verb == req.verb && log.path == req.path && log.ip == GetRealIP(req.header, req.clientIp)
    ensures "Authorization" !in log.headers && log.response.None?
    ensures log.headers.Keys == set k | k in req.header && k != "Authorization" && |req.header[k]| > 0
    ensures forall k :: k in log.headers ==> log.headers[k] == req.header[k][0]
    ensures req.body.Err? ==>
      ctx.code == 1 && ctx.message == "Fail To Get Body" && ctx.aborted && log.body == "Fail To Get Body"
    ensures req.body.Ok? ==>
      ctx.code == old(ctx.code) && ctx.message == old(ctx.message) && ctx.aborted == old(ctx.aborted)
      && log.body == req.body.value
    ensures ctx.data == old(ctx.data) && ctx.maskData == old(ctx.maskData)
  {
    var headers := LoggedHeaders(req.header, order);
    ctx.token := HeaderGet(req.header, "Authorization");
    var language := MatchLanguage(accepted, HeaderGet(req.header, "Accept-Language"));
    ctx.language := language;
    var body;
    if req.body.Err? {
      body := "Fail To Get Body";
      ctx.code := 1;
      ctx.message := "Fail To Get Body";
      ctx.aborted := true;
    } else {
      body := req.body.value;
    }
    log := RequestLog(req.verb, GetRealIP(req.header, req.clientIp), req.path, body, headers, None);
  }

  /** The HTTP status for a result code: 0 succeeds, the public, service and authentication
      errors 1 to 3 are client errors, and any other code is a server error. */
  function StatusFor(code: int): (status: int)
    ensures status == 200 <==> code == 0
    ensures status == 400 <==> 1 <= code <= 3
    ensures status == 500 <==> code < 0 || code > 3
  {
    if code == 0 then 200
    else if code == 1 || code == 2 || code == 3 then 400
    else 500
  }

  /** The response body: data travels only with code 0. */
  datatype Body = Plain(code: int, message: string) | WithData(code: int, message: string, data: string)

  datatype Reply = Reply(status: int, body: Body, log: RequestLog)

  /** The middleware after c.Next(): the message is translated into the request's language,
      a masked route logs "mask" instead of its body, and the code picks the status. */
  function Finish(ctx: Context, log: RequestLog, translate: (string, string) -> string): (r: Reply)
    reads ctx
    ensures r.status == StatusFor(ctx.code)
    ensures r.body.code == ctx.code && r.body.message == translate(ctx.language, ctx.message)
    ensures r.body.WithData? <==> ctx.code == 0 && ctx.data.Some?
    ensures r.body.WithData? ==> r.body.data == ctx.data.value
    ensures r.log.body == (if ctx.maskData != "" then "mask" else log.body)
    ensures r.log.response == Some(ResponseModel(ctx.code, translate(ctx.language, ctx.message)))
    ensures r.log.ip == log.ip && r.log.headers == log.headers
  {
    var body := if ctx.maskData != "" then "mask" else log.body;
    var message := translate(ctx.language, ctx.message);
    var logged := log.(body := body, response := Some(ResponseModel(ctx.code, message)));
    if ctx.code == 0 && ctx.data.Some? then Reply(200, WithData(0, message, ctx.data.value), logged)
    else Reply(StatusFor(ctx.code), Plain(ctx.code, message), logged)
  }

  /** Header.Get("X-Real-IP") looks the header up under "X-Real-Ip". */
  lemma RealIpName(key: string)
    requires key == "X-Real-IP"
    ensures CanonicalKey(key) == "X-Real-Ip"
  {
    assert IsToken(key);
    var k := CanonicalKey(key);
    assert k[8] == CaseAt('P', false) == 'p';
    assert k[0] == 'X' && k[1] == '-' && k[2] == 'R' && k[3] == 'e' && k[4] == 'a';
    assert k[5] == 'l' && k[6] == '-' && k[7] == 'I';
  }

  /** X-Forwarded-For is spelt canonically in the Go source. */
  lemma ForwardedName(key: string)
    requires key == "X-Forwarded-For"
    ensures CanonicalKey(key) == key
  {
    assert IsToken(key);
    var k := CanonicalKey(key);
    assert k[0] == 'X' && k[1] == '-' && k[2] == 'F' && k[3] == 'o' && k[4] == 'r';
    assert k[5] == 'w' && k[6] == 'a' && k[7] == 'r' && k[8] == 'd' && k[9] == 'e';
    assert k[10] == 'd' && k[11] == '-' && k[12] == 'F' && k[13] == 'o' && k[14] == 'r';
  }

  /** A request that names its address only in X-Real-Ip, as net/http stores that header,
      is logged with that address; a key spelt "X-Real-IP" in the map is never found. */
  lemma RealIpHeader(h: Header, clientIp: string, addr: string)
    requires "X-Forwarded-For" !in h
    requires "X-Real-Ip" in h && |h["X-Real-Ip"]| > 0 && h["X-Real-Ip"][0] == addr && addr != ""
    ensures GetRealIP(h, clientIp) == addr
    ensures GetRealIP(map["X-Real-IP" := [addr]], clientIp) == clientIp
  {
    RealIpName("X-Real-IP");
    ForwardedName("X-Forwarded-For");
  }

  /** The real address never carries a comma when it comes from X-Forwarded-For, so a
      proxy chain is cut to the originating client. */
  lemma ForwardedChain(h: Header, clientIp: string, client: string, rest: string)
    requires client != "" && ',' !in client
    requires "X-Forwarded-For" in h && |h["X-Forwarded-For"]| > 0
    requires h["X-Forwarded-For"][0] == client + "," + rest
    ensures GetRealIP(h, clientIp) == client
  {
    ForwardedName("X-Forwarded-For");
    var x := client + "," + rest;
    var ip := GetRealIP(h, clientIp);
    assert x[0] == client[0];
    assert x[|client|] == ',';
    assert x[..|client|] == client;
    assert ',' !in x[..|client|];
  }
}
