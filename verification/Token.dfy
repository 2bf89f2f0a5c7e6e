/** The compact access token (app/core/security.py:49-97; section 7.1 of RFC 7515). HMAC-SHA256, JSON and
    UTF-8 are arbitrary functions here; what is assumed of them stands in each lemma's requires. */
module Token {
  import opened Common
  import opened Base64Url

  datatype Json =
    | Num(value: real) | Flag(on: bool) | Text(text: string) | Null
    | Arr(items: seq<Json>) | Obj(fields: map<string, Json>)
  type Payload = map<string, Json>

  datatype Primitives = Primitives(
    sign: (seq<byte>, seq<byte>) -> seq<byte>,
    utf8: string -> seq<byte>,
    dumps: Payload -> seq<byte>,
    loads: seq<byte> -> Option<Json>)

  datatype Settings = Settings(secret: seq<byte>, expireMinutes: int)

  /** What decode_access_token does: a payload, None, or an exception it does not catch. */
  datatype Verdict = Valid(payload: Payload) | Invalid | Raises

  const HEADER: Payload := map["alg" := Text("HS256"), "typ" := Text("JWT")]

  /** The claims, with the caller's extras written over them. `issued` and `stamped` are the two clock readings. */
  function Claims(cfg: Settings, subject: string, tenant: string, extra: Payload, issued: real, stamped: real)
    : Payload
  {
    map["sub" := Text(subject), "tenant_id" := Text(tenant),
        "exp" := Num((issued.Floor + cfg.expireMinutes * 60) as real), "iat" := Num(stamped.Floor as real)] + extra
  }

  function Seal(p: Primitives, cfg: Settings, headerPart: string, payloadPart: string): string {
    var input := headerPart + "." + payloadPart;
    input + "." + Encode(p.sign(cfg.secret, p.utf8(input)))
  }

  function Create(p: Primitives, cfg: Settings, subject: string, tenant: string, extra: Payload,
                  issued: real, stamped: real): string
  {
    Seal(p, cfg, Encode(p.dumps(HEADER)), Encode(p.dumps(Claims(cfg, subject, tenant, extra, issued, stamped))))
  }

  /** str.split(".") */
  function Split(s: string): (parts: seq<string>)
    ensures parts != []
  {
    if s == "" then [""]
    else
      var rest := Split(s[1..]);
      if s[0] == '.' then [""] + rest else [[s[0]] + rest[0]] + rest[1..]
  }

  /** The clock comparison at the end; the clock stands for time.time(). */
  function CheckExpiry(j: Json, now: real): Verdict {
    if !j.Obj? then Raises
    else if "exp" !in j.fields then (if 0.0 < now then Invalid else Valid(j.fields))
    else match j.fields["exp"]
      case Num(v) => if v < now then Invalid else Valid(j.fields)
      case Flag(b) => if (if b then 1.0 else 0.0) < now then Invalid else Valid(j.fields)
      case _ => Raises
  }

  function Check(p: Primitives, cfg: Settings, token: string, now: real): Verdict {
    var parts := Split(token);
    if |parts| != 3 then Invalid
    else
      var expected := p.sign(cfg.secret, p.utf8(parts[0] + "." + parts[1]));
      match Decode(parts[2])
      case None => Invalid
      case Some(actual) =>
        if expected != actual then Invalid
        else match Decode(parts[1])
          case None => Invalid
          case Some(bytes) =>
            match p.loads(bytes)
            case None => Invalid
            case Some(j) => CheckExpiry(j, now)
  }

  predicate DotFree(s: string) {
    forall i :: 0 <= i < |s| ==> s[i] != '.'
  }

  lemma EncodeDotFree(d: seq<byte>)
    ensures DotFree(Encode(d))
  {
    EncodeShape(d);
    forall i | 0 <= i < |Encode(d)| ensures Encode(d)[i] != '.' {
      assert InAlphabet(Encode(d)[i]);
    }
  }

  lemma {:induction false} SplitOne(s: string)
    requires DotFree(s)
    ensures Split(s) == [s]
    decreases |s|
  {
    if s != "" {
      SplitOne(s[1..]);
      assert [s[0]] + s[1..] == s;
    }
  }

  lemma {:induction false} SplitHead(a: string, rest: string)
    requires DotFree(a)
    ensures Split(a + "." + rest) == [a] + Split(rest)
    decreases |a|
  {
    var s := a + "." + rest;
    if a == "" {
      assert s[1..] == rest;
    } else {
      SplitHead(a[1..], rest);
      assert s[1..] == a[1..] + "." + rest;
      assert [a[0]] + a[1..] == a;
    }
  }

  /** Three dot-free segments are recovered from the serialisation. */
  lemma SplitThree(a: string, b: string, c: string)
    requires DotFree(a) && DotFree(b) && DotFree(c)
    ensures Split(a + "." + b + "." + c) == [a, b, c]
  {
    assert a + "." + b + "." + c == a + "." + (b + "." + c);
    SplitHead(a, b + "." + c);
    SplitHead(b, c);
    SplitOne(c);
  }

  /** Decoding a token one has created gives exactly the merged claims while they have not expired, and
      None from then on: for all claims and extras that leave `exp` a number, if JSON parses what it prints. */
  lemma TokenRoundTrip(p: Primitives, cfg: Settings, subject: string, tenant: string, extra: Payload,
                       issued: real, stamped: real, now: real)
    requires var claims := Claims(cfg, subject, tenant, extra, issued, stamped);
      claims["exp"].Num? && p.loads(p.dumps(claims)) == Some(Obj(claims))
    ensures var claims := Claims(cfg, subject, tenant, extra, issued, stamped);
      Check(p, cfg, Create(p, cfg, subject, tenant, extra, issued, stamped), now)
        == if claims["exp"].value >= now then Valid(claims) else Invalid
  {
    var claims := Claims(cfg, subject, tenant, extra, issued, stamped);
    var h, b := Encode(p.dumps(HEADER)), Encode(p.dumps(claims));
    var signature := p.sign(cfg.secret, p.utf8(h + "." + b));
    EncodeDotFree(p.dumps(HEADER));
    EncodeDotFree(p.dumps(claims));
    EncodeDotFree(signature);
    SplitThree(h, b, Encode(signature));
    RoundTrip(signature);
    RoundTrip(p.dumps(claims));
  }

  /** Without an `exp` among the extras the token lives for the configured time from the issuing second. */
  lemma TokenLifetime(p: Primitives, cfg: Settings, subject: string, tenant: string, extra: Payload,
                      issued: real, stamped: real, now: real)
    requires "exp" !in extra
    requires var claims := Claims(cfg, subject, tenant, extra, issued, stamped);
      p.loads(p.dumps(claims)) == Some(Obj(claims))
    ensures Check(p, cfg, Create(p, cfg, subject, tenant, extra, issued, stamped), now).Valid?
        <==> now <= issued.Floor as real + (cfg.expireMinutes * 60) as real
  {
    TokenRoundTrip(p, cfg, subject, tenant, extra, issued, stamped, now);
    DefaultExpiry(cfg, subject, tenant, extra, issued, stamped);
  }

  lemma DefaultExpiry(cfg: Settings, subject: string, tenant: string, extra: Payload, issued: real, stamped: real)
    requires "exp" !in extra
    ensures var claims := Claims(cfg, subject, tenant, extra, issued, stamped);
      "exp" in claims && claims["exp"] == Num((issued.Floor + cfg.expireMinutes * 60) as real)
  {
  }

  /** The first segment, and what splitting the text behind its dot gives. */
  lemma {:induction false} SplitFirst(s: string)
    ensures DotFree(Split(s)[0]) && Split(s)[0] <= s
    ensures |Split(s)| == 1 ==> s == Split(s)[0]
    ensures |Split(s)| > 1 ==> var n := |Split(s)[0]|;
      n < |s| && s[n] == '.' && Split(s[n + 1..]) == Split(s)[1..]
    decreases |s|
  {
    if s != "" && s[0] != '.' {
      var rest := Split(s[1..]);
      SplitFirst(s[1..]);
      assert Split(s)[0] == [s[0]] + rest[0] && Split(s)[1..] == rest[1..];
      if |rest| > 1 {
        assert s[1..][|rest[0]| + 1..] == s[|rest[0]| + 2..];
      }
    }
  }

  lemma SplitRest(s: string) returns (tail: string)
    requires |Split(s)| > 1
    ensures s == Split(s)[0] + "." + tail && DotFree(Split(s)[0]) && Split(tail) == Split(s)[1..]
  {
    SplitFirst(s);
    tail := s[|Split(s)[0]| + 1..];
  }

  /** Three parts are three dot-free segments joined by dots. */
  lemma PartsJoin(token: string)
    requires |Split(token)| == 3
    ensures var p := Split(token);
      token == p[0] + "." + p[1] + "." + p[2] && DotFree(p[0]) && DotFree(p[1]) && DotFree(p[2])
  {
    var parts := Split(token);
    var tail := SplitRest(token);
    var last := SplitRest(tail);
    SplitFirst(last);
    assert Split(tail)[0] == parts[1] && Split(last)[0] == parts[2];
    assert token == parts[0] + "." + parts[1] + "." + parts[2];
  }

  /** Nothing is accepted that was not signed: an accepted token is three dot-free segments, the last of
      which decodes to the HMAC of the first two, and its payload is unexpired. */
  lemma AcceptedTokensAreSigned(p: Primitives, cfg: Settings, token: string, now: real)
    returns (h: string, b: string, signature: string)
    requires Check(p, cfg, token, now).Valid?
    ensures token == h + "." + b + "." + signature && DotFree(h) && DotFree(b) && DotFree(signature)
    ensures Decode(signature) == Some(p.sign(cfg.secret, p.utf8(h + "." + b)))
    ensures Decode(b).Some? && p.loads(Decode(b).value) == Some(Obj(Check(p, cfg, token, now).payload))
    ensures "exp" in Check(p, cfg, token, now).payload && Check(p, cfg, token, now).payload["exp"].Num?
            ==> Check(p, cfg, token, now).payload["exp"].value >= now
  {
    var parts := Split(token);
    h, b, signature := parts[0], parts[1], parts[2];
    PartsJoin(token);
  }

  // ---------------------------------------------------------------- what a token carries

  /** Its subject under sub, its tenant under tenant_id, the second of stamping under iat and the end of its lifetime
      under exp, each unless an extra claim replaces it; every extra claim with its own value; and nothing else. */
  predicate Carries(cfg: Settings, subject: string, tenant: string, extra: Payload, issued: real, stamped: real,
                    payload: Payload)
  {
    && payload.Keys == {"sub", "tenant_id", "exp", "iat"} + extra.Keys
    && (forall key :: key in extra ==> payload[key] == extra[key])
    && ("sub" !in extra ==> payload["sub"] == Text(subject))
    && ("tenant_id" !in extra ==> payload["tenant_id"] == Text(tenant))
    && ("iat" !in extra ==> payload["iat"] == Num(stamped.Floor as real))
    && ("exp" !in extra ==> payload["exp"] == Num((issued.Floor + cfg.expireMinutes * 60) as real))
  }

  /** A token just created is answered with that payload until it expires. */
  lemma PayloadReads(p: Primitives, cfg: Settings, subject: string, tenant: string, extra: Payload,
                     issued: real, stamped: real, now: real, payload: Payload)
    requires Carries(cfg, subject, tenant, extra, issued, stamped, payload)
    requires payload["exp"].Num? && p.loads(p.dumps(payload)) == Some(Obj(payload))
    ensures Check(p, cfg, Create(p, cfg, subject, tenant, extra, issued, stamped), now)
      == if now <= payload["exp"].value then Valid(payload) else Invalid
  {
    assert payload == Claims(cfg, subject, tenant, extra, issued, stamped);
    TokenRoundTrip(p, cfg, subject, tenant, extra, issued, stamped, now);
  }

  /** The first segment of a created token is the header {"alg": "HS256", "typ": "JWT"}. */
  lemma HeaderReads(p: Primitives, cfg: Settings, subject: string, tenant: string, extra: Payload,
                    issued: real, stamped: real)
    ensures var parts := Split(Create(p, cfg, subject, tenant, extra, issued, stamped));
      |parts| == 3 && Decode(parts[0]) == Some(p.dumps(map["alg" := Text("HS256"), "typ" := Text("JWT")]))
  {
    var claims := Claims(cfg, subject, tenant, extra, issued, stamped);
    var h, b := Encode(p.dumps(HEADER)), Encode(p.dumps(claims));
    var signature := p.sign(cfg.secret, p.utf8(h + "." + b));
    EncodeDotFree(p.dumps(HEADER));
    EncodeDotFree(p.dumps(claims));
    EncodeDotFree(signature);
    SplitThree(h, b, Encode(signature));
    RoundTrip(p.dumps(HEADER));
  }

  /** A signed token whose payload is an object is judged by exp alone: a number (or a truth value, as 0 or 1) not
      before now; a missing one counts as 0; anything else, and a payload that is no object, raises. */
  lemma ExpiryDecides(p: Primitives, cfg: Settings, token: string, now: real, h: string, b: string, sig: string,
                      j: Json)
    requires Split(token) == [h, b, sig] && Decode(sig) == Some(p.sign(cfg.secret, p.utf8(h + "." + b)))
    requires Decode(b).Some? && p.loads(Decode(b).value) == Some(j)
    ensures !j.Obj? ==> Check(p, cfg, token, now) == Raises
    ensures j.Obj? && "exp" !in j.fields ==>
      Check(p, cfg, token, now) == if now <= 0.0 then Valid(j.fields) else Invalid
    ensures j.Obj? && "exp" in j.fields && j.fields["exp"].Num? ==>
      Check(p, cfg, token, now) == if now <= j.fields["exp"].value then Valid(j.fields) else Invalid
    ensures j.Obj? && "exp" in j.fields && j.fields["exp"].Flag? ==>
      (Check(p, cfg, token, now) == Valid(j.fields) <==> now <= 0.0 || (j.fields["exp"].on && now <= 1.0))
    ensures j.Obj? && "exp" in j.fields && !j.fields["exp"].Num? && !j.fields["exp"].Flag? ==>
      Check(p, cfg, token, now) == Raises
  {
  }
}
