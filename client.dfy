/** `SES::Client`: checks the configured keys, adds the protocol fields to a
    request body and signs the request. The HTTP transport itself is a
    parameter of the mailer. */
module Client {
  import opened Wrappers
  import opened Errors
  import opened RubyText
  import opened Params

  const DefaultVersion: string := "2010-12-01"

  /** `SES::Client::OPTIONS`, passed explicitly. */
  datatype Config = Config(accessKey: Option<string>, secretKey: Option<string>, version: Option<string>)
  {
    /** `OPTIONS[k]` for a symbol written as a string. */
    function Get(k: string): Option<string>
    {
      if k == "access_key" then accessKey
      else if k == "secret_key" then secretKey
      else if k == "version" then version
      else None
    }
  }

  /** The configuration before the caller sets anything. */
  const Defaults: Config := Config(None, None, Some(DefaultVersion))

  /** The keys `verify_keys` checks, in the order it checks them. */
  const KeyNames: seq<string> := ["access_key", "secret_key"]

  /** The foreign calls behind the signature: `OpenSSL::HMAC.digest` with
      SHA-256 (key, data) and `Base64.encode64`. */
  datatype Crypto = Crypto(hmacSha256: (string, string) -> seq<bv8>, encode64: seq<bv8> -> string)

  /** What `post(uri, data)` is handed. */
  datatype Request = Request(uri: string, headers: map<string, string>, body: ParamMap)

  /** The parsed XML root: the success shape, the error shape or anything
      else. A `None` is a nested element that is absent. */
  datatype Parsed =
    | SendEmailResponse(messageId: Option<string>)
    | ErrorResponse(message: Option<string>)
    | Other

  /** What the transport returns: HTTP status, parsed body and raw body. */
  datatype Response = Response(code: int, parsed: Parsed, body: string)

  function MissingKeyMessage(k: string): string
  {
    "You have to specify a non empty value for the " + k + " option in SES::Client::OPTIONS"
  }

  /** What `verify_keys` decides: the access key is checked first, then the
      secret key, and the first blank one is named. */
  function KeyCheck(cfg: Config): (r: Outcome<Failure>)
    ensures r.Pass? <==> !Blank(cfg.accessKey) && !Blank(cfg.secretKey)
    ensures r.Fail? ==> r.error.SesError?
    ensures Blank(cfg.accessKey) ==> r.error.message == MissingKeyMessage("access_key")
    ensures !Blank(cfg.accessKey) && Blank(cfg.secretKey) ==> r == Fail(SesError(MissingKeyMessage("secret_key")))
  {
    if Blank(cfg.accessKey) then Fail(SesError(MissingKeyMessage("access_key")))
    else if Blank(cfg.secretKey) then Fail(SesError(MissingKeyMessage("secret_key")))
    else Pass
  }

  /** `verify_keys`: walks the key list and raises on the first nil or empty
      value. */
  method VerifyKeys(cfg: Config) returns (r: Outcome<Failure>)
    ensures r == KeyCheck(cfg)
    ensures r.Pass? <==> !Blank(cfg.accessKey) && !Blank(cfg.secretKey)
    ensures r.Fail? ==> r.error.SesError?
  {
    var i := 0;
    while i < |KeyNames|
      invariant 0 <= i <= |KeyNames|
      invariant forall j :: 0 <= j < i ==> !Blank(cfg.Get(KeyNames[j]))
    {
      var k := KeyNames[i];
      if Blank(cfg.Get(k)) {
        return Fail(SesError(MissingKeyMessage(k)));
      }
      i := i + 1;
    }
    assert !Blank(cfg.Get(KeyNames[0])) && !Blank(cfg.Get(KeyNames[1]));
    return Pass;
  }

  /** `Base64.encode64(hmac).chomp`: the signature proper. */
  function MacValue(crypto: Crypto, secret: string, time: string): (r: string)
    ensures var encoded := crypto.encode64(crypto.hmacSha256(secret, time));
      |r| <= |encoded| <= |r| + 2 && r == encoded[..|r|] && encoded[|r|..] in {"", "\n", "\r", "\r\n"}
    ensures var encoded := crypto.encode64(crypto.hmacSha256(secret, time));
      |r| == |encoded| <==> (encoded == [] || (encoded[|encoded| - 1] != '\n' && encoded[|encoded| - 1] != '\r'))
  {
    Chomp(crypto.encode64(crypto.hmacSha256(secret, time)))
  }

  const SignaturePrefix: string := "AWS3-HTTPS AWSAccessKey="
  const SignatureMiddle: string := ", Signature="
  const SignatureSuffix: string := ", Algorithm=HmacSHA256"

  /** `signature(time)`: the authorization header value. A nil secret key
      makes OpenSSL raise, which is outside the model. */
  function Signature(cfg: Config, crypto: Crypto, time: string): (r: string)
    requires cfg.secretKey.Some?
    ensures |r| >= |SignaturePrefix| + |Interpolate(cfg.accessKey)| + |SignatureSuffix|
    ensures r[..|SignaturePrefix|] == SignaturePrefix
    ensures r[|SignaturePrefix|..|SignaturePrefix| + |Interpolate(cfg.accessKey)|] == Interpolate(cfg.accessKey)
    ensures r[|r| - |SignatureSuffix|..] == SignatureSuffix
  {
    SignaturePrefix + Interpolate(cfg.accessKey) + SignatureMiddle
      + MacValue(crypto, cfg.secretKey.value, time) + SignatureSuffix
  }

  /** The signature reads only the two keys and the time: the version does
      not enter it. */
  lemma SignatureReadsOnlyKeys(c1: Config, c2: Config, crypto: Crypto, time: string)
    requires c1.accessKey == c2.accessKey && c1.secretKey == c2.secretKey && c1.secretKey.Some?
    ensures Signature(c1, crypto, time) == Signature(c2, crypto, time)
  {
  }

  /** Under one access key, two headers are equal exactly when the MAC values
      they carry are: the header neither loses nor adds information. */
  lemma SignatureCarriesMac(c1: Config, c2: Config, crypto: Crypto, t1: string, t2: string)
    requires c1.secretKey.Some? && c2.secretKey.Some?
    requires Interpolate(c1.accessKey) == Interpolate(c2.accessKey)
    ensures Signature(c1, crypto, t1) == Signature(c2, crypto, t2)
        <==> MacValue(crypto, c1.secretKey.value, t1) == MacValue(crypto, c2.secretKey.value, t2)
  {
    var head := SignaturePrefix + Interpolate(c1.accessKey) + SignatureMiddle;
    var m1 := MacValue(crypto, c1.secretKey.value, t1);
    var m2 := MacValue(crypto, c2.secretKey.value, t2);
    var s1 := head + m1 + SignatureSuffix;
    var s2 := head + m2 + SignatureSuffix;
    assert Signature(c1, crypto, t1) == s1;
    assert Signature(c2, crypto, t2) == s2;
    if s1 == s2 {
      assert |m1| == |m2|;
      assert m1 == s1[|head|..|head| + |m1|];
      assert m2 == s2[|head|..|head| + |m2|];
    }
  }

  /** The two request headers, both built from one time string. */
  function Headers(cfg: Config, crypto: Crypto, sigTime: string): (h: map<string, string>)
    requires cfg.secretKey.Some?
    ensures h.Keys == {"X-Amzn-Authorization", "Date"}
    ensures h["Date"] == sigTime
    ensures h["X-Amzn-Authorization"] == Signature(cfg, crypto, h["Date"])
  {
    map["X-Amzn-Authorization" := Signature(cfg, crypto, sigTime), "Date" := sigTime]
  }

  /** The body after `signed_post` has added its three protocol fields. */
  function SignedBody(body: ParamMap, cfg: Config, urlTime: string): (r: ParamMap)
    ensures r.Keys == body.Keys + {"Timestamp", "Version", "AWSAccessKeyId"}
    ensures r["Timestamp"] == Some(urlTime)
    ensures r["Version"] == cfg.version
    ensures r["AWSAccessKeyId"] == cfg.accessKey
    ensures forall k :: k in body && k !in {"Timestamp", "Version", "AWSAccessKeyId"} ==> r[k] == body[k]
  {
    body["Timestamp" := Some(urlTime)]["Version" := cfg.version]["AWSAccessKeyId" := cfg.accessKey]
  }

  /** `signed_post(uri, body)` up to the `post` call: checks the keys before
      anything else, then adds the protocol fields to the caller's hash in
      place and returns the request that is posted. `urlTime` and `sigTime`
      are the two renderings of the one sampled instant. */
  method SignedPost(cfg: Config, crypto: Crypto, urlTime: string, sigTime: string, uri: string, body: ParamHash)
    returns (r: Result<Request, Failure>)
    modifies body
    ensures KeyCheck(cfg).Fail? ==> r == Err(KeyCheck(cfg).error) && body.entries == old(body.entries)
    ensures KeyCheck(cfg).Pass? ==>
      && cfg.secretKey.Some?
      && body.entries == SignedBody(old(body.entries), cfg, urlTime)
      && r == Ok(Request(uri, Headers(cfg, crypto, sigTime), body.entries))
  {
    var keys := VerifyKeys(cfg);
    if keys.Fail? {
      return Err(keys.error);
    }
    body.Store("Timestamp", Some(urlTime));
    body.Store("Version", cfg.version);
    body.Store("AWSAccessKeyId", cfg.accessKey);
    var headers := map["X-Amzn-Authorization" := Signature(cfg, crypto, sigTime), "Date" := sigTime];
    return Ok(Request(uri, headers, body.entries));
  }
}
