/** The credential pair and the header builder of `get_auth_headers`: HTTP Basic
    authentication (section 2 of RFC 7617) with the account id as user name and
    the API key as password, plus fixed JSON content negotiation headers. */
module Auth {
  import opened Wrappers
  import Base64

  /** The two secrets read from the environment; an unset variable is "". */
  datatype Credentials = Credentials(accountId: string, apiKey: string)

  /** `api_configured`: both secrets are present and non-empty. */
  predicate Configured(c: Credentials) {
    c.accountId != "" && c.apiKey != ""
  }

  type Headers = map<string, string>

  const Authorization: string := "Authorization"
  const ContentType: string := "Content-Type"
  const Accept: string := "Accept"
  const JsonMime: string := "application/json"
  const BasicPrefix: string := "Basic "

  /** `s.encode('ascii')`: the code points as bytes, or None when one of them
      is outside 7-bit ASCII (Python raises UnicodeEncodeError). */
  function AsciiBytes(s: string): (r: Option<seq<Base64.Byte>>)
    ensures r.Some? <==> forall i :: 0 <= i < |s| ==> s[i] as int < 128
    ensures r.Some? ==> |r.value| == |s| && forall i :: 0 <= i < |s| ==> r.value[i] == s[i] as int
  {
    if s == [] then Some([])
    else if s[0] as int >= 128 then None
    else match AsciiBytes(s[1..])
      case None => None
      case Some(rest) => Some([s[0] as int] + rest)
  }

  /** The `user:password` text that Basic authentication encodes. */
  function UserPass(c: Credentials): string {
    c.accountId + ":" + c.apiKey
  }

  datatype HeaderResult =
    | NoCredentials            // `get_auth_headers` returns None
    | NotAscii                 // `encode('ascii')` raises
    | Basic(headers: Headers)

  function AuthHeaders(c: Credentials): (r: HeaderResult)
    ensures r.NoCredentials? <==> !Configured(c)
    ensures r.NotAscii? <==> Configured(c) && AsciiBytes(UserPass(c)).None?
    ensures r.Basic? ==>
      && r.headers.Keys == {Authorization, ContentType, Accept}
      && r.headers[ContentType] == JsonMime && r.headers[Accept] == JsonMime
      && var v := r.headers[Authorization];
         |v| >= |BasicPrefix| && v[..|BasicPrefix|] == BasicPrefix
         && Base64.Decode(v[|BasicPrefix|..]) == AsciiBytes(UserPass(c))
  {
    if !Configured(c) then NoCredentials
    else match AsciiBytes(UserPass(c))
      case None => NotAscii
      case Some(bytes) =>
        var token := Base64.Encode(bytes);
        Base64.DecodeEncode(bytes);
        assert (BasicPrefix + token)[|BasicPrefix|..] == token;
        Basic(map[Authorization := BasicPrefix + token, ContentType := JsonMime, Accept := JsonMime])
  }

  /** The token is the canonical, padded `b64encode` of the pair's bytes,
      not merely some text that decodes to them. */
  lemma AuthorizationIsCanonical(c: Credentials)
    requires AuthHeaders(c).Basic?
    ensures AsciiBytes(UserPass(c)).Some?
    ensures AuthHeaders(c).headers[Authorization] == BasicPrefix + Base64.Encode(AsciiBytes(UserPass(c)).value)
  {
  }

  /** Every header built from a credential pair names that pair: two
      configured pairs of ASCII text with the same Authorization value have
      the same `user:password` text. */
  lemma AuthorizationDeterminesCredentials(c: Credentials, d: Credentials)
    requires AuthHeaders(c).Basic? && AuthHeaders(d).Basic?
    requires AuthHeaders(c).headers[Authorization] == AuthHeaders(d).headers[Authorization]
    ensures UserPass(c) == UserPass(d)
  {
    var x, y := AsciiBytes(UserPass(c)).value, AsciiBytes(UserPass(d)).value;
    assert x == y;
    assert |UserPass(c)| == |UserPass(d)|;
    forall i | 0 <= i < |UserPass(c)| ensures UserPass(c)[i] == UserPass(d)[i] {
      assert x[i] == UserPass(c)[i] as int && y[i] == UserPass(d)[i] as int;
    }
  }
}
