/**
 * `GRAPH#auth_bearer_aad`: request a Graph-scoped token with the client
 * credentials and return `parsed_json["access_token"]`. The reply's status
 * code is never looked at, so a refused request yields whatever the error
 * body holds under that key, usually `nil`.
 */
module Token {
  import opened Wrappers
  import opened Http
  import opened Text
  import opened ClientCredentials

  /** `https%3A%2F%2Fgraph.microsoft.com%2F.default`, the URL-encoded Graph scope. */
  const GraphScope: string := "https%3A%2F%2F" + "graph.microsoft.com" + "%2F.default"

  function GraphTokenRequest(tenant: string, client: string, secret: string): Request
  {
    Request(Get, "https://login.microsoftonline.com/" + tenant + "/oauth2/v2.0/token",
            Form(CredentialsForm(client, secret, "scope=" + GraphScope)))
  }

  /** Whether `key` occurs in `s` as a contiguous piece, scanning from the left. */
  predicate Contains(s: string, key: string)
    decreases |s|
  {
    |key| <= |s| && (s[..|key|] == key || (|s| > 0 && Contains(s[1..], key)))
  }

  /** The `n` characters of `s` starting at `i`. */
  function Window(s: string, i: nat, n: nat): string
    requires i + n <= |s|
  {
    s[i..i + n]
  }

  /** Some window of `s` spells `key`. */
  predicate Occurs(s: string, key: string)
  {
    exists i: nat :: i + |key| <= |s| && Window(s, i, |key|) == key
  }

  /** A window of the tail is the window one further along in the whole. */
  lemma WindowShift(s: string, j: nat, n: nat)
    requires |s| > 0 && j + 1 + n <= |s|
    ensures Window(s[1..], j, n) == Window(s, j + 1, n)
  {
  }

  lemma {:induction false} ContainsThenOccurs(s: string, key: string)
    requires Contains(s, key)
    ensures Occurs(s, key)
    decreases |s|
  {
    var n := |key|;
    if s[..n] == key {
      assert Window(s, 0, n) == key;
    } else {
      ContainsThenOccurs(s[1..], key);
      var j: nat :| j + n <= |s[1..]| && Window(s[1..], j, n) == key;
      WindowShift(s, j, n);
    }
  }

  lemma {:induction false} OccursThenContains(s: string, key: string)
    requires Occurs(s, key)
    ensures Contains(s, key)
    decreases |s|
  {
    var n := |key|;
    var i: nat :| i + n <= |s| && Window(s, i, n) == key;
    if i == 0 {
      assert s[..n] == Window(s, 0, n);
    } else {
      WindowShift(s, i - 1, n);
      assert Occurs(s[1..], key);
      OccursThenContains(s[1..], key);
    }
  }

  /** The left-to-right scan finds `key` exactly when some window spells it. */
  lemma ContainsOccurs(s: string, key: string)
    ensures Contains(s, key) <==> Occurs(s, key)
  {
    if Contains(s, key) {
      ContainsThenOccurs(s, key);
    }
    if Occurs(s, key) {
      OccursThenContains(s, key);
    }
  }

  /**
   * Ruby's `doc[key]` for a string key on what `JSON.parse` returned: a hash
   * looks the key up (`nil` when absent), a string answers the key itself
   * when it occurs in it and `nil` otherwise, and arrays, numbers, booleans
   * and `nil` raise.
   */
  function Index(doc: Json, key: string): (r: Result<Json, Failure>)
    ensures r.Ok? <==> doc.JObj? || doc.JStr?
    ensures r.Err? ==> r.error == NotIndexable
    ensures doc.JObj? && key in doc.fields ==> r == Ok(doc.fields[key])
    ensures doc.JObj? && key !in doc.fields ==> r == Ok(JNull)
    ensures doc.JStr? ==> r == Ok(JStr(key)) || r == Ok(JNull)
    ensures doc.JStr? ==> (r == Ok(JStr(key)) <==> Occurs(doc.s, key))
  {
    match doc
    case JObj(fields) => Ok(if key in fields then fields[key] else JNull)
    case JStr(s) =>
      ContainsOccurs(s, key);
      Ok(if Contains(s, key) then JStr(key) else JNull)
    case _ => Err(NotIndexable)
  }

  /** `JSON.parse(response.read_body)["access_token"]`. */
  function TokenOf(resp: Response): (r: Result<Json, Failure>)
    ensures resp.body.Malformed? ==> r == Err(ParserError)
    ensures resp.body.Parsed? && resp.body.doc.JObj? ==>
              var fields := resp.body.doc.fields;
              && r.Ok?
              && (r.value != JNull <==> "access_token" in fields && fields["access_token"] != JNull)
              && ("access_token" in fields ==> r.value == fields["access_token"])
    ensures resp.body.Parsed? && resp.body.doc.JStr? ==>
              && r.Ok?
              && (r.value == JStr("access_token") <==> Occurs(resp.body.doc.s, "access_token"))
              && (r.value != JStr("access_token") ==> r.value == JNull)
    ensures resp.body.Parsed? && !resp.body.doc.JObj? && !resp.body.doc.JStr? ==> r == Err(NotIndexable)
  {
    var doc :- ParseBody(resp);
    Index(doc, "access_token")
  }

  /** `auth_bearer_aad` against the identity endpoint oracle. */
  function AuthBearerAad(server: Server, tenant: string, client: string, secret: string): (r: Result<Json, Failure>)
    ensures var reply := server(0, GraphTokenRequest(tenant, client, secret));
      && (reply.body.Malformed? ==> r == Err(ParserError))
      && (reply.body.Parsed? && reply.body.doc.JObj? ==>
            var fields := reply.body.doc.fields;
            && r.Ok?
            && (r.value == JNull <==> "access_token" !in fields || fields["access_token"] == JNull)
            && ("access_token" in fields ==> r.value == fields["access_token"]))
      && (reply.body.Parsed? && reply.body.doc.JStr? ==>
            && r.Ok?
            && (r.value == JStr("access_token") <==> Occurs(reply.body.doc.s, "access_token"))
            && (r.value != JStr("access_token") ==> r.value == JNull))
      && (reply.body.Parsed? && !reply.body.doc.JObj? && !reply.body.doc.JStr? ==> r == Err(NotIndexable))
  {
    TokenOf(server(0, GraphTokenRequest(tenant, client, secret)))
  }

  /**
   * Whatever the status code, a reply carrying `{"access_token": t, ...}`
   * yields exactly t, and one without the field yields `nil` instead of an
   * error.
   */
  lemma {:induction false} TokenRoundTrip(code: int, fields: map<string, Json>, t: string)
    ensures TokenOf(Response(code, Parsed(JObj(fields["access_token" := JStr(t)])))) == Ok(JStr(t))
    ensures "access_token" !in fields ==> TokenOf(Response(code, Parsed(JObj(fields)))) == Ok(JNull)
  {
    var m := fields["access_token" := JStr(t)];
    assert "access_token" in m && m["access_token"] == JStr(t);
  }

  /**
   * The form body splits at '&' into exactly the grant type, the client id,
   * the client secret and the Graph scope, provided the id and the secret
   * contain no '&' (they are sent without URL encoding).
   */
  lemma TokenFormShape(tenant: string, client: string, secret: string)
    requires '&' !in client && '&' !in secret
    ensures var r := GraphTokenRequest(tenant, client, secret);
      && r.body.Form?
      && Segments(r.body.text, '&')
         == ["grant_type=client_credentials", "client_id=" + client, "client_secret=" + secret, "scope=" + GraphScope]
  {
    assert '&' !in "scope=" && '&' !in "https%3A%2F%2F" && '&' !in "graph.microsoft.com" && '&' !in "%2F.default";
    CredentialsFormShape(client, secret, "scope=" + GraphScope);
  }
}
