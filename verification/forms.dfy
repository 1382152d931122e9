/**
 * The form-encoded client-credentials body that both the Graph token request
 * and the WebHDFS MKDIRS request carry:
 * `grant_type=client_credentials&client_id=..&client_secret=..&{last}`,
 * where `last` names the scope or resource the credentials are for. The id
 * and the secret are interpolated as they are, without URL encoding.
 */
module ClientCredentials {
  import opened Text

  const GrantType: string := "grant_type=client_credentials"

  function CredentialsForm(client: string, secret: string, last: string): string
  {
    "grant_type=client_credentials&client_id=" + client + "&client_secret=" + secret + "&" + last
  }

  /** The first two fields glue to the literal head of the form. */
  lemma FormHead(client: string)
    ensures Join([GrantType, "client_id=" + client], '&')
         == "grant_type=client_credentials&client_id=" + client
  {
    assert [GrantType, "client_id=" + client][1..] == ["client_id=" + client];
    Glue(GrantType, '&', "client_id=", client);
    assert GrantType + (['&'] + "client_id=") == "grant_type=client_credentials&client_id=";
  }

  /**
   * Split at '&', the form is exactly the grant type, `client_id`,
   * `client_secret` and the last field, provided none of the caller-given
   * pieces contains an '&'.
   */
  lemma {:induction false} CredentialsFormShape(client: string, secret: string, last: string)
    requires '&' !in client && '&' !in secret && '&' !in last
    ensures Segments(CredentialsForm(client, secret, last), '&')
         == [GrantType, "client_id=" + client, "client_secret=" + secret, last]
  {
    var g := GrantType;
    var c := "client_id=" + client;
    var s := "client_secret=" + secret;
    var parts := [g, c, s, last];
    var j2 := "grant_type=client_credentials&client_id=" + client;
    var j3 := j2 + "&client_secret=" + secret;
    FormHead(client);
    assert Join([g, c, s], '&') == j3 by {
      JoinSnoc([g, c], s, '&');
      assert [g, c] + [s] == [g, c, s];
      Glue(j2, '&', "client_secret=", secret);
      assert ['&'] + "client_secret=" == "&client_secret=";
    }
    assert Join(parts, '&') == CredentialsForm(client, secret, last) by {
      JoinSnoc([g, c, s], last, '&');
      assert [g, c, s] + [last] == parts;
    }
    assert '&' !in g;
    assert NoSep(parts, '&');
    SegmentsOfJoin(parts, '&');
  }
}
