/**
 * Where `create` puts an uploaded file: a date-partitioned landing-zone
 * directory, the file path under it, and the three WebHDFS requests the
 * upload sends (MKDIRS, CREATE, APPEND) against an ADLS Gen1 account.
 */
module Landing {
  import opened Text
  import opened Http
  import opened ClientCredentials

  /** The calendar date `Time.new` would report; the clock is a parameter. */
  datatype Date = Date(year: nat, month: nat, day: nat)

  predicate ValidDate(date: Date) {
    1 <= date.month <= 12 && 1 <= date.day <= 31
  }

  /** Permission `create` asks for on the landing directory (rendered "777"). */
  const LandingPermission: nat := 777

  /**
   * `/landing_zone/{category}/{source}/{type}/year=Y/month=MM/day=DD/`,
   * with month and day padded by `Pad2`.
   */
  function LandingDir(category: string, source: string, kind: string, date: Date): string
  {
    "/landing_zone/" + category + "/" + source + "/" + kind
      + "/year=" + NatToString(date.year)
      + "/month=" + Pad2(date.month)
      + "/day=" + Pad2(date.day) + "/"
  }

  /** `"#{dir}/#{filename}"`: a second slash is added even though dir ends in one. */
  function TargetPath(dir: string, filename: string): string
  {
    dir + "/" + filename
  }

  function Host(account: string): string
  {
    "https://" + account + ".azuredatalakestore.net"
  }

  /** `https://{account}.azuredatalakestore.net/webhdfs/v1/{path}?{query}`. */
  function WebHdfsUrl(account: string, path: string, query: string): string
  {
    Host(account) + "/webhdfs/v1/" + path + "?" + query
  }

  /** Ruby's `#{flag}` for a boolean. */
  function BoolText(b: bool): string
  {
    if b then "true" else "false"
  }

  /** `resource=https%3A%2F%2Fmanagement.azure.com%2F`: the last field of the MKDIRS body. */
  const ManagementResourceField: string := "resource=https%3A%2F%2F" + "management.azure.com" + "%2F"

  /** `mkdir(path, permissions)`, which also sends the client credentials as a form body. */
  function MkdirsRequest(account: string, path: string, permission: nat, client: string, secret: string): Request
  {
    Request(Put, WebHdfsUrl(account, path, "op=MKDIRS&permission=" + NatToString(permission)),
            Form(CredentialsForm(client, secret, ManagementResourceField)))
  }

  function CreateRequest(account: string, path: string, overwrite: bool): Request
  {
    Request(Put, WebHdfsUrl(account, path, "op=CREATE&overwrite=" + BoolText(overwrite)), NoBody)
  }

  function AppendRequest(account: string, path: string, content: seq<byte>): Request
  {
    Request(Post, WebHdfsUrl(account, path, "op=APPEND"), Raw(content))
  }

  // ---------------------------------------------------------------------------
  // Shapes
  // ---------------------------------------------------------------------------

  lemma DigitsHaveNo(s: string, c: char)
    requires AllDigits(s) && !IsDigit(c)
    ensures c !in s
  {
  }

  /** The path components of the landing directory for a given date. */
  function DirParts(category: string, source: string, kind: string, date: Date): seq<string>
  {
    ["", "landing_zone", category, source, kind,
     "year=" + NatToString(date.year),
     "month=" + Pad2(date.month),
     "day=" + Pad2(date.day)]
  }

  /** The first five components join to the `landing_zone/{category}/{source}/{type}` prefix. */
  lemma DirTopJoin(category: string, source: string, kind: string, date: Date)
    ensures Join(DirParts(category, source, kind, date)[..5], '/')
         == "/landing_zone/" + category + "/" + source + "/" + kind
  {
    var p := DirParts(category, source, kind, date);
    var l3 := "/landing_zone/" + category;
    var l4 := l3 + "/" + source;
    assert Join(p[..3], '/') == l3 by {
      assert p[..3] == ["", "landing_zone", category];
      assert p[..3][1..] == ["landing_zone", category];
      assert p[..3][1..][1..] == [category];
      assert Join(p[..3][1..], '/') == "landing_zone" + "/" + category;
      assert "" + "/" + ("landing_zone" + "/" + category) == "/landing_zone/" + category;
    }
    assert Join(p[..4], '/') == l4 by {
      JoinSnoc(p[..3], source, '/');
      assert p[..3] + [source] == p[..4];
    }
    JoinSnoc(p[..4], kind, '/');
    assert p[..4] + [kind] == p[..5];
  }

  /** Joining one more component `key + x` after `acc` glues `"/" + key` on as a literal. */
  lemma JoinKeyStep(p: seq<string>, i: nat, acc: string, key: string, x: string)
    requires 0 < i < |p| && p[i] == key + x && Join(p[..i], '/') == acc
    ensures Join(p[..i + 1], '/') == acc + (['/'] + key) + x
  {
    JoinSnoc(p[..i], key + x, '/');
    assert p[..i] + [key + x] == p[..i + 1];
    Glue(acc, '/', key, x);
  }

  lemma {:induction false} DirPartsJoin(category: string, source: string, kind: string, date: Date)
    ensures Join(DirParts(category, source, kind, date), '/') + "/" == LandingDir(category, source, kind, date)
  {
    var y := NatToString(date.year);
    var m := Pad2(date.month);
    var d := Pad2(date.day);
    var p := DirParts(category, source, kind, date);
    var l5 := "/landing_zone/" + category + "/" + source + "/" + kind;
    DirTopJoin(category, source, kind, date);
    JoinKeyStep(p, 5, l5, "year=", y);
    assert ['/'] + "year=" == "/year=";
    var l6 := l5 + "/year=" + y;
    JoinKeyStep(p, 6, l6, "month=", m);
    assert ['/'] + "month=" == "/month=";
    var l7 := l6 + "/month=" + m;
    JoinKeyStep(p, 7, l7, "day=", d);
    assert ['/'] + "day=" == "/day=";
    assert p[..8] == p;
  }

  lemma DirPartsNoSlash(category: string, source: string, kind: string, date: Date)
    requires '/' !in category && '/' !in source && '/' !in kind
    ensures NoSep(DirParts(category, source, kind, date), '/')
  {
    DigitsHaveNo(NatToString(date.year), '/');
    DigitsHaveNo(Pad2(date.month), '/');
    DigitsHaveNo(Pad2(date.day), '/');
  }

  /**
   * Split at '/', the landing directory is the empty root component,
   * "landing_zone", the three caller-given names, the year, month and day
   * components, and a final empty component from the trailing slash. For a
   * real date the month and day components end in exactly two digits that
   * denote the month and the day.
   */
  lemma {:induction false} LandingDirShape(category: string, source: string, kind: string, date: Date)
    requires '/' !in category && '/' !in source && '/' !in kind
    ensures Segments(LandingDir(category, source, kind, date), '/')
         == ["", "landing_zone", category, source, kind,
             "year=" + NatToString(date.year), "month=" + Pad2(date.month), "day=" + Pad2(date.day), ""]
    ensures ValidDate(date) ==>
              var mm := Pad2(date.month);
              var dd := Pad2(date.day);
              |mm| == 2 && AllDigits(mm) && DigitsValue(mm) == date.month &&
              |dd| == 2 && AllDigits(dd) && DigitsValue(dd) == date.day
  {
    var p := DirParts(category, source, kind, date);
    DirPartsJoin(category, source, kind, date);
    DirPartsNoSlash(category, source, kind, date);
    JoinSnoc(p, "", '/');
    assert Join(p + [""], '/') == LandingDir(category, source, kind, date);
    SegmentsOfJoin(p + [""], '/');
  }

  /**
   * The uploaded file's path has the directory's components, then an empty
   * component (the doubled slash after the day), then the file name.
   */
  lemma {:induction false} TargetPathShape(category: string, source: string, kind: string, date: Date, filename: string)
    requires '/' !in category && '/' !in source && '/' !in kind && '/' !in filename
    ensures Segments(TargetPath(LandingDir(category, source, kind, date), filename), '/')
         == DirParts(category, source, kind, date) + ["", filename]
  {
    var p := DirParts(category, source, kind, date);
    var j := Join(p, '/');
    DirPartsJoin(category, source, kind, date);
    DirPartsNoSlash(category, source, kind, date);
    var q := p + ["", filename];
    var j1 := j + "/";
    assert Join(p + [""], '/') == j1 by {
      JoinSnoc(p, "", '/');
    }
    assert Join(q, '/') == j1 + "/" + filename by {
      JoinSnoc(p + [""], filename, '/');
      assert p + [""] + [filename] == q;
    }
    assert TargetPath(LandingDir(category, source, kind, date), filename) == j1 + "/" + filename;
    assert NoSep(q, '/');
    SegmentsOfJoin(q, '/');
  }

  /** A URL splits at '?' into the WebHDFS address of the path and the query. */
  lemma {:induction false} WebHdfsUrlSplit(account: string, path: string, query: string)
    requires '?' !in account && '?' !in path && '?' !in query
    ensures Segments(WebHdfsUrl(account, path, query), '?')
         == [Host(account) + "/webhdfs/v1/" + path, query]
  {
    var base := Host(account) + "/webhdfs/v1/" + path;
    assert '?' !in base;
    assert Join([base, query], '?') == WebHdfsUrl(account, path, query) by {
      assert [base, query][1..] == [query];
    }
    SegmentsOfJoin([base, query], '?');
  }

  /** The query of a two-parameter request splits at '&' into the two parameters. */
  lemma TwoParams(a: string, b: string)
    requires '&' !in a && '&' !in b
    ensures Segments(a + "&" + b, '&') == [a, b]
  {
    assert Join([a, b], '&') == a + "&" + b by {
      assert [a, b][1..] == [b];
    }
    SegmentsOfJoin([a, b], '&');
  }

  /** A request with query `a&b` splits at '?' and then at '&' into its parts. */
  lemma QueryOfTwo(account: string, path: string, a: string, b: string)
    requires '?' !in account && '?' !in path
    requires '?' !in a && '?' !in b && '&' !in a && '&' !in b
    ensures Segments(WebHdfsUrl(account, path, a + "&" + b), '?') == [Host(account) + "/webhdfs/v1/" + path, a + "&" + b]
    ensures Segments(a + "&" + b, '&') == [a, b]
  {
    WebHdfsUrlSplit(account, path, a + "&" + b);
    TwoParams(a, b);
  }

  /**
   * MKDIRS is a PUT on the directory whose query has exactly the parameters
   * `op=MKDIRS` and `permission=<digits>`, and whose form body holds exactly
   * the grant type, the client id, the client secret and the management
   * resource.
   */
  lemma MkdirsRequestShape(account: string, path: string, permission: nat, client: string, secret: string)
    requires '?' !in account && '?' !in path
    requires '&' !in client && '&' !in secret
    ensures var r := MkdirsRequest(account, path, permission, client, secret);
      && r.verb == Put
      && Segments(r.url, '?') == [Host(account) + "/webhdfs/v1/" + path, "op=MKDIRS&permission=" + NatToString(permission)]
      && Segments("op=MKDIRS&permission=" + NatToString(permission), '&') == ["op=MKDIRS", "permission=" + NatToString(permission)]
      && r.body.Form?
      && Segments(r.body.text, '&')
         == ["grant_type=client_credentials", "client_id=" + client, "client_secret=" + secret,
             ManagementResourceField]
  {
    var x := NatToString(permission);
    DigitsHaveNo(x, '?');
    DigitsHaveNo(x, '&');
    Glue("op=MKDIRS", '&', "permission=", x);
    assert ['&'] + "permission=" == "&permission=";
    assert "op=MKDIRS" + ("&" + "permission=") == "op=MKDIRS&permission=";
    QueryOfTwo(account, path, "op=MKDIRS", "permission=" + x);
    MkdirsBodyShape(client, secret);
  }

  /** The MKDIRS form splits at '&' into the credentials and the management resource. */
  lemma MkdirsBodyShape(client: string, secret: string)
    requires '&' !in client && '&' !in secret
    ensures Segments(CredentialsForm(client, secret, ManagementResourceField), '&')
         == ["grant_type=client_credentials", "client_id=" + client, "client_secret=" + secret,
             ManagementResourceField]
  {
    assert '&' !in "resource=https%3A%2F%2F" && '&' !in "management.azure.com" && '&' !in "%2F";
    CredentialsFormShape(client, secret, ManagementResourceField);
  }

  /**
   * CREATE is a PUT on the file whose query has exactly the parameters
   * `op=CREATE` and `overwrite=true|false`.
   */
  lemma CreateRequestShape(account: string, path: string, overwrite: bool)
    requires '?' !in account && '?' !in path
    ensures var r := CreateRequest(account, path, overwrite);
      && r.verb == Put && r.body == NoBody
      && Segments(r.url, '?') == [Host(account) + "/webhdfs/v1/" + path, "op=CREATE&overwrite=" + BoolText(overwrite)]
      && Segments("op=CREATE&overwrite=" + BoolText(overwrite), '&') == ["op=CREATE", "overwrite=" + BoolText(overwrite)]
  {
    var x := BoolText(overwrite);
    Glue("op=CREATE", '&', "overwrite=", x);
    assert ['&'] + "overwrite=" == "&overwrite=";
    assert "op=CREATE" + ("&" + "overwrite=") == "op=CREATE&overwrite=";
    QueryOfTwo(account, path, "op=CREATE", "overwrite=" + x);
  }

  /** APPEND is a POST on the file with query `op=APPEND` and the chunk as raw body. */
  lemma AppendRequestShape(account: string, path: string, content: seq<byte>)
    requires '?' !in account && '?' !in path
    ensures var r := AppendRequest(account, path, content);
      && r.verb == Post && r.body == Raw(content)
      && Segments(r.url, '?') == [Host(account) + "/webhdfs/v1/" + path, "op=APPEND"]
  {
    WebHdfsUrlSplit(account, path, "op=APPEND");
  }
}
