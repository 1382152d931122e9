/**
 * Group membership in Azure Active Directory through Microsoft Graph: the
 * requests `list_group_members`, `add_group_member` and
 * `remove_group_member` send, and the way the last two turn the reply into a
 * result. The same code appears in `ACTIVE_DIRECTORY`, in `GRAPH` and in
 * `MyAzure::GRAPH`; this module models it once.
 */
module Membership {
  import opened Wrappers
  import opened Http
  import opened Text

  const GraphRoot: string := "https://graph.microsoft.com/v1.0"

  /** The '/'-separated components of `GraphRoot`. */
  const RootParts: seq<string> := ["https:", "", "graph.microsoft.com", "v1.0"]

  /** The directory object a `$ref` body points at. */
  function DirectoryObjectUrl(user: string): string
  {
    GraphRoot + "/directoryObjects/" + user
  }

  /** `{"@odata.id" => ".../directoryObjects/#{user_id}"}`, sent with `to_json`. */
  function MemberRef(user: string): Body
  {
    JsonFields(map["@odata.id" := DirectoryObjectUrl(user)])
  }

  function ListGroupMembersRequest(dept: string): Request
  {
    Request(Get, GraphRoot + "/groups/" + dept + "/members", NoBody)
  }

  function AddGroupMemberRequest(dept: string, user: string): Request
  {
    Request(Post, GraphRoot + "/groups/" + dept + "/members/$ref", MemberRef(user))
  }

  /** The `user_create` hash `remove_group_member` builds is never sent. */
  function RemoveGroupMemberRequest(dept: string, user: string): Request
  {
    Request(Delete, GraphRoot + "/groups/" + dept + "/members/" + user + "/$ref", NoBody)
  }

  // ---------------------------------------------------------------------------
  // Reply dispatch
  // ---------------------------------------------------------------------------

  /**
   * What the methods return: the bare status code, the parsed error body, or
   * `nil` when the `case` matches no branch.
   */
  datatype MemberResult = StatusCode(code: int) | ErrorDoc(doc: Json) | NoResult

  /** HTTP status classes (section 15 of RFC 9110), by the code's first digit. */
  datatype StatusClass = Informational | Successful | Redirection | ClientError | ServerError | Unclassified

  function ClassOf(code: int): StatusClass
  {
    if code < 100 || code >= 600 then Unclassified
    else if code / 100 == 1 then Informational
    else if code / 100 == 2 then Successful
    else if code / 100 == 3 then Redirection
    else if code / 100 == 4 then ClientError
    else ServerError
  }

  predicate IsErrorClass(c: StatusClass)
  {
    c == ClientError || c == ServerError
  }

  /**
   * `case response.code when 204 ... when 400...600 ... end`: 204 gives the
   * code, the exclusive range 400 to 599 gives the parsed body (raising when
   * the body is not JSON), and every other code falls through to `nil`.
   */
  function Dispatch(resp: Response): (r: Result<MemberResult, Failure>)
    ensures r == Ok(StatusCode(204)) <==> resp.code == 204
    ensures (r.Ok? && r.value.StatusCode?) ==> resp.code == 204
    ensures r == Ok(NoResult) <==> resp.code != 204 && !(400 <= resp.code < 600)
    ensures (r.Ok? && r.value.ErrorDoc?) <==> 400 <= resp.code < 600 && resp.body.Parsed?
    ensures (r.Ok? && r.value.ErrorDoc?) ==> resp.body == Parsed(r.value.doc)
    ensures r.Err? <==> 400 <= resp.code < 600 && resp.body.Malformed?
    ensures r.Err? ==> r.error == ParserError
  {
    if resp.code == 204 then Ok(StatusCode(resp.code))
    else if 400 <= resp.code < 600 then
      match ParseBody(resp)
      case Ok(doc) => Ok(ErrorDoc(doc))
      case Err(e) => Err(e)
    else Ok(NoResult)
  }

  /**
   * In terms of status classes: the reply body comes back exactly for client
   * and server errors; the code comes back only for 204 No Content; every
   * other successful code, 200 and 201 included, gives `nil`, as do all
   * informational, redirection and unclassified codes.
   */
  lemma {:induction false} DispatchByClass(resp: Response)
    ensures (Dispatch(resp).Err? || (Dispatch(resp).Ok? && Dispatch(resp).value.ErrorDoc?))
            <==> IsErrorClass(ClassOf(resp.code))
    ensures Dispatch(resp) == Ok(NoResult)
            <==> !IsErrorClass(ClassOf(resp.code)) && resp.code != 204
    ensures ClassOf(resp.code) == Successful && resp.code != 204 ==> Dispatch(resp) == Ok(NoResult)
    ensures Dispatch(resp) != Ok(StatusCode(200))
  {
    var c := resp.code;
    if 100 <= c < 600 {
      DivRange(c);
    }
  }

  lemma DivRange(c: int)
    requires 100 <= c < 600
    ensures 1 <= c / 100 <= 5
    ensures c / 100 == 4 <==> 400 <= c < 500
    ensures c / 100 == 5 <==> 500 <= c < 600
    ensures c / 100 == 2 <==> 200 <= c < 300
  {
  }

  // ---------------------------------------------------------------------------
  // Operations against the Graph oracle
  // ---------------------------------------------------------------------------

  /** `list_group_members(dept_id)`: the parsed reply, passed through unchanged. */
  function ListGroupMembers(server: Server, dept: string): (r: Result<Json, Failure>)
    ensures var reply := server(0, ListGroupMembersRequest(dept));
      && (r.Ok? <==> reply.body.Parsed?)
      && (r.Ok? ==> reply.body == Parsed(r.value))
  {
    ParseBody(server(0, ListGroupMembersRequest(dept)))
  }

  /** `add_group_member(dept_id, user_id)`. */
  function AddGroupMember(server: Server, dept: string, user: string): (r: Result<MemberResult, Failure>)
    ensures var reply := server(0, AddGroupMemberRequest(dept, user));
      && (r == Ok(StatusCode(204)) <==> reply.code == 204)
      && ((r.Err? || (r.Ok? && r.value.ErrorDoc?)) <==> IsErrorClass(ClassOf(reply.code)))
      && ((r.Ok? && r.value.ErrorDoc?) <==> IsErrorClass(ClassOf(reply.code)) && reply.body.Parsed?)
      && ((r.Ok? && r.value.ErrorDoc?) ==> reply.body == Parsed(r.value.doc))
      && (r.Err? <==> IsErrorClass(ClassOf(reply.code)) && reply.body.Malformed?)
      && (r.Err? ==> r.error == ParserError)
      && (r == Ok(NoResult) <==> !IsErrorClass(ClassOf(reply.code)) && reply.code != 204)
  {
    var reply := server(0, AddGroupMemberRequest(dept, user));
    DispatchByClass(reply);
    Dispatch(reply)
  }

  /** `remove_group_member(dept_id, user_id)`: the same dispatch on the DELETE reply. */
  function RemoveGroupMember(server: Server, dept: string, user: string): (r: Result<MemberResult, Failure>)
    ensures var reply := server(0, RemoveGroupMemberRequest(dept, user));
      && (r == Ok(StatusCode(204)) <==> reply.code == 204)
      && ((r.Err? || (r.Ok? && r.value.ErrorDoc?)) <==> IsErrorClass(ClassOf(reply.code)))
      && ((r.Ok? && r.value.ErrorDoc?) <==> IsErrorClass(ClassOf(reply.code)) && reply.body.Parsed?)
      && ((r.Ok? && r.value.ErrorDoc?) ==> reply.body == Parsed(r.value.doc))
      && (r.Err? <==> IsErrorClass(ClassOf(reply.code)) && reply.body.Malformed?)
      && (r.Err? ==> r.error == ParserError)
      && (r == Ok(NoResult) <==> !IsErrorClass(ClassOf(reply.code)) && reply.code != 204)
  {
    var reply := server(0, RemoveGroupMemberRequest(dept, user));
    DispatchByClass(reply);
    Dispatch(reply)
  }

  // ---------------------------------------------------------------------------
  // Request shapes
  // ---------------------------------------------------------------------------

  lemma RootJoin()
    ensures Join(RootParts, '/') == GraphRoot
  {
    var host := "https://graph.microsoft.com";
    assert host == "https:/" + "/" + "graph.microsoft.com";
    assert GraphRoot == host + "/" + "v1.0";
    var p2 := ["https:", ""];
    var p3 := p2 + ["graph.microsoft.com"];
    assert Join(p2, '/') == "https:/" by {
      assert p2[1..] == [""];
    }
    JoinSnoc(p2, "graph.microsoft.com", '/');
    JoinSnoc(p3, "v1.0", '/');
    assert p3 + ["v1.0"] == RootParts;
  }

  lemma RootNoSlash()
    ensures NoSep(RootParts, '/')
  {
    assert '/' !in "graph.microsoft.com";
    assert '/' !in "v1.0";
    assert '/' !in "https:";
  }

  /** A Graph URL whose path below the v1.0 root is `tail` splits into the root's and the tail's components. */
  lemma GraphUrlSegments(tail: seq<string>)
    requires |tail| >= 1 && NoSep(tail, '/')
    ensures Segments(GraphRoot + "/" + Join(tail, '/'), '/') == RootParts + tail
  {
    RootJoin();
    RootNoSlash();
    JoinAppend(RootParts, tail, '/');
    assert NoSep(RootParts + tail, '/');
    SegmentsOfJoin(RootParts + tail, '/');
  }

  lemma Join3(a: string, b: string, c: string)
    ensures Join([a, b, c], '/') == a + "/" + (b + "/" + c)
  {
    assert [a, b, c][1..] == [b, c];
    assert Join([b, c], '/') == b + "/" + c by {
      assert [b, c][1..] == [c];
    }
  }

  /** `list_group_members` GETs the members collection of the group. */
  lemma ListRequestShape(dept: string)
    requires '/' !in dept
    ensures var r := ListGroupMembersRequest(dept);
      && r.verb == Get && r.body == NoBody
      && Segments(r.url, '/') == RootParts + ["groups", dept, "members"]
  {
    var tail := ["groups", dept, "members"];
    Join3("groups", dept, "members");
    assert GraphRoot + "/" + Join(tail, '/') == ListGroupMembersRequest(dept).url;
    GraphUrlSegments(tail);
  }

  lemma AddUrlShape(dept: string)
    requires '/' !in dept
    ensures Segments(GraphRoot + "/groups/" + dept + "/members/$ref", '/') == RootParts + ["groups", dept, "members", "$ref"]
  {
    var tail := ["groups", dept, "members", "$ref"];
    assert Join(tail, '/') == "groups" + "/" + (dept + "/" + ("members" + "/" + "$ref")) by {
      assert tail[1..] == [dept, "members", "$ref"];
      Join3(dept, "members", "$ref");
    }
    assert GraphRoot + "/" + ("groups" + "/" + (dept + "/" + ("members" + "/" + "$ref")))
        == GraphRoot + "/groups/" + dept + "/members/$ref";
    GraphUrlSegments(tail);
  }

  lemma ObjectUrlShape(user: string)
    requires '/' !in user
    ensures Segments(DirectoryObjectUrl(user), '/') == RootParts + ["directoryObjects", user]
  {
    assert Join(["directoryObjects", user], '/') == "directoryObjects" + "/" + user by {
      assert ["directoryObjects", user][1..] == [user];
    }
    Glue(GraphRoot, '/', "directoryObjects/", user);
    assert ['/'] + "directoryObjects/" == "/directoryObjects/";
    assert "directoryObjects" + "/" + user == "directoryObjects/" + user;
    GraphUrlSegments(["directoryObjects", user]);
  }

  /**
   * `add_group_member` POSTs to the group's `members/$ref` collection a body
   * with the single key "@odata.id", whose value is the directory object URL
   * ending in the user id.
   */
  lemma AddRequestShape(dept: string, user: string)
    requires '/' !in dept && '/' !in user
    ensures var r := AddGroupMemberRequest(dept, user);
      && r.verb == Post
      && Segments(r.url, '/') == RootParts + ["groups", dept, "members", "$ref"]
      && r.body.JsonFields? && r.body.fields.Keys == {"@odata.id"}
      && Segments(r.body.fields["@odata.id"], '/') == RootParts + ["directoryObjects", user]
  {
    AddUrlShape(dept);
    ObjectUrlShape(user);
  }

  /**
   * `remove_group_member` DELETEs `members/{user_id}/$ref` of the group, with
   * no body, so that the path names both the group and the user.
   */
  lemma RemoveRequestShape(dept: string, user: string)
    requires '/' !in dept && '/' !in user
    ensures var r := RemoveGroupMemberRequest(dept, user);
      && r.verb == Delete && r.body == NoBody
      && Segments(r.url, '/') == RootParts + ["groups", dept, "members", user, "$ref"]
  {
    var tail := ["groups", dept, "members", user, "$ref"];
    assert Join(tail, '/') == "groups" + "/" + (dept + "/" + ("members" + "/" + (user + "/" + "$ref"))) by {
      assert tail[1..] == [dept, "members", user, "$ref"];
      assert tail[1..][1..] == ["members", user, "$ref"];
      Join3("members", user, "$ref");
    }
    assert GraphRoot + "/" + ("groups" + "/" + (dept + "/" + ("members" + "/" + (user + "/" + "$ref"))))
        == GraphRoot + "/groups/" + dept + "/members/" + user + "/$ref";
    GraphUrlSegments(tail);
  }
}
