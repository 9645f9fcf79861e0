/**
 * A few of the operation descriptors the per-endpoint wrappers pass to `#sendRequest`, and
 * what a request for each looks like. Long descriptions are abbreviated; the request logic
 * never reads them.
 */
module Descriptors {
  import opened Wrappers
  import opened Strings
  import opened ApiSchema
  import opened Json
  import opened Http

  function ErrorReturn(status: int, code: string): Return {
    Return(status, "Error & {code: \"" + code + "\"}", None)
  }

  /** `newsletter.list`: `GET /newsletter`, no token field. */
  const NewsletterList := Operation(
    "List newsletters", GET, "/newsletter", [],
    [("limit", Parameter("The number of newsletters to return per page. No more than 50.", Some("10"), "number", false)),
     ("page", Parameter("The page number. No more than 2³² (4294967296).", Some("1"), "number", false))],
    [],
    [Return(200, "Newsletter[]", None), ErrorReturn(429, "RATE_LIMITED"), ErrorReturn(500, "INTERNAL_SERVER_ERROR"),
     ErrorReturn(503, "MAINTENANCE")],
    NoToken)

  /** `projects.delete`: `DELETE /projects/:id` with the scope `projects.delete.own`. */
  const ProjectsDelete := Operation(
    "Delete a project", DELETE, "/projects/:id",
    [("id", Parameter("Project ID", None, "string", true))], [], [],
    [Return(204, "void", None), ErrorReturn(404, "RESOURCE_NOT_FOUND"), ErrorReturn(401, "UNAUTHORIZED"),
     ErrorReturn(403, "NO_PERMISSION"), ErrorReturn(429, "RATE_LIMITED"), ErrorReturn(500, "INTERNAL_SERVER_ERROR"),
     ErrorReturn(503, "MAINTENANCE")],
    Scope("projects.delete.own"))

  /** `auth.register`: `POST /auth/register`; the module build declares `token: null`, the browser build no token field. */
  function Register(build: Build): Operation {
    Operation(
      "Create an account and session.", POST, "/auth/register", [], [],
      [("username", Parameter("The username to use for the account.", None, "string", true)),
       ("email", Parameter("The e-mail address to register.", None, "string", true)),
       ("password", Parameter("The password to use for the account.", None, "string", true))],
      [Return(201, "{session: string}", Some("Session token. Also returned in `Set-Cookie` header.")),
       ErrorReturn(422, "INVALID_DATA"), ErrorReturn(403, "IP_REJECTED"), ErrorReturn(429, "RATE_LIMITED"),
       ErrorReturn(500, "INTERNAL_SERVER_ERROR"), ErrorReturn(503, "MAINTENANCE")],
      if build == ModuleBuild then AnyScope else NoToken)
  }

  /** The arguments `newsletter.list(limit, page)` passes: no path parameters, both numbers as text, an empty object body. */
  function NewsletterListCall(limit: nat, page: nat): RequestInfo {
    RequestInfo(NewsletterList, [], [("limit", NatToString(limit)), ("page", NatToString(page))], Obj([]))
  }

  /** The arguments `projects.delete(id)` passes. */
  function ProjectsDeleteCall(id: string): RequestInfo {
    RequestInfo(ProjectsDelete, [("id", id)], [], Obj([]))
  }

  /** The arguments `auth.register(username, email, password)` passes: the three fields as the body. */
  function RegisterCall(build: Build, username: string, email: string, password: string): RequestInfo {
    RequestInfo(Register(build), [], [], Obj([("username", Str(username)), ("email", Str(email)), ("password", Str(password))]))
  }

  /** Listing newsletters sends the query as given, no body, no credentials and never a token. */
  lemma NewsletterListRequest(build: Build, baseUrl: string, token: Option<string>, limit: nat, page: nat,
                              resolve: (string, string) -> string, stringify: JsValue -> string)
    ensures var info := NewsletterListCall(limit, page);
      var init := RequestInit(build, token, info, stringify);
      && RequestUrl(baseUrl, info, resolve).search == [("limit", NatToString(limit)), ("page", NatToString(page))]
      && init.verb == GET && init.body == None && !init.credentialsInclude
      && "Authorization" !in init.headers && "Content-Type" !in init.headers
  {
    BodyEncoding(build, token, NewsletterListCall(limit, page), stringify);
    AuthorizationRule(build, token, NewsletterListCall(limit, page), stringify);
  }

  /**
   * Deleting a project puts the id into the path, as a string replacement, so `$` patterns in
   * the id are expanded and an id without `$` goes in as it is. The path is the replaced
   * string, before the URL's pathname setter normalises dot segments and backslashes. It sends the empty object as a
   * JSON body (DELETE is neither GET nor HEAD), includes credentials, and sends the token
   * whenever the client has one.
   */
  lemma ProjectsDeleteRequest(build: Build, baseUrl: string, token: Option<string>, id: string, prefix: string,
                              resolve: (string, string) -> string, stringify: JsValue -> string)
    requires ':' !in prefix && resolve("projects/:id", baseUrl) == prefix + "/projects/:id"
    ensures var info := ProjectsDeleteCall(id);
      var init := RequestInit(build, token, info, stringify);
      && RequestUrl(baseUrl, info, resolve).pathname == prefix + "/projects" + Expand("/" + id, "/:id", prefix + "/projects", "")
      && ('$' !in id ==> RequestUrl(baseUrl, info, resolve).pathname == prefix + "/projects/" + id)
      && init.verb == DELETE && init.body == Some(stringify(Obj([])))
      && "Content-Type" in init.headers && init.headers["Content-Type"] == "application/json"
      && init.credentialsInclude
      && ("Authorization" in init.headers <==> HasToken(token))
  {
    var info := ProjectsDeleteCall(id);
    assert RelativePath("/projects/:id") == "projects/:id" by {
      assert "/projects/:id"[0] == '/' && "/projects/:id"[1] != '/';
    }
    ProjectPath(prefix, id);
    BodyEncoding(build, token, info, stringify);
    AuthorizationRule(build, token, info, stringify);
  }

  /** The `:id` placeholder of `/projects/:id` is replaced by `/` and the id, expanded as a string replacement. */
  lemma ProjectPath(prefix: string, id: string)
    requires ':' !in prefix
    ensures SubstitutePath(prefix + "/projects/:id", [("id", id)]) ==
      prefix + "/projects" + Expand("/" + id, "/:id", prefix + "/projects", "")
    ensures '$' !in id ==> SubstitutePath(prefix + "/projects/:id", [("id", id)]) == prefix + "/projects/" + id
  {
    var a := prefix + "/projects";
    var p := Placeholder("id");
    assert p == "/:id";
    assert ':' !in a by {
      assert forall j :: 0 <= j < |a| ==> a[j] == if j < |prefix| then prefix[j] else "/projects"[j - |prefix|];
    }
    var s := SubstitutePath(prefix + "/projects/:id", [("id", id)]);
    var x := Expand("/" + id, p, a, "");
    assert s == a + x + "" by {
      assert !Contains("", p);
      assert a + p + "" == prefix + "/projects/:id";
      SinglePlaceholder(a, "id", id, "");
    }
    assert a + x + "" == a + x;
    if '$' !in id {
      assert s == a + "/" + id + "" by {
        assert !Contains("", p);
        assert a + p + "" == prefix + "/projects/:id";
        SinglePlaceholder(a, "id", id, "");
      }
      assert a + "/" + id + "" == prefix + "/projects/" + id;
    }
  }

  /** The id `$&` stands for the matched `/:id`, so `projects.delete("$&")` asks for `/projects//:id`. */
  lemma DollarAmpersandId(prefix: string)
    requires ':' !in prefix
    ensures SubstitutePath(prefix + "/projects/:id", [("id", "$&")]) == prefix + "/projects//:id"
  {
    ProjectPath(prefix, "$&");
    var before := prefix + "/projects";
    assert ("/" + "$&")[1..] == "$&" && "$&"[2..] == [];
    assert Expand("/" + "$&", "/:id", before, "") == "/" + "/:id";
  }

  /**
   * Registering: the module build declares `token: null`, so the token goes along whenever
   * the client has one; the browser build declares none, so it never does and asks for no
   * credentials.
   */
  lemma RegisterAuthorization(token: Option<string>, username: string, email: string, password: string,
                              stringify: JsValue -> string)
    ensures var init := RequestInit(ModuleBuild, token, RegisterCall(ModuleBuild, username, email, password), stringify);
      ("Authorization" in init.headers <==> HasToken(token)) && init.credentialsInclude
    ensures var init := RequestInit(BrowserBuild, token, RegisterCall(BrowserBuild, username, email, password), stringify);
      "Authorization" !in init.headers && !init.credentialsInclude && "User-Agent" !in init.headers
    ensures forall build: Build :: var init := RequestInit(build, token, RegisterCall(build, username, email, password), stringify);
      init.body == Some(stringify(RegisterCall(build, username, email, password).body)) &&
      init.headers["Content-Type"] == "application/json"
  {
    AuthorizationRule(ModuleBuild, token, RegisterCall(ModuleBuild, username, email, password), stringify);
    AuthorizationRule(BrowserBuild, token, RegisterCall(BrowserBuild, username, email, password), stringify);
    HeaderNames(BrowserBuild, token, RegisterCall(BrowserBuild, username, email, password), stringify);
  }
}
