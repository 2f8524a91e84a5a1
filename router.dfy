// The admin API routes and the handler wrapper every endpoint runs in. Registration order
// matters: gin's Use only reaches routes registered after it, so the login route precedes
// the authentication middleware and every other route follows it.
module AdminRouter {
  import opened Wrappers
  import opened Values
  import opened RequestMiddleware

  /** One call on the admin group: Use(middleware) or POST(path, endpoint, maskData...). */
  datatype Registration = Use(middleware: string) | Post(path: string, endpoint: string, masked: bool)

  /** The "/etlApi" group in registration order. */
  const AdminGroup: seq<Registration> := [
    Use("RequestResponseMiddleware"),
    Post("/login", "Login", true),
    Use("AuthMiddleware"),
    Post("/newDataSource", "NewDataSource", true),
    Post("/getDataSourceTypeList", "GetDataSourceTypeList", false),
    Post("/getDataSourceList", "GetDataSourceList", false),
    Post("/deleteDataSource", "DeleteDataSource", false),
    Post("/getVariableList", "GetVariableList", false),
    Post("/getVariableTypeList", "GetVariableTypeList", false),
    Post("/newVariable", "NewVariable", false),
    Post("/deleteVariable", "DeleteVariable", false),
    Post("/testVariable", "TestVariable", false),
    Post("/getTaskAll", "GetTaskAll", false),
    Post("/addTask", "AddTask", false),
    Post("/getTaskById", "GetTaskById", false),
    Post("/updateTask", "UpdateTask", false),
    Post("/runTask", "RunTask", false),
    Post("/deleteTask", "DeleteTask", false),
    Post("/stopTask", "StopTask", false),
    Post("/runTaskOnce", "RunTaskOnce", false),
    Post("/getTypeByComponent", "GetTypeByComponent", false),
    Post("/getTaskRecordList", "GetTaskRecordList", false),
    Post("/cancelTaskRecord", "CancelTaskRecord", false),
    Post("/getFileList", "GetFileList", false),
    Post("/uploadFile", "UploadFile", true),
    Post("/deleteFile", "DeleteFile", false),
    Post("/getFileListByTaskRecordID", "GetFileListByTaskRecordID", false)
  ]

  /** The middlewares installed by a run of registrations, in order. */
  function Middlewares(regs: seq<Registration>): (ms: seq<string>)
    ensures |ms| <= |regs|
  {
    if |regs| == 0 then []
    else match regs[|regs| - 1]
      case Use(m) => Middlewares(regs[..|regs| - 1]) + [m]
      case Post(_, _, _) => Middlewares(regs[..|regs| - 1])
  }

  /** The handler chain of the route registered at position i: the middlewares used before
      it, then its endpoint. */
  function Chain(regs: seq<Registration>, i: nat): seq<string>
    requires i < |regs| && regs[i].Post?
  {
    Middlewares(regs[..i]) + [regs[i].endpoint]
  }

  /** Middlewares distribute over concatenation. */
  lemma {:induction false} MiddlewaresAppend(a: seq<Registration>, b: seq<Registration>)
    ensures Middlewares(a + b) == Middlewares(a) + Middlewares(b)
    decreases |b|
  {
    if |b| == 0 {
      assert a + b == a;
    } else {
      assert (a + b)[..|a + b| - 1] == a + b[..|b| - 1];
      MiddlewaresAppend(a, b[..|b| - 1]);
    }
  }

  /** A middleware is in a route's chain exactly when its Use comes before the route. */
  lemma {:induction false} InChain(regs: seq<Registration>, m: string)
    ensures m in Middlewares(regs) <==> exists j :: 0 <= j < |regs| && regs[j] == Use(m)
    decreases |regs|
  {
    if |regs| > 0 {
      var front := regs[..|regs| - 1];
      InChain(front, m);
      assert forall j :: 0 <= j < |front| ==> regs[j] == front[j];
    }
  }

  /** Only POST registrations follow the authentication middleware. */
  lemma AfterAuthArePosts()
    ensures forall i :: 3 <= i < |AdminGroup| ==> AdminGroup[i].Post?
  {
  }

  /** Every route after the login route runs the logging middleware and then the
      authentication middleware before its endpoint; the login route runs only the first. */
  lemma {:induction false} RouteChains()
    ensures Chain(AdminGroup, 1) == ["RequestResponseMiddleware", "Login"]
    ensures forall i :: 3 <= i < |AdminGroup| ==>
      AdminGroup[i].Post? && Chain(AdminGroup, i) == ["RequestResponseMiddleware", "AuthMiddleware", AdminGroup[i].endpoint]
  {
    assert AdminGroup[..1] == [Use("RequestResponseMiddleware")];
    assert Middlewares(AdminGroup[..1]) == ["RequestResponseMiddleware"];
    var head := AdminGroup[..3];
    assert head == [Use("RequestResponseMiddleware"), Post("/login", "Login", true), Use("AuthMiddleware")];
    assert Middlewares(head[..2]) == ["RequestResponseMiddleware"];
    assert Middlewares(head) == ["RequestResponseMiddleware", "AuthMiddleware"];
    AfterAuthArePosts();
    forall i | 3 <= i < |AdminGroup|
      ensures Middlewares(AdminGroup[..i]) == ["RequestResponseMiddleware", "AuthMiddleware"]
    {
      assert AdminGroup[..i] == head + AdminGroup[3..i];
      MiddlewaresAppend(head, AdminGroup[3..i]);
      NoUse(AdminGroup[3..i]);
    }
  }

  lemma {:induction false} NoUse(regs: seq<Registration>)
    requires forall i :: 0 <= i < |regs| ==> regs[i].Post?
    ensures Middlewares(regs) == []
    decreases |regs|
  {
    if |regs| > 0 {
      NoUse(regs[..|regs| - 1]);
    }
  }

  /** The routes whose request bodies are kept out of the log. */
  lemma MaskedRoutes()
    ensures forall i :: 0 <= i < |AdminGroup| && AdminGroup[i].Post? && AdminGroup[i].masked ==>
      AdminGroup[i].path in {"/login", "/newDataSource", "/uploadFile"}
  {
  }

  /** AdminAPI: the first optional flag marks the route for masking; a request that does not
      bind is a public error (code 1), an endpoint error a service error (code 2) carrying the
      endpoint's message, and a result code 0 with message "ok" and the data. `bound` is the
      outcome of ShouldBind and `f` the endpoint, called with the response language. */
  method AdminAPI<T>(ctx: Context, maskData: seq<bool>, bound: Option<T>, f: (T, string) -> Result<string>)
    modifies ctx
    ensures |maskData| > 0 && maskData[0] ==> ctx.maskData == "true"
    ensures !(|maskData| > 0 && maskData[0]) ==> ctx.maskData == old(ctx.maskData)
    ensures bound.None? ==>
      ctx.code == 1 && ctx.message == "参数错误" && ctx.aborted && ctx.data == old(ctx.data)
    ensures bound.Some? && f(bound.value, old(ctx.language)).Err? ==>
      ctx.code == 2 && ctx.message == f(bound.value, old(ctx.language)).msg && ctx.aborted
      && ctx.data == old(ctx.data)
    ensures bound.Some? && f(bound.value, old(ctx.language)).Ok? ==>
      ctx.code == 0 && ctx.message == "ok" && ctx.data == Some(f(bound.value, old(ctx.language)).value)
      && ctx.aborted == old(ctx.aborted)
    ensures ctx.language == old(ctx.language) && ctx.token == old(ctx.token)
  {
    var lang := ctx.language;
    if |maskData| > 0 && maskData[0] {
      ctx.maskData := "true";
    }
    if bound.None? {
      ctx.code := 1;
      ctx.message := "参数错误";
      ctx.aborted := true;
      return;
    }
    var resp := f(bound.value, lang);
    if resp.Err? {
      ctx.code := 2;
      ctx.message := resp.msg;
      ctx.aborted := true;
    } else {
      ctx.code := 0;
      ctx.data := Some(resp.value);
      ctx.message := "ok";
    }
  }

  /** AuthMiddleware: a token that does not decode is an authentication error (code 3).
      `tokenValid` is the outcome of decoding the JWT. */
  method Authenticate(ctx: Context, tokenValid: bool)
    modifies ctx
    ensures !tokenValid ==> ctx.code == 3 && ctx.message == "invalid token" && ctx.aborted
    ensures tokenValid ==> ctx.code == old(ctx.code) && ctx.message == old(ctx.message) && ctx.aborted == old(ctx.aborted)
    ensures ctx.data == old(ctx.data) && ctx.maskData == old(ctx.maskData)
    ensures ctx.language == old(ctx.language) && ctx.token == old(ctx.token)
  {
    if !tokenValid {
      ctx.code := 3;
      ctx.message := "invalid token";
      ctx.aborted := true;
    }
  }

  /** The language the middleware settles on for a request. */
  function ResponseLanguage(h: Header, accepted: seq<string>): string
  {
    if HeaderGet(h, "Accept-Language") in accepted then HeaderGet(h, "Accept-Language") else "en"
  }

  /** Whether the route registered at position i runs the authentication middleware. */
  predicate Protected(i: nat)
    requires i < |AdminGroup| && AdminGroup[i].Post?
  {
    "AuthMiddleware" in Chain(AdminGroup, i)
  }

  /** Login is the one route reachable without a valid token. */
  lemma OnlyLoginPublic(i: nat)
    requires 1 <= i < |AdminGroup| && AdminGroup[i].Post?
    ensures Protected(i) <==> i != 1
  {
    RouteChains();
    if i == 1 {
      assert "AuthMiddleware" != "RequestResponseMiddleware" && "AuthMiddleware" != "Login";
    } else {
      assert Chain(AdminGroup, i)[1] == "AuthMiddleware";
    }
  }

  /** Whether a request reaches its endpoint and the endpoint succeeds. */
  predicate Succeeds<T>(i: nat, req: Request, accepted: seq<string>, tokenValid: bool,
                        bound: Option<T>, f: (T, string) -> Result<string>)
    requires i < |AdminGroup| && AdminGroup[i].Post?
  {
    req.body.Ok? && (!Protected(i) || tokenValid) && bound.Some?
    && f(bound.value, ResponseLanguage(req.header, accepted)).Ok?
  }

  /** The chain after the logging middleware's first half: authentication for every route
      that the registration order protects, then the endpoint, each skipped once the chain is aborted. With `maskEarly`
      the route's mask flag is set before authentication. */
  method Dispatch<T>(ctx: Context, i: nat, tokenValid: bool, bound: Option<T>,
                     f: (T, string) -> Result<string>, maskEarly: bool)
    requires 1 <= i < |AdminGroup| && AdminGroup[i].Post?
    modifies ctx
    ensures old(ctx.aborted) ==> ctx.code == old(ctx.code) && ctx.message == old(ctx.message)
    ensures old(ctx.aborted) && !(maskEarly && AdminGroup[i].masked) ==> ctx.maskData == old(ctx.maskData)
    ensures !old(ctx.aborted) && Protected(i) && !tokenValid ==> ctx.code == 3 && ctx.message == "invalid token"
    ensures !old(ctx.aborted) && Protected(i) && !tokenValid && !(maskEarly && AdminGroup[i].masked) ==>
      ctx.maskData == old(ctx.maskData)
    ensures !old(ctx.aborted) && (!Protected(i) || tokenValid) && bound.None? ==> ctx.code == 1
    ensures !old(ctx.aborted) && (!Protected(i) || tokenValid) && bound.Some? ==>
      (f(bound.value, old(ctx.language)).Err? ==> ctx.code == 2)
      && (f(bound.value, old(ctx.language)).Ok? ==>
            ctx.code == 0 && ctx.data == Some(f(bound.value, old(ctx.language)).value))
    ensures !old(ctx.aborted) && (!Protected(i) || tokenValid) && AdminGroup[i].masked ==> ctx.maskData == "true"
    ensures maskEarly && AdminGroup[i].masked ==> ctx.maskData == "true"
    ensures !AdminGroup[i].masked ==> ctx.maskData == old(ctx.maskData)
    ensures ctx.language == old(ctx.language)
  {
    if maskEarly && AdminGroup[i].masked {
      ctx.maskData := "true";
    }
    if ctx.aborted {
      return;
    }
    if Protected(i) {
      Authenticate(ctx, tokenValid);
      if ctx.aborted {
        return;
      }
    }
    AdminAPI(ctx, [AdminGroup[i].masked], bound, f);
  }

  /** One request to the admin route registered at position i, through the logging
      middleware, authentication and the endpoint wrapper, as registered: the mask flag is
      set by the endpoint wrapper, after authentication. */
  method ServeAsWritten<T>(i: nat, req: Request, order: seq<string>, accepted: seq<string>, tokenValid: bool,
                           bound: Option<T>, f: (T, string) -> Result<string>, translate: (string, string) -> string)
    returns (reply: Reply)
    requires 1 <= i < |AdminGroup| && AdminGroup[i].Post?
    requires IsEnumeration(order, req.header.Keys)
    ensures reply.status != 500
    ensures reply.status == 200 <==> Succeeds(i, req, accepted, tokenValid, bound, f)
    ensures req.body.Ok? && Protected(i) && !tokenValid ==> reply.log.body == req.body.value
  {
    var ctx := new Context();
    var log := Before(ctx, req, order, accepted);
    Dispatch(ctx, i, tokenValid, bound, f, false);
    reply := Finish(ctx, log, translate);
  }

  /** The same request with the route's mask flag set before authentication, so a masked
      route never logs its body. */
  method Serve<T>(i: nat, req: Request, order: seq<string>, accepted: seq<string>, tokenValid: bool,
                  bound: Option<T>, f: (T, string) -> Result<string>, translate: (string, string) -> string)
    returns (reply: Reply)
    requires 1 <= i < |AdminGroup| && AdminGroup[i].Post?
    requires IsEnumeration(order, req.header.Keys)
    ensures reply.status != 500
    ensures reply.status == 200 <==> Succeeds(i, req, accepted, tokenValid, bound, f)
    ensures reply.status == 200 ==>
      (reply.body.WithData? && reply.body.data == f(bound.value, ResponseLanguage(req.header, accepted)).value)
    ensures AdminGroup[i].masked ==> reply.log.body == "mask"
    ensures !AdminGroup[i].masked ==>
      reply.log.body == (if req.body.Ok? then req.body.value else "Fail To Get Body")
  {
    var ctx := new Context();
    var log := Before(ctx, req, order, accepted);
    Dispatch(ctx, i, tokenValid, bound, f, true);
    reply := Finish(ctx, log, translate);
  }

  /** A new-datasource request whose token has expired: as registered, its body, with the
      connection password in it, reaches the log; with the flag set first it does not. */
  method ExpiredTokenLogsSecret() returns (loggedAsWritten: string, loggedIntended: string)
    ensures loggedAsWritten == "{\"password\":\"secret\"}" && loggedIntended == "mask"
  {
    var req := Request("POST", "/etlApi/newDataSource", map[], Ok("{\"password\":\"secret\"}"), "10.0.0.1");
    var f := (x: string, lang: string) => Ok(x);
    var translate := (lang: string, key: string) => key;
    assert AdminGroup[3] == Post("/newDataSource", "NewDataSource", true);
    OnlyLoginPublic(3);
    var asWritten := ServeAsWritten(3, req, [], ["en"], false, Some("body"), f, translate);
    var intended := Serve(3, req, [], ["en"], false, Some("body"), f, translate);
    loggedAsWritten := asWritten.log.body;
    loggedIntended := intended.log.body;
  }
}
