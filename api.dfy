/** The route registry and request dispatcher of the express router: `APIInfo` endpoint
    records, the per-group list `defineAPI` and `updateAPIInfo` build, and the handler
    `registerAPI` installs for each endpoint. */
module Api {
  import opened JsValues

  /** What a middleware or a handler may throw, other than the `ExpressRouter.NEXT` sentinel. */
  datatype Error =
    | AppLogicError(message: string, status: int, details: Value)
    | Thrown(value: Value)

  /** How a middleware or handler finishes: normally (with the request as it left it, or the
      handler's result), by throwing an error, or by throwing `ExpressRouter.NEXT`. */
  datatype Outcome<+T> = Ok(value: T) | Fail(err: Error) | Next

  type Extractor = Value -> Value
  type Middleware = Value -> Outcome<Value>
  type Handler = seq<Value> -> Outcome<Value>

  /** One entry of `opts.args`: a path string, a function, or anything else. */
  datatype ArgSpec = PathArg(path: string) | FnArg(f: Value -> Value) | OtherArg

  /** `APIDefineOpts`; `None` stands for a field that is not given. */
  datatype Opts = Opts(httpMethod: Option<string>, path: Option<string>, args: Option<seq<ArgSpec>>)

  /** `o || fallback` on an optional string: the empty string is falsy too. */
  function Or(o: Option<string>, fallback: string): string {
    if o.Some? && o.value != "" then o.value else fallback
  }

  /** The methods of `API_METHOD` and the decorators `GET` ... `HEAD` that declare them. */
  datatype ApiMethod = GET | POST | PUT | OPTIONS | DELETE | PATCH | HEAD

  function MethodName(m: ApiMethod): string {
    match m
    case GET => "GET"
    case POST => "POST"
    case PUT => "PUT"
    case OPTIONS => "OPTIONS"
    case DELETE => "DELETE"
    case PATCH => "PATCH"
    case HEAD => "HEAD"
  }

  /** The router function an endpoint is installed with. */
  datatype RouterVerb = RouterGet | RouterPost | RouterPut | RouterOptions | RouterDelete | RouterPatch | RouterHead | RouterUse

  /** `getRouterDefineMethod`: each declared method to its own verb, anything else to `router.use`. */
  function RouterDefineMethod(httpMethod: string): (v: RouterVerb)
    ensures v == RouterUse <==> httpMethod !in DeclaredMethods
  {
    match httpMethod
    case "GET" => RouterGet
    case "POST" => RouterPost
    case "PUT" => RouterPut
    case "OPTIONS" => RouterOptions
    case "DELETE" => RouterDelete
    case "PATCH" => RouterPatch
    case "HEAD" => RouterHead
    case _ => RouterUse
  }

  const DeclaredMethods: set<string> := {"GET", "POST", "PUT", "OPTIONS", "DELETE", "PATCH", "HEAD"}

  /** Every method a decorator declares is installed with its own router function. */
  lemma DeclaredVerb(m: ApiMethod)
    ensures MethodName(m) in DeclaredMethods
    ensures RouterDefineMethod(MethodName(m)) == VerbOf(m)
  {
  }

  function VerbOf(m: ApiMethod): RouterVerb {
    match m
    case GET => RouterGet
    case POST => RouterPost
    case PUT => RouterPut
    case OPTIONS => RouterOptions
    case DELETE => RouterDelete
    case PATCH => RouterPatch
    case HEAD => RouterHead
  }

  /** What the extractor built for one spec does on every request. */
  ghost predicate Realizes(spec: ArgSpec, e: Extractor) {
    match spec
    case PathArg(p) => forall req :: e(req) == Get(req, p)
    case FnArg(f) => e == f
    case OtherArg => forall req :: e(req) == Undefined
  }

  function ArgExtractor(spec: ArgSpec): Extractor {
    match spec
    case PathArg(p) => req => Get(req, p)
    case FnArg(f) => f
    case OtherArg => req => Undefined
  }

  /** `setArgs`: one extractor per spec, in order; no list gives no extractors. */
  function ArgExtractors(specs: Option<seq<ArgSpec>>): (r: seq<Extractor>)
    ensures specs.None? ==> r == []
    ensures specs.Some? ==> |r| == |specs.value| && forall i :: 0 <= i < |r| ==> Realizes(specs.value[i], r[i])
  {
    match specs
    case None => []
    case Some(s) => seq(|s|, i requires 0 <= i < |s| => ArgExtractor(s[i]))
  }

  /** `this.args.map(arg => arg(req))`. */
  function Evaluate(args: seq<Extractor>, req: Value): (vs: seq<Value>)
    ensures |vs| == |args| && forall i :: 0 <= i < |args| ==> vs[i] == args[i](req)
  {
    seq(|args|, i requires 0 <= i < |args| => args[i](req))
  }

  /** Where the middleware chain stopped: `outcome` is `Ok` when every middleware completed,
      otherwise the first failure; `at` is the request the last middleware run was given
      (or the final request when all completed); `ran` counts the middleware invoked. */
  datatype Chain = Chain(outcome: Outcome<Value>, at: Value, ran: nat)

  /** The `for (const mw of this.middlewares) await mw(req)` loop, as a specification. */
  function RunChain(mws: seq<Middleware>, req: Value): (c: Chain)
    decreases |mws|
    ensures c.ran <= |mws|
    ensures c.outcome.Ok? ==> c.ran == |mws| && c.at == c.outcome.value
    ensures !c.outcome.Ok? ==> 0 < c.ran
  {
    if mws == [] then Chain(Ok(req), req, 0)
    else match mws[0](req)
      case Ok(req') => var c := RunChain(mws[1..], req'); c.(ran := c.ran + 1)
      case Fail(e) => Chain(Fail(e), req, 1)
      case Next => Chain(Next, req, 1)
  }

  const RouterError: string := "express_router:error"

  /** An event emitted on the server: `emit(name, err, req)`. */
  datatype Event = Event(name: string, err: Error, req: Value)

  /** How the installed handler ends: it returns the handler's result, returns nothing
      after the `NEXT` sentinel, or rethrows. */
  datatype Reply = Replied(value: Value) | PassedOn | Rethrown(err: Error)

  /** One request through an endpoint: the reply, the error events emitted, how many
      middleware ran and whether the handler was invoked. */
  datatype Dispatch = Dispatch(reply: Reply, events: seq<Event>, middlewareCalls: nat, handlerCalled: bool)

  /** The `catch` block: swallow `NEXT`, otherwise emit one error event and rethrow. */
  function Settle(o: Outcome<Value>, req: Value, ran: nat, called: bool): Dispatch {
    match o
    case Ok(v) => Dispatch(Replied(v), [], ran, called)
    case Next => Dispatch(PassedOn, [], ran, called)
    case Fail(e) => Dispatch(Rethrown(e), [Event(RouterError, e, req)], ran, called)
  }

  /** The body of the handler `registerAPI` installs. */
  function DispatchSpec(mws: seq<Middleware>, args: seq<Extractor>, handler: Handler, req: Value): (d: Dispatch)
    ensures d.reply.Rethrown? <==> |d.events| == 1
    ensures d.reply.Rethrown? ==> d.events[0] == Event(RouterError, d.reply.err, RunChain(mws, req).at)
    ensures d.reply.PassedOn? ==> d.events == []
    ensures d.middlewareCalls <= |mws|
    ensures d.handlerCalled <==> RunChain(mws, req).outcome.Ok?
    ensures d.handlerCalled ==> d.middlewareCalls == |mws|
  {
    var c := RunChain(mws, req);
    if c.outcome.Ok? then Settle(handler(Evaluate(args, c.at)), c.at, c.ran, true)
    else Settle(c.outcome, c.at, c.ran, false)
  }

  /** Running a chain is running a prefix and then, if it completed, the rest. */
  lemma {:induction false} ChainSplit(mws: seq<Middleware>, i: nat, req: Value)
    requires i <= |mws|
    ensures var p := RunChain(mws[..i], req);
      RunChain(mws, req) == if p.outcome.Ok? then (var q := RunChain(mws[i..], p.at); q.(ran := q.ran + i)) else p
    decreases i
  {
    if i == 0 {
      assert mws[..0] == [];
      assert mws[0..] == mws;
    } else {
      var pre := mws[..i];
      assert pre[0] == mws[0];
      match mws[0](req)
      case Ok(req') =>
        assert pre[1..] == mws[1..][..i - 1];
        assert mws[1..][i - 1..] == mws[i..];
        ChainSplit(mws[1..], i - 1, req');
      case Fail(e) =>
      case Next =>
    }
  }

  /** Appending a middleware: it runs only if the chain before it completed, and it is given
      the request the last middleware returned; what it returns is where the chain now ends. */
  lemma {:induction false} RunChainSnoc(mws: seq<Middleware>, mw: Middleware, req: Value)
    ensures var p := RunChain(mws, req);
      RunChain(mws + [mw], req) ==
        if !p.outcome.Ok? then p
        else match mw(p.at)
          case Ok(r) => Chain(Ok(r), r, p.ran + 1)
          case Fail(e) => Chain(Fail(e), p.at, p.ran + 1)
          case Next => Chain(Next, p.at, p.ran + 1)
  {
    var all := mws + [mw];
    ChainSplit(all, |mws|, req);
    assert all[..|mws|] == mws;
    assert all[|mws|..] == [mw];
    assert [mw][1..] == [];
  }

  /** The chain completes exactly when each middleware, given the request its predecessors
      left, completes. */
  lemma {:induction false} ChainOkIff(mws: seq<Middleware>, req: Value)
    ensures RunChain(mws, req).outcome.Ok? <==>
            forall i :: 0 <= i < |mws| ==>
              RunChain(mws[..i], req).outcome.Ok? && mws[i](RunChain(mws[..i], req).at).Ok?
  {
    if RunChain(mws, req).outcome.Ok? {
      forall i | 0 <= i < |mws|
        ensures RunChain(mws[..i], req).outcome.Ok? && mws[i](RunChain(mws[..i], req).at).Ok?
      {
        ChainSplit(mws, i, req);
        assert mws[i..][0] == mws[i];
      }
    } else {
      assert mws[..|mws|] == mws;
      var k := FirstStop(mws, req, |mws|);
      ChainSplit(mws, k, req);
      assert mws[k..][0] == mws[k];
    }
  }

  /** A failing chain has a first middleware that does not complete. */
  lemma {:induction false} FirstStop(mws: seq<Middleware>, req: Value, n: nat) returns (k: nat)
    requires n <= |mws| && !RunChain(mws[..n], req).outcome.Ok?
    ensures k < n && RunChain(mws[..k], req).outcome.Ok? && !mws[k](RunChain(mws[..k], req).at).Ok?
    decreases n
  {
    assert n > 0;
    ChainSplit(mws[..n], n - 1, req);
    assert mws[..n][..n - 1] == mws[..n - 1];
    assert mws[..n][n - 1..] == [mws[n - 1]];
    if RunChain(mws[..n - 1], req).outcome.Ok? {
      k := n - 1;
      assert [mws[n - 1]][1..] == [];
    } else {
      k := FirstStop(mws, req, n - 1);
    }
  }

  /** The first middleware that fails stops the chain: exactly the middleware up to it ran,
      the handler is not invoked, and nothing after it (middleware, extractors, handler)
      affects the outcome. */
  lemma {:induction false} FailingMiddlewareStops(mws: seq<Middleware>, i: nat, req: Value, tail: seq<Middleware>,
                                                  args: seq<Extractor>, handler: Handler,
                                                  args': seq<Extractor>, handler': Handler)
    requires i < |mws| && RunChain(mws[..i], req).outcome.Ok?
    requires !mws[i](RunChain(mws[..i], req).at).Ok?
    ensures DispatchSpec(mws, args, handler, req).middlewareCalls == i + 1
    ensures !DispatchSpec(mws, args, handler, req).handlerCalled
    ensures DispatchSpec(mws, args, handler, req) == DispatchSpec(mws[..i + 1] + tail, args', handler', req)
    ensures var at := RunChain(mws[..i], req).at;
      var d := DispatchSpec(mws, args, handler, req);
      match mws[i](at)
      case Fail(e) => d.reply == Rethrown(e) && d.events == [Event(RouterError, e, at)]
      case Next => d.reply == PassedOn && d.events == []
      case Ok(_) => false
  {
    var at := RunChain(mws[..i], req).at;
    ChainSplit(mws, i, req);
    assert mws[i..][0] == mws[i];
    var mws' := mws[..i + 1] + tail;
    assert mws'[..i] == mws[..i];
    assert mws'[i..][0] == mws[i];
    ChainSplit(mws', i, req);
    assert RunChain(mws, req) == RunChain(mws', req);
  }

  /** When every middleware completes, the handler gets the extractors' values in order,
      evaluated on the request the chain left, and its outcome decides the reply. */
  lemma MiddlewarePassInvokesHandler(mws: seq<Middleware>, args: seq<Extractor>, handler: Handler, req: Value)
    requires RunChain(mws, req).outcome.Ok?
    ensures var r := RunChain(mws, req).at;
      var d := DispatchSpec(mws, args, handler, req);
      d.handlerCalled && d.middlewareCalls == |mws| &&
      match handler(Evaluate(args, r))
      case Ok(v) => d.reply == Replied(v) && d.events == []
      case Next => d.reply == PassedOn && d.events == []
      case Fail(e) => d.reply == Rethrown(e) && d.events == [Event(RouterError, e, r)]
  {
  }

  /** A snapshot of one endpoint record. */
  datatype ApiDef = ApiDef(key: string, httpMethod: string, path: string, args: seq<Extractor>,
                           middlewares: seq<Middleware>, apiFunc: Handler)

  /** The callbacks handed to `updateAPIInfo` in this codebase: replace the argument
      extractors, or push one middleware. */
  datatype Updater = ReplaceArgs(extractors: seq<Extractor>) | AddMiddleware(middleware: Middleware)

  function Applied(d: ApiDef, u: Updater): ApiDef {
    match u
    case ReplaceArgs(es) => d.(args := es)
    case AddMiddleware(mw) => d.(middlewares := d.middlewares + [mw])
  }

  /** `apis.find(api => api.key == key)` followed by the update, on snapshots. */
  function UpdateFirst(defs: seq<ApiDef>, key: string, u: Updater): (r: seq<ApiDef>)
    decreases |defs|
    ensures |r| == |defs|
  {
    if defs == [] then []
    else if defs[0].key == key then [Applied(defs[0], u)] + defs[1..]
    else [defs[0]] + UpdateFirst(defs[1..], key, u)
  }

  /** With no record of that key the update changes nothing. */
  lemma {:induction false} UpdateFirstNoMatch(defs: seq<ApiDef>, key: string, u: Updater)
    requires forall j :: 0 <= j < |defs| ==> defs[j].key != key
    ensures UpdateFirst(defs, key, u) == defs
    decreases |defs|
  {
    if defs != [] {
      UpdateFirstNoMatch(defs[1..], key, u);
      assert defs == [defs[0]] + defs[1..];
    }
  }

  /** Exactly the first record with the key is updated. */
  lemma {:induction false} UpdateFirstAt(defs: seq<ApiDef>, key: string, u: Updater, i: nat)
    requires i < |defs| && defs[i].key == key
    requires forall j :: 0 <= j < i ==> defs[j].key != key
    ensures UpdateFirst(defs, key, u) == defs[i := Applied(defs[i], u)]
    decreases i
  {
    if i > 0 {
      UpdateFirstAt(defs[1..], key, u, i - 1);
      assert defs[i := Applied(defs[i], u)] == [defs[0]] + defs[1..][i - 1 := Applied(defs[i], u)];
    }
  }

  /** The index `apis.find(api => api.key == key)` lands on. */
  function FindApi(apis: seq<ApiInfo>, key: string): (r: Option<nat>)
    decreases |apis|
    ensures r.Some? ==> r.value < |apis| && apis[r.value].key == key
    ensures r.Some? ==> forall j :: 0 <= j < r.value ==> apis[j].key != key
    ensures r.None? ==> forall j :: 0 <= j < |apis| ==> apis[j].key != key
  {
    if apis == [] then None
    else if apis[0].key == key then Some(0)
    else match FindApi(apis[1..], key)
      case None => None
      case Some(i) => Some(i + 1)
  }

  /** `APIInfo`: one endpoint, whose argument list and middleware chain the decorators update. */
  class ApiInfo {
    const key: string
    var httpMethod: string
    var path: string
    var args: seq<Extractor>
    var middlewares: seq<Middleware>
    const apiFunc: Handler

    ghost function Def(): ApiDef
      reads this
    {
      ApiDef(key, httpMethod, path, args, middlewares, apiFunc)
    }

    /** `method` defaults to GET and `path` to the empty string when not given. */
    constructor(key: string, opts: Opts, apiFunc: Handler)
      ensures this.key == key && this.apiFunc == apiFunc
      ensures httpMethod == Or(opts.httpMethod, "GET") && path == Or(opts.path, "")
      ensures args == ArgExtractors(opts.args) && middlewares == []
    {
      this.key := key;
      this.apiFunc := apiFunc;
      httpMethod := Or(opts.httpMethod, "GET");
      path := Or(opts.path, "");
      middlewares := [];
      args := ArgExtractors(opts.args);
    }

    method SetArgs(specs: Option<seq<ArgSpec>>)
      modifies this
      ensures Def() == old(Def()).(args := ArgExtractors(specs))
    {
      args := ArgExtractors(specs);
    }

    /** Runs one updater on this record. */
    method Apply(u: Updater)
      modifies this
      ensures Def() == Applied(old(Def()), u)
    {
      match u
      case ReplaceArgs(es) =>
        args := es;
      case AddMiddleware(mw) =>
        middlewares := middlewares + [mw];
    }

    /** The handler `registerAPI` installs, on one request. */
    method Handle(req: Value) returns (d: Dispatch)
      ensures d == DispatchSpec(middlewares, args, apiFunc, req)
    {
      var current := req;
      var i := 0;
      while i < |middlewares|
        invariant 0 <= i <= |middlewares|
        invariant RunChain(middlewares[..i], req) == Chain(Ok(current), current, i)
      {
        var o := middlewares[i](current);
        ChainSplit(middlewares[..i + 1], i, req);
        assert middlewares[..i + 1][..i] == middlewares[..i];
        assert middlewares[..i + 1][i..] == [middlewares[i]];
        assert [middlewares[i]][1..] == [];
        if !o.Ok? {
          ChainSplit(middlewares, i, req);
          assert middlewares[i..][0] == middlewares[i];
          d := Settle(o, current, i + 1, false);
          return;
        }
        current := o.value;
        i := i + 1;
      }
      assert middlewares[..i] == middlewares;
      var values := Evaluate(args, current);
      var out := apiFunc(values);
      d := Settle(out, current, i, true);
    }
  }

  /** The endpoint list (`xm:apis` metadata) of one handler group. */
  class ApiGroup {
    var apis: seq<ApiInfo>

    ghost predicate Valid()
      reads this
    {
      forall i, j :: 0 <= i < j < |apis| ==> apis[i] != apis[j]
    }

    ghost function Defs(): seq<ApiDef>
      reads this, apis
    {
      seq(|apis|, i reads this, apis requires 0 <= i < |apis| => apis[i].Def())
    }

    constructor()
      ensures Valid() && apis == []
    {
      apis := [];
    }

    /** `defineAPI`: appends a new record, its path defaulting to `/` + key. */
    method Define(key: string, opts: Opts, apiFunc: Handler) returns (api: ApiInfo)
      requires Valid()
      modifies this
      ensures Valid() && fresh(api) && apis == old(apis) + [api]
      ensures Defs() == old(Defs()) + [ApiDef(key, Or(opts.httpMethod, "GET"), Or(opts.path, "/" + key),
                                              ArgExtractors(opts.args), [], apiFunc)]
    {
      var opts' := opts.(path := Some(Or(opts.path, "/" + key)));
      api := new ApiInfo(key, opts', apiFunc);
      apis := apis + [api];
    }

    /** `API(method, opts)` applied to a handler: defines it with the decorator's method. */
    method DefineWith(m: ApiMethod, key: string, opts: Opts, apiFunc: Handler) returns (api: ApiInfo)
      requires Valid()
      modifies this
      ensures Valid() && fresh(api) && apis == old(apis) + [api]
      ensures Defs() == old(Defs()) + [ApiDef(key, MethodName(m), Or(opts.path, "/" + key),
                                              ArgExtractors(opts.args), [], apiFunc)]
      ensures RouterDefineMethod(api.httpMethod) == VerbOf(m)
    {
      api := Define(key, opts.(httpMethod := Some(MethodName(m))), apiFunc);
      assert api.Def() == Defs()[|apis| - 1];
      DeclaredVerb(m);
    }

    /** `updateAPIInfo`: runs the updater on the first record with this key, if any. */
    method Update(key: string, u: Updater)
      requires Valid()
      modifies apis
      ensures Valid() && apis == old(apis)
      ensures Defs() == UpdateFirst(old(Defs()), key, u)
    {
      var found := FindApi(apis, key);
      if found.Some? {
        var i := found.value;
        apis[i].Apply(u);
        forall j | 0 <= j < |apis|
          ensures Defs()[j] == old(Defs())[i := Applied(old(Defs())[i], u)][j]
        {
          if j != i {
            assert apis[j] != apis[i];
          }
        }
        assert forall j :: 0 <= j < i ==> old(Defs())[j].key != key;
        assert Defs() == old(Defs())[i := Applied(old(Defs())[i], u)];
        UpdateFirstAt(old(Defs()), key, u, i);
      } else {
        assert forall j :: 0 <= j < |apis| ==> old(Defs())[j].key != key;
        UpdateFirstNoMatch(old(Defs()), key, u);
      }
    }

    /** `addMiddlewareDecor`: appends a middleware to the first record with this key. */
    method AddMiddlewareDecor(key: string, mw: Middleware)
      requires Valid()
      modifies apis
      ensures Valid() && apis == old(apis)
      ensures Defs() == UpdateFirst(old(Defs()), key, AddMiddleware(mw))
    {
      Update(key, AddMiddleware(mw));
    }
  }

  /** The group of routes/auth.ts: `GET /` answers `{Hello: 'world'}`. */
  method HelloWorld() returns (group: ApiGroup, d: Dispatch)
    ensures |group.apis| == 1 && group.apis[0].httpMethod == "GET" && group.apis[0].path == "/"
    ensures d.reply == Replied(Obj(map["Hello" := Str("world")])) && d.events == []
  {
    group := new ApiGroup();
    var hello: Handler := args => Ok(Obj(map["Hello" := Str("world")]));
    var api := group.DefineWith(GET, "helloWorld", Opts(None, Some("/"), None), hello);
    assert api.Def() == group.Defs()[0];
    var req := Obj(map["method" := Str("GET"), "url" := Str("/")]);
    d := api.Handle(req);
    assert RunChain([], req) == Chain(Ok(req), req, 0);
  }
}
