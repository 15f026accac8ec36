/** The endpoint decorators: body validation, argument lists taken from the request or
    from its body, and the `UniqIntArrs` argument parser. */
module Decors {
  import opened JsValues
  import opened Api

  /** What a schema validator says about a body: accepted, or rejected with its error list. */
  datatype Validation = Accepted | Rejected(errors: Value)

  const InvalidBody: string := "Invalid request body!"

  /** The middleware `ValidBody` installs. */
  function ValidBodyMiddleware(validator: Value -> Validation): Middleware {
    req =>
      match validator(Field(req, "body"))
      case Accepted => Ok(req)
      case Rejected(errs) => Fail(AppLogicError(InvalidBody, 400, errs))
  }

  /** `ValidBody(schema)`: push a middleware that rejects an invalid `req.body` with a 400. */
  function ValidBody(validator: Value -> Validation): (u: Updater)
    ensures u.AddMiddleware?
    ensures forall req :: validator(Field(req, "body")).Accepted? ==> u.middleware(req) == Ok(req)
    ensures forall req :: validator(Field(req, "body")).Rejected? ==>
              u.middleware(req) == Fail(AppLogicError(InvalidBody, 400, validator(Field(req, "body")).errors))
  {
    AddMiddleware(ValidBodyMiddleware(validator))
  }

  /** A body the validator rejects stops the request at the validation middleware: the
      handler is not invoked and exactly one error event, carrying the 400 error, is emitted. */
  lemma {:induction false} RejectedBodyStopsHandler(pre: seq<Middleware>, validator: Value -> Validation,
                                                    post: seq<Middleware>, args: seq<Extractor>,
                                                    handler: Handler, req: Value)
    requires RunChain(pre, req).outcome.Ok?
    requires validator(Field(RunChain(pre, req).at, "body")).Rejected?
    ensures var at := RunChain(pre, req).at;
      var err := AppLogicError(InvalidBody, 400, validator(Field(at, "body")).errors);
      var d := DispatchSpec(pre + [ValidBodyMiddleware(validator)] + post, args, handler, req);
      !d.handlerCalled && d.middlewareCalls == |pre| + 1 &&
      d.reply == Rethrown(err) && d.events == [Event(RouterError, err, at)]
  {
    var mws := pre + [ValidBodyMiddleware(validator)] + post;
    assert mws[..|pre|] == pre;
    assert mws[|pre|] == ValidBodyMiddleware(validator);
    FailingMiddlewareStops(mws, |pre|, req, [], args, handler, args, handler);
    ChainSplit(mws, |pre|, req);
    assert mws[|pre|..][0] == ValidBodyMiddleware(validator);
  }

  /** `Args(...specs)`: replace the argument list with `setArgs(specs)`. */
  function Args(specs: seq<ArgSpec>): (u: Updater)
    ensures u.ReplaceArgs? && |u.extractors| == |specs|
    ensures forall i :: 0 <= i < |specs| ==> Realizes(specs[i], u.extractors[i])
  {
    ReplaceArgs(ArgExtractors(Some(specs)))
  }

  /** The `setArgs` extractor of `spec`, applied to `req.body`. */
  function BodyExtractor(spec: ArgSpec): (e: Extractor)
    ensures forall req :: e(req) == ArgExtractor(spec)(Field(req, "body"))
  {
    match spec
    case PathArg(p) => req => Get(Field(req, "body"), p)
    case FnArg(f) => req => f(Field(req, "body"))
    case OtherArg => req => Undefined
  }

  /** The extractors of `BodyArgs`: exactly those of `setArgs`, applied to `req.body`. */
  function BodyExtractors(specs: seq<ArgSpec>): (r: seq<Extractor>)
    ensures |r| == |specs|
    ensures forall i, req :: 0 <= i < |specs| ==> r[i](req) == ArgExtractors(Some(specs))[i](Field(req, "body"))
  {
    seq(|specs|, i requires 0 <= i < |specs| => BodyExtractor(specs[i]))
  }

  /** `BodyArgs(...specs)`: replace the argument list with extractors over `req.body`. */
  function BodyArgs(specs: seq<ArgSpec>): (u: Updater)
    ensures u.ReplaceArgs? && |u.extractors| == |specs|
    ensures forall i, req :: 0 <= i < |specs| ==>
              match specs[i]
              case PathArg(p) => u.extractors[i](req) == Get(Field(req, "body"), p)
              case FnArg(f) => u.extractors[i](req) == f(Field(req, "body"))
              case OtherArg => u.extractors[i](req) == Undefined
  {
    var es := BodyExtractors(specs);
    assert forall i :: 0 <= i < |specs| ==> Realizes(specs[i], ArgExtractors(Some(specs))[i]);
    ReplaceArgs(es)
  }

  /** The array `UniqIntArrs` works on: an array as it is, a string split on `sep`,
      `None` (the source's `null`) for anything else. */
  function Items(data: Value, sep: string): Option<seq<Value>> {
    match data
    case Arr(items) => Some(items)
    case Str(s) =>
      var parts := Split(s, sep);
      Some(seq(|parts|, i requires 0 <= i < |parts| => Str(parts[i])))
    case _ => None
  }

  /** `arr.map(i => hera.parseInt(i)).filter(i => i != null)`. */
  function ParseAll(items: seq<Value>, parse: Value -> Option<int>): (r: seq<int>)
    decreases |items|
    ensures forall x :: x in r <==> exists j :: 0 <= j < |items| && parse(items[j]) == Some(x)
  {
    if items == [] then []
    else
      var rest := ParseAll(items[1..], parse);
      assert forall x :: (exists j :: 1 <= j < |items| && parse(items[j]) == Some(x)) <==>
                         (exists j :: 0 <= j < |items[1..]| && parse(items[1..][j]) == Some(x)) by {
        forall x | exists j :: 0 <= j < |items[1..]| && parse(items[1..][j]) == Some(x)
          ensures exists j :: 1 <= j < |items| && parse(items[j]) == Some(x)
        {
          var j :| 0 <= j < |items[1..]| && parse(items[1..][j]) == Some(x);
          assert parse(items[j + 1]) == Some(x);
        }
      }
      match parse(items[0])
      case Some(n) => [n] + rest
      case None => rest
  }

  /** Parsing keeps the items' order and multiplicity: one more item adds its integer, if it
      parses, at the end. */
  lemma {:induction false} ParseAllAppend(items: seq<Value>, x: Value, parse: Value -> Option<int>)
    ensures ParseAll(items + [x], parse) ==
            ParseAll(items, parse) + (match parse(x) case Some(n) => [n] case None => [])
    decreases |items|
  {
    var t := items + [x];
    if items == [] {
      assert t[1..] == [];
    } else {
      assert t[0] == items[0] && t[1..] == items[1..] + [x];
      ParseAllAppend(items[1..], x, parse);
    }
  }

  predicate NoDup(s: seq<int>) {
    forall i, j :: 0 <= i < j < |s| ==> s[i] != s[j]
  }

  /** Position of the first occurrence of `x` in `s`. */
  function FirstIndex(s: seq<int>, x: int): (k: nat)
    requires x in s
    decreases |s|
    ensures k < |s| && s[k] == x && forall j :: 0 <= j < k ==> s[j] != x
  {
    if s[0] == x then 0 else 1 + FirstIndex(s[1..], x)
  }

  /** A value that already occurs before the last element has its first occurrence there. */
  lemma FirstIndexInPrefix(s: seq<int>, y: int)
    requires |s| > 0 && y in s[..|s| - 1]
    ensures FirstIndex(s, y) == FirstIndex(s[..|s| - 1], y) < |s| - 1
  {
    var init := s[..|s| - 1];
    var a, b := FirstIndex(s, y), FirstIndex(init, y);
    assert s[b] == y;
    assert a <= b;
    assert init[a] == y;
  }

  /** `_.uniq`: the first occurrence of every value, in the order of first occurrence. */
  function Uniq(s: seq<int>): (r: seq<int>)
    decreases |s|
    ensures NoDup(r)
    ensures forall x :: x in r <==> x in s
    ensures forall i, j :: 0 <= i < j < |r| ==> FirstIndex(s, r[i]) < FirstIndex(s, r[j])
  {
    if s == [] then []
    else
      var init := s[..|s| - 1];
      var x := s[|s| - 1];
      var r := Uniq(init);
      assert s == init + [x];
      forall y | y in r ensures FirstIndex(s, y) == FirstIndex(init, y) < |s| - 1 {
        FirstIndexInPrefix(s, y);
      }
      if x in r then r
      else
        assert FirstIndex(s, x) == |s| - 1;
        r + [x]
  }

  function Nums(s: seq<int>): (r: seq<Value>)
    ensures |r| == |s| && forall i :: 0 <= i < |s| ==> r[i] == Num(s[i])
  {
    seq(|s|, i requires 0 <= i < |s| => Num(s[i]))
  }

  /** What `UniqIntArrs(key, sep)` computes from the value found at `key`. */
  function UniqIntArrsOf(data: Value, sep: string, parse: Value -> Option<int>): (r: seq<int>)
    ensures !data.Arr? && !data.Str? ==> r == []
    ensures NoDup(r)
    ensures Items(data, sep).Some? ==>
              var parsed := ParseAll(Items(data, sep).value, parse);
              (forall x :: x in r <==> exists j :: 0 <= j < |Items(data, sep).value| &&
                                                   parse(Items(data, sep).value[j]) == Some(x)) &&
              (forall i, j :: 0 <= i < j < |r| ==> FirstIndex(parsed, r[i]) < FirstIndex(parsed, r[j]))
  {
    match Items(data, sep)
    case None => []
    case Some(arr) => Uniq(ParseAll(arr, parse))
  }

  /** The separator `UniqIntArrs` splits strings on when none is given. */
  const DefaultSep: string := ","

  /** `ArgParsers.UniqIntArrs(key, sep)`: an extractor giving the distinct integers listed at `key`
      (callers that omit `sep` pass `DefaultSep`). */
  function UniqIntArrs(key: string, sep: string, parse: Value -> Option<int>): (e: Extractor)
    ensures forall req :: e(req).Arr?
  {
    req => Arr(Nums(UniqIntArrsOf(Get(req, key), sep, parse)))
  }

  /** On any request the extractor yields, as numbers and in the same order, the integers
      `UniqIntArrsOf` computes from the value at `key`: distinct, empty when that value is neither
      an array nor a string, otherwise exactly the integers its items parse to. */
  lemma UniqIntArrsResult(key: string, sep: string, parse: Value -> Option<int>, req: Value)
    ensures var data := Get(req, key);
      var items := UniqIntArrs(key, sep, parse)(req).items;
      items == Nums(UniqIntArrsOf(data, sep, parse)) &&
      (!data.Arr? && !data.Str? ==> items == []) &&
      (forall i, j :: 0 <= i < j < |items| ==> items[i] != items[j]) &&
      (forall v :: v in items <==> exists x :: v == Num(x) && x in UniqIntArrsOf(data, sep, parse))
  {
    var r := UniqIntArrsOf(Get(req, key), sep, parse);
    var items := UniqIntArrs(key, sep, parse)(req).items;
    assert items == Nums(r);
    forall v | v in items ensures exists x :: v == Num(x) && x in r {
      var i :| 0 <= i < |items| && items[i] == v;
      assert v == Num(r[i]);
    }
    forall x | x in r ensures Num(x) in items {
      var i :| 0 <= i < |r| && r[i] == x;
      assert items[i] == Num(x);
    }
  }
}
