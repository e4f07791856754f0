/** The request-dispatch layer of the blog (framework.py): the `@get` and
    `@post` route decorators, the signature helpers that read a handler's
    parameter list, the assembly of a handler's keyword arguments from a
    request, route registration, and the classification of whatever a
    handler returns into an HTTP response. */
module Framework {
  import opened Common

  // ---------------------------------------------------------------------
  // Handlers and their signatures
  // ---------------------------------------------------------------------

  /** `inspect.Parameter.kind` */
  datatype ParamKind = PositionalOnly | PositionalOrKeyword | VarPositional | KeywordOnly | VarKeyword

  /** One entry of `inspect.signature(fn).parameters`; `hasDefault` is
      false when the default is `inspect.Parameter.empty`. */
  datatype Param = Param(name: string, kind: ParamKind, hasDefault: bool)

  /** A handler function as the framework sees it: its `__name__`, its
      `str()`, the `str()` of its signature, its parameters in declaration
      order, and the `__method__` and `__route__` tags when it has them. */
  datatype Handler = Handler(name: string, text: string, signatureText: string, params: seq<Param>,
                             verb: Option<string>, route: Option<string>)

  /** The wrapper `@get(path)` returns. `functools.wraps` keeps the name,
      and the signature is read through `__wrapped__`, so only the tags
      differ from the wrapped function; calling it calls through. */
  function Get(path: string, fn: Handler): (w: Handler)
    ensures w.verb == Some("GET") && w.route == Some(path)
    ensures w.name == fn.name && w.params == fn.params && w.signatureText == fn.signatureText
  {
    fn.(verb := Some("GET"), route := Some(path))
  }

  /** The wrapper `@post(path)` returns. */
  function Post(path: string, fn: Handler): (w: Handler)
    ensures w.verb == Some("POST") && w.route == Some(path)
    ensures w.name == fn.name && w.params == fn.params && w.signatureText == fn.signatureText
  {
    fn.(verb := Some("POST"), route := Some(path))
  }

  /** The names of the keyword-only parameters, in declaration order;
      with `withDefaults` false, only those that have no default. */
  function KeywordOnlyNames(ps: seq<Param>, withDefaults: bool): (r: seq<string>)
    ensures |r| <= |ps|
    ensures forall n :: n in r <==>
      exists i :: 0 <= i < |ps| && ps[i].name == n && Selected(ps[i], withDefaults)
  {
    if |ps| == 0 then []
    else
      var rest := KeywordOnlyNames(ps[1..], withDefaults);
      assert forall i :: 1 <= i < |ps| ==> ps[i] == ps[1..][i - 1];
      (if Selected(ps[0], withDefaults) then [ps[0].name] else []) + rest
  }

  predicate Selected(p: Param, withDefaults: bool)
  {
    p.kind == KeywordOnly && (withDefaults || !p.hasDefault)
  }

  /** `get_named_kw_args(fn)` */
  function NamedKwArgs(ps: seq<Param>): seq<string>
  {
    KeywordOnlyNames(ps, true)
  }

  /** `get_required_kw_args(fn)` */
  function RequiredKwArgs(ps: seq<Param>): seq<string>
  {
    KeywordOnlyNames(ps, false)
  }

  lemma {:induction false} KeywordOnlyNamesAppend(ps: seq<Param>, p: Param, withDefaults: bool)
    ensures KeywordOnlyNames(ps + [p], withDefaults)
         == KeywordOnlyNames(ps, withDefaults) + (if Selected(p, withDefaults) then [p.name] else [])
  {
    if |ps| > 0 {
      assert (ps + [p])[1..] == ps[1..] + [p];
      KeywordOnlyNamesAppend(ps[1..], p, withDefaults);
    } else {
      assert (ps + [p])[1..] == [];
    }
  }

  /** `a` is `b` with some entries left out, order kept. */
  predicate SubSequence(a: seq<string>, b: seq<string>)
  {
    |a| == 0 || (|b| > 0 && if a[0] == b[0] then SubSequence(a[1..], b[1..]) else SubSequence(a, b[1..]))
  }

  lemma {:induction false} SubSequenceTail(a: seq<string>, b: seq<string>)
    requires |a| > 0 && SubSequence(a, b)
    ensures SubSequence(a[1..], b)
    decreases |a| + |b|
  {
    if a[0] == b[0] {
      SubSequenceExtend(a[1..], b[0], b[1..]);
    } else {
      SubSequenceTail(a, b[1..]);
      SubSequenceExtend(a[1..], b[0], b[1..]);
    }
    assert [b[0]] + b[1..] == b;
  }

  lemma {:induction false} SubSequenceExtend(a: seq<string>, x: string, rest: seq<string>)
    requires SubSequence(a, rest)
    ensures SubSequence(a, [x] + rest)
    decreases |a| + |rest| + 1
  {
    assert ([x] + rest)[1..] == rest;
    if |a| > 0 && a[0] == x {
      SubSequenceTail(a, rest);
    }
  }

  /** The required keyword arguments are named keyword arguments, listed
      in the same order. */
  lemma {:induction false} RequiredAreNamed(ps: seq<Param>)
    ensures SubSequence(RequiredKwArgs(ps), NamedKwArgs(ps))
  {
    if |ps| > 0 {
      RequiredAreNamed(ps[1..]);
      var a, b := RequiredKwArgs(ps[1..]), NamedKwArgs(ps[1..]);
      if Selected(ps[0], false) {
        assert ([ps[0].name] + a)[1..] == a && ([ps[0].name] + b)[1..] == b;
      } else if Selected(ps[0], true) {
        assert RequiredKwArgs(ps) == a && NamedKwArgs(ps) == [ps[0].name] + b;
        SubSequenceExtend(a, ps[0].name, b);
      } else {
        assert RequiredKwArgs(ps) == a && NamedKwArgs(ps) == b;
      }
    }
  }

  /** `get_named_kw_args`: the loop of framework.py:56-62. */
  method GetNamedKwArgs(ps: seq<Param>) returns (args: seq<string>)
    ensures args == NamedKwArgs(ps)
  {
    args := [];
    for i := 0 to |ps|
      invariant args == KeywordOnlyNames(ps[..i], true)
    {
      KeywordOnlyNamesAppend(ps[..i], ps[i], true);
      assert ps[..i + 1] == ps[..i] + [ps[i]];
      if ps[i].kind == KeywordOnly {
        args := args + [ps[i].name];
      }
    }
    assert ps[..|ps|] == ps;
  }

  /** `get_required_kw_args`: the loop of framework.py:42-48. */
  method GetRequiredKwArgs(ps: seq<Param>) returns (args: seq<string>)
    ensures args == RequiredKwArgs(ps)
  {
    args := [];
    for i := 0 to |ps|
      invariant args == KeywordOnlyNames(ps[..i], false)
    {
      KeywordOnlyNamesAppend(ps[..i], ps[i], false);
      assert ps[..i + 1] == ps[..i] + [ps[i]];
      if ps[i].kind == KeywordOnly && !ps[i].hasDefault {
        args := args + [ps[i].name];
      }
    }
    assert ps[..|ps|] == ps;
  }

  /** `has_named_kw_args` and `has_var_kw_arg` (framework.py:50-54,
      64-68): whether some parameter is of the kind `kind`. The source
      returns `True` or falls off the end with `None`. */
  method HasKind(ps: seq<Param>, kind: ParamKind) returns (found: bool)
    ensures found == AnyOfKind(ps, kind)
  {
    for i := 0 to |ps|
      invariant forall j :: 0 <= j < i ==> ps[j].kind != kind
    {
      if ps[i].kind == kind {
        return true;
      }
    }
    return false;
  }

  /** Some parameter is of the kind `kind`. */
  predicate AnyOfKind(ps: seq<Param>, kind: ParamKind)
  {
    exists i :: 0 <= i < |ps| && ps[i].kind == kind
  }

  /** A parameter that may follow `request`: `*args`, keyword-only, or
      `**kw`. */
  predicate MayFollowRequest(k: ParamKind)
  {
    k == VarPositional || k == KeywordOnly || k == VarKeyword
  }

  function MisplacedRequest(fn: Handler): Failure
  {
    ValueError("request parameter must be the last named parameter in function: " + fn.name + fn.signatureText)
  }

  /** What `has_request_arg(fn)` returns or raises. */
  function RequestArg(fn: Handler): Result<bool, Failure>
  {
    var ps := fn.params;
    if exists i, j :: 0 <= i < j < |ps| && ps[i].name == "request" && ps[j].name != "request" && !MayFollowRequest(ps[j].kind)
    then Err(MisplacedRequest(fn))
    else Ok(exists i :: 0 <= i < |ps| && ps[i].name == "request")
  }

  /** `has_request_arg` accepts a handler exactly when it has a `request`
      parameter followed only by `*args`, keyword-only parameters and
      `**kw`, or has none at all; it never rejects a handler without one. */
  lemma RequestArgMeaning(fn: Handler)
    requires DistinctNames(fn.params)
    ensures RequestArg(fn) == Ok(true) <==>
      exists i :: 0 <= i < |fn.params| && fn.params[i].name == "request" &&
        forall j :: i < j < |fn.params| && fn.params[j].name != "request" ==> MayFollowRequest(fn.params[j].kind)
    ensures (forall i :: 0 <= i < |fn.params| ==> fn.params[i].name != "request") ==> RequestArg(fn) == Ok(false)
  {
    var ps := fn.params;
    if RequestArg(fn) == Ok(true) {
      var i :| 0 <= i < |ps| && ps[i].name == "request";
      forall j | i < j < |ps| && ps[j].name != "request"
        ensures MayFollowRequest(ps[j].kind)
      {
        assert !(0 <= i < j < |ps| && ps[i].name == "request" && ps[j].name != "request" && !MayFollowRequest(ps[j].kind));
      }
    }
    if i :| 0 <= i < |ps| && ps[i].name == "request" &&
            (forall j :: i < j < |ps| && ps[j].name != "request" ==> MayFollowRequest(ps[j].kind)) {
      forall i', j | 0 <= i' < j < |ps| && ps[i'].name == "request" && ps[j].name != "request"
        ensures MayFollowRequest(ps[j].kind)
      {
        assert i' == i;
      }
    }
  }

  /** Python refuses a signature that names two parameters alike. */
  predicate DistinctNames(ps: seq<Param>)
  {
    forall i, j :: 0 <= i < j < |ps| ==> ps[i].name != ps[j].name
  }

  /** `has_request_arg`: the loop of framework.py:70-82. */
  method HasRequestArg(fn: Handler) returns (r: Result<bool, Failure>)
    ensures r == RequestArg(fn)
  {
    var ps := fn.params;
    var found := false;
    for k := 0 to |ps|
      invariant found <==> exists i :: 0 <= i < k && ps[i].name == "request"
      invariant !exists i, j :: 0 <= i < j < k && ps[i].name == "request" && ps[j].name != "request" && !MayFollowRequest(ps[j].kind)
    {
      if ps[k].name == "request" {
        found := true;
        continue;
      }
      if found && !MayFollowRequest(ps[k].kind) {
        var i :| 0 <= i < k && ps[i].name == "request";
        assert 0 <= i < k < |ps| && ps[i].name == "request" && ps[k].name != "request" && !MayFollowRequest(ps[k].kind);
        return Err(MisplacedRequest(fn));
      }
    }
    return Ok(found);
  }

  // ---------------------------------------------------------------------
  // Requests and the handler wrapper
  // ---------------------------------------------------------------------

  /** The body `request.json()` decodes: a JSON object, or any other
      JSON value (kept by its text). */
  datatype Json = JsonObject(entries: map<string, Value>) | JsonOther(text: string)

  /** What the wrapper reads from an aiohttp request: the method, the
      `Content-Type` (empty when absent), the decoded JSON and form
      bodies, the query string with `parse_qs(qs, True)` of it, and the
      path's `match_info`. */
  datatype Request = Request(verb: string, contentType: string, json: Json, form: map<string, Value>,
                             queryString: string, query: map<string, seq<string>>,
                             matchInfo: map<string, Value>)

  /** `parse_qs` lists at least one value for every key it returns. */
  predicate ParsedQuery(req: Request)
  {
    forall k :: k in req.query ==> |req.query[k]| > 0
  }

  /** A keyword argument passed to a handler: a value from the request,
      or the request object itself. */
  datatype Arg = Given(v: Value) | TheRequest

  /** What the wrapper does with a request: answer 400 with a message
      without invoking the handler, or invoke it with these keyword
      arguments. */
  datatype Outcome = BadRequest(message: string) | Invoke(kw: map<string, Arg>)

  /** `RequestHandler(fn)`: the handler with what `__init__` computed
      from its signature. */
  datatype RequestHandler = RequestHandler(fn: Handler, hasRequestArg: bool, hasVarKwArg: bool,
                                           hasNamedKwArg: bool, nameKwArgs: seq<string>,
                                           requiredKwArgs: seq<string>)

  /** What `RequestHandler(fn)` builds, or the error it raises. */
  function HandlerFor(fn: Handler): (r: Result<RequestHandler, Failure>)
    ensures r.Err? <==> RequestArg(fn).Err?
    ensures r.Ok? ==> r.value.fn == fn && r.value.hasRequestArg == (RequestArg(fn) == Ok(true))
  {
    var ps := fn.params;
    match RequestArg(fn)
    case Err(e) => Err(e)
    case Ok(request) =>
      Ok(RequestHandler(fn, request,
                        AnyOfKind(ps, VarKeyword), AnyOfKind(ps, KeywordOnly),
                        NamedKwArgs(ps), RequiredKwArgs(ps)))
  }

  /** `RequestHandler.__init__` (framework.py:86-92). */
  method NewRequestHandler(fn: Handler) returns (r: Result<RequestHandler, Failure>)
    ensures r == HandlerFor(fn)
  {
    var request := HasRequestArg(fn);
    if request.Err? {
      return Err(request.error);
    }
    var varKw := HasKind(fn.params, VarKeyword);
    var namedKw := HasKind(fn.params, KeywordOnly);
    var named := GetNamedKwArgs(fn.params);
    var required := GetRequiredKwArgs(fn.params);
    return Ok(RequestHandler(fn, request.value, varKw, namedKw, named, required));
  }

  /** The decorators change nothing the wrapper reads from a signature. */
  lemma DecoratedSameHandler(path: string, fn: Handler)
    ensures HandlerFor(Get(path, fn)).Ok? <==> HandlerFor(fn).Ok?
    ensures HandlerFor(fn).Ok? ==>
      HandlerFor(Get(path, fn)).value == HandlerFor(fn).value.(fn := Get(path, fn)) &&
      HandlerFor(Post(path, fn)).value == HandlerFor(fn).value.(fn := Post(path, fn))
  {
    SameSignature(Get(path, fn), fn);
    SameSignature(Post(path, fn), fn);
  }

  /** What the wrapper computes depends only on the name, the signature
      and its text. */
  lemma SameSignature(f: Handler, g: Handler)
    requires f.params == g.params && f.name == g.name && f.signatureText == g.signatureText
    ensures RequestArg(f) == RequestArg(g)
  {
    assert MisplacedRequest(f) == MisplacedRequest(g);
  }

  const MissingContentType: string := "Missing Content-Type"
  const NotAnObject: string := "JSON body must be onject."
  const JsonType: string := "application/json"
  const FormType: string := "application/x-www-form-urlencoded"
  const MultipartType: string := "multipart/form-data"

  function Unsupported(contentType: string): string
  {
    "Unsupported Content-Type: " + contentType
  }

  function MissingArgument(name: string): string
  {
    "Missing argument:" + name
  }

  /** The arguments a POST body supplies (framework.py:98-111), or the
      message of the 400 answer. */
  function Posted(req: Request): (r: Result<map<string, Value>, string>)
    ensures req.contentType == "" ==> r == Err(MissingContentType)
    ensures r == Err(NotAnObject) <==>
      req.contentType != "" && StartsWith(Lower(req.contentType), JsonType) && req.json.JsonOther?
    ensures r.Ok? && StartsWith(Lower(req.contentType), JsonType) ==>
      req.json.JsonObject? && r.value == req.json.entries
    ensures r.Ok? && !StartsWith(Lower(req.contentType), JsonType) ==> r.value == req.form
    ensures r == Err(Unsupported(req.contentType)) <==>
      var ct := Lower(req.contentType);
      req.contentType != "" && !StartsWith(ct, JsonType) && !StartsWith(ct, FormType) && !StartsWith(ct, MultipartType)
  {
    if req.contentType == "" then Err(MissingContentType)
    else
      var ct := Lower(req.contentType);
      if StartsWith(ct, JsonType) then
        if req.json.JsonObject? then Ok(req.json.entries) else Err(NotAnObject)
      else if StartsWith(ct, FormType) || StartsWith(ct, MultipartType) then Ok(req.form)
      else Err(Unsupported(req.contentType))
  }

  /** `kw[k] = v[0]` for every key `parse_qs` returns. */
  function FirstValues(q: map<string, seq<string>>): (kw: map<string, Value>)
    requires forall k :: k in q ==> |q[k]| > 0
    ensures kw.Keys == q.Keys
  {
    map k | k in q :: VStr(q[k][0])
  }

  /** The arguments the request body or query supplies (framework.py:
      96-117): `None` when it supplies none, or the message of a 400
      answer. Only a handler that takes keyword arguments reads them. */
  function Gathered(h: RequestHandler, req: Request): (r: Result<Option<map<string, Value>>, string>)
    requires ParsedQuery(req)
    ensures !(h.hasVarKwArg || h.hasNamedKwArg || |h.requiredKwArgs| > 0) ==> r == Ok(None)
    ensures r.Err? ==> req.verb == "POST"
    ensures r == Ok(None) <==>
      !(h.hasVarKwArg || h.hasNamedKwArg || |h.requiredKwArgs| > 0) ||
      (req.verb != "POST" && (req.verb != "GET" || req.queryString == ""))
  {
    if !(h.hasVarKwArg || h.hasNamedKwArg || |h.requiredKwArgs| > 0) then Ok(None)
    else if req.verb == "POST" then
      match Posted(req)
      case Err(m) => Err(m)
      case Ok(kw) => Ok(Some(kw))
    else if req.verb == "GET" && req.queryString != "" then Ok(Some(FirstValues(req.query)))
    else Ok(None)
  }

  /** Request values as keyword arguments. */
  function Lift(m: map<string, Value>): (r: map<string, Arg>)
    ensures r.Keys == m.Keys && forall k :: k in m ==> r[k] == Given(m[k])
  {
    map k | k in m :: Given(m[k])
  }

  /** The entries of `kw` whose key is one of `names`. */
  function Only(kw: map<string, Value>, names: seq<string>): (r: map<string, Value>)
    ensures r.Keys == kw.Keys * set n | n in names
    ensures forall k :: k in r ==> r[k] == kw[k]
  {
    map n | n in names && n in kw :: kw[n]
  }

  /** The gathered arguments a handler without `**kw` but with named
      keyword arguments keeps (framework.py:121-127). */
  function Kept(h: RequestHandler, gathered: map<string, Value>): map<string, Value>
  {
    if !h.hasVarKwArg && |h.nameKwArgs| > 0 then Only(gathered, h.nameKwArgs) else gathered
  }

  /** The keyword arguments before the required check (framework.py:
      118-134). */
  function Arguments(h: RequestHandler, req: Request, gathered: Option<map<string, Value>>): map<string, Arg>
  {
    var kw := match gathered
      case None => Lift(req.matchInfo)
      case Some(g) => Lift(Kept(h, g)) + Lift(req.matchInfo);
    if h.hasRequestArg then kw["request" := TheRequest] else kw
  }

  /** The first of `names` missing from `kw`. */
  function FirstMissing(names: seq<string>, kw: map<string, Arg>): (r: Option<string>)
    ensures r.None? <==> forall i :: 0 <= i < |names| ==> names[i] in kw
    ensures r.Some? ==> exists i :: 0 <= i < |names| && names[i] == r.value && r.value !in kw &&
                                   forall j :: 0 <= j < i ==> names[j] in kw
  {
    if |names| == 0 then None
    else if names[0] !in kw then Some(names[0])
    else
      var r := FirstMissing(names[1..], kw);
      assert forall i :: 1 <= i < |names| ==> names[i] == names[1..][i - 1];
      if r.None? then r
      else
        var i :| 0 <= i < |names[1..]| && names[1..][i] == r.value && r.value !in kw &&
                 forall j :: 0 <= j < i ==> names[1..][j] in kw;
        assert names[i + 1] == r.value;
        r
  }

  /** What `RequestHandler.__call__` does with a request (framework.py:
      95-139). */
  function Dispatch(h: RequestHandler, req: Request): Outcome
    requires ParsedQuery(req)
  {
    match Gathered(h, req)
    case Err(m) => BadRequest(m)
    case Ok(g) =>
      var kw := Arguments(h, req, g);
      match FirstMissing(h.requiredKwArgs, kw)
      case Some(n) => BadRequest(MissingArgument(n))
      case None => Invoke(kw)
  }

  /** A request that supplies no arguments calls the handler with the
      path's `match_info`, plus the request when the handler takes it. */
  lemma MatchInfoOnly(h: RequestHandler, req: Request)
    requires ParsedQuery(req) && Gathered(h, req) == Ok(None) && Dispatch(h, req).Invoke?
    ensures var kw := Dispatch(h, req).kw;
      (forall k :: k in kw <==> k in req.matchInfo || (h.hasRequestArg && k == "request")) &&
      (forall k :: k in req.matchInfo && !(h.hasRequestArg && k == "request") ==> kw[k] == Given(req.matchInfo[k]))
  {
  }

  /** Every argument the handler gets comes from `match_info` when the path
      has it, else from the body or query; `request` is the request object
      exactly when the handler takes it. */
  lemma ArgumentSources(h: RequestHandler, req: Request, k: string)
    requires ParsedQuery(req) && Dispatch(h, req).Invoke?
    requires k in Dispatch(h, req).kw
    ensures var kw := Dispatch(h, req).kw;
      if h.hasRequestArg && k == "request" then kw[k] == TheRequest
      else if k in req.matchInfo then kw[k] == Given(req.matchInfo[k])
      else Gathered(h, req).value.Some? && var g := Kept(h, Gathered(h, req).value.value);
        k in g && kw[k] == Given(g[k])
  {
  }

  /** What `__call__` gathers for a handler taking keyword arguments: a
      POST's JSON object when its content type is JSON, its form otherwise;
      a GET's first query values; nothing for any other verb. */
  lemma GatheredSource(h: RequestHandler, req: Request)
    requires ParsedQuery(req) && Gathered(h, req).Ok?
    requires h.hasVarKwArg || h.hasNamedKwArg || |h.requiredKwArgs| > 0
    ensures req.verb == "POST" && StartsWith(Lower(req.contentType), JsonType) ==>
      Gathered(h, req) == Ok(Some(req.json.entries))
    ensures req.verb == "POST" && !StartsWith(Lower(req.contentType), JsonType) ==>
      Gathered(h, req) == Ok(Some(req.form))
    ensures req.verb == "GET" && req.queryString != "" ==>
      Gathered(h, req) == Ok(Some(FirstValues(req.query)))
  {
  }

  /** The request object is passed, under `request`, iff the handler
      takes it. */
  lemma RequestPassedIff(h: RequestHandler, req: Request)
    requires ParsedQuery(req) && Dispatch(h, req).Invoke?
    ensures var kw := Dispatch(h, req).kw;
      h.hasRequestArg <==> exists k :: k in kw && kw[k] == TheRequest
    ensures var kw := Dispatch(h, req).kw;
      forall k :: k in kw && kw[k] == TheRequest ==> k == "request"
  {
    var kw := Dispatch(h, req).kw;
    if h.hasRequestArg {
      assert "request" in kw && kw["request"] == TheRequest;
    }
  }

  /** A handler without `**kw` but with named keyword arguments gets only
      those, the path's `match_info`, and the request. */
  lemma OnlyNamedArgs(h: RequestHandler, req: Request)
    requires ParsedQuery(req) && Dispatch(h, req).Invoke?
    requires !h.hasVarKwArg && |h.nameKwArgs| > 0
    ensures forall k :: k in Dispatch(h, req).kw ==>
      k in h.nameKwArgs || k in req.matchInfo || (h.hasRequestArg && k == "request")
  {
  }

  /** The handler is invoked only with every required argument; otherwise
      the answer names the first required argument missing. */
  lemma RequiredChecked(h: RequestHandler, req: Request)
    requires ParsedQuery(req) && Gathered(h, req).Ok?
    ensures var kw := Arguments(h, req, Gathered(h, req).value);
      Dispatch(h, req).Invoke? <==> forall i :: 0 <= i < |h.requiredKwArgs| ==> h.requiredKwArgs[i] in kw
    ensures var kw := Arguments(h, req, Gathered(h, req).value);
      Dispatch(h, req).BadRequest? ==>
        exists n :: n in h.requiredKwArgs && n !in kw && Dispatch(h, req) == BadRequest(MissingArgument(n))
  {
  }

  /** A POST to a handler taking keyword arguments is refused with 400 when
      it lacks a content type, when its JSON body is not an object, or when
      its content type is neither JSON nor a form. */
  lemma PostRefusals(h: RequestHandler, req: Request)
    requires ParsedQuery(req) && req.verb == "POST"
    requires h.hasVarKwArg || h.hasNamedKwArg || |h.requiredKwArgs| > 0
    ensures req.contentType == "" ==> Dispatch(h, req) == BadRequest(MissingContentType)
    ensures req.contentType != "" && StartsWith(Lower(req.contentType), JsonType) && req.json.JsonOther? ==>
      Dispatch(h, req) == BadRequest(NotAnObject)
    ensures var ct := Lower(req.contentType);
      req.contentType != "" && !StartsWith(ct, JsonType) && !StartsWith(ct, FormType) && !StartsWith(ct, MultipartType) ==>
      Dispatch(h, req) == BadRequest(Unsupported(req.contentType))
  {
  }

  /** The dictionary `__call__` builds from the gathered arguments: the
      named ones only when there is no `**kw` (framework.py:121-127). */
  method KeepNamed(h: RequestHandler, gathered: map<string, Value>) returns (kw: map<string, Value>)
    ensures kw == Kept(h, gathered)
  {
    if !h.hasVarKwArg && |h.nameKwArgs| > 0 {
      var names := h.nameKwArgs;
      kw := map[];
      for i := 0 to |names|
        invariant kw == Only(gathered, names[..i])
      {
        assert names[..i + 1] == names[..i] + [names[i]];
        if names[i] in gathered {
          kw := kw[names[i] := gathered[names[i]]];
        }
      }
      assert names[..|names|] == names;
    } else {
      kw := gathered;
    }
  }

  /** `for k, v in request.match_info.items(): kw[k] = v`
      (framework.py:129-132), in whatever order the dictionary iterates. */
  method Overlay(kw0: map<string, Arg>, matchInfo: map<string, Value>) returns (kw: map<string, Arg>)
    ensures kw == kw0 + Lift(matchInfo)
  {
    kw := kw0;
    var rest := matchInfo.Keys;
    while rest != {}
      invariant rest <= matchInfo.Keys
      invariant forall k :: k in kw <==> k in kw0 || (k in matchInfo && k !in rest)
      invariant forall k :: k in kw ==> kw[k] == if k in matchInfo && k !in rest then Given(matchInfo[k]) else kw0[k]
    {
      var k :| k in rest;
      kw := kw[k := Given(matchInfo[k])];
      rest := rest - {k};
    }
  }

  /** `kw[k] = v[0]` for the query's keys (framework.py:112-117). */
  method QueryArgs(q: map<string, seq<string>>) returns (kw: map<string, Value>)
    requires forall k :: k in q ==> |q[k]| > 0
    ensures kw == FirstValues(q)
  {
    kw := map[];
    var rest := q.Keys;
    while rest != {}
      invariant rest <= q.Keys
      invariant forall k :: k in kw <==> k in q && k !in rest
      invariant forall k :: k in kw ==> kw[k] == VStr(q[k][0])
    {
      var k :| k in rest;
      kw := kw[k := VStr(q[k][0])];
      rest := rest - {k};
    }
  }

  /** `for name in self._required_kw_args: if not name in kw: return ...`
      (framework.py:136-139). */
  method CheckRequired(names: seq<string>, kw: map<string, Arg>) returns (missing: Option<string>)
    ensures missing == FirstMissing(names, kw)
  {
    for i := 0 to |names|
      invariant FirstMissing(names, kw) == FirstMissing(names[i..], kw)
    {
      assert names[i..][1..] == names[i + 1..];
      if names[i] !in kw {
        return Some(names[i]);
      }
    }
    return None;
  }

  /** The first part of `RequestHandler.__call__` (framework.py:96-117):
      the arguments the body or the query supplies. */
  method Gather(h: RequestHandler, req: Request) returns (r: Result<Option<map<string, Value>>, string>)
    requires ParsedQuery(req)
    ensures r == Gathered(h, req)
  {
    var kw: Option<map<string, Value>> := None;
    if h.hasVarKwArg || h.hasNamedKwArg || |h.requiredKwArgs| > 0 {
      if req.verb == "POST" {
        if req.contentType == "" {
          return Err(MissingContentType);
        }
        var ct := Lower(req.contentType);
        if StartsWith(ct, JsonType) {
          if !req.json.JsonObject? {
            return Err(NotAnObject);
          }
          kw := Some(req.json.entries);
        } else if StartsWith(ct, FormType) || StartsWith(ct, MultipartType) {
          kw := Some(req.form);
        } else {
          return Err(Unsupported(req.contentType));
        }
      }
      if req.verb == "GET" && req.queryString != "" {
        var q := QueryArgs(req.query);
        kw := Some(q);
      }
    }
    return Ok(kw);
  }

  /** `RequestHandler.__call__` up to the handler call (framework.py:
      95-139). */
  method Call(h: RequestHandler, req: Request) returns (o: Outcome)
    requires ParsedQuery(req)
    ensures o == Dispatch(h, req)
  {
    var read := Gather(h, req);
    if read.Err? {
      return BadRequest(read.error);
    }
    var gathered := read.value;
    var kw: map<string, Arg>;
    if gathered.None? {
      kw := Lift(req.matchInfo);
    } else {
      var kept := KeepNamed(h, gathered.value);
      kw := Overlay(Lift(kept), req.matchInfo);
    }
    if h.hasRequestArg {
      kw := kw["request" := TheRequest];
    }
    assert kw == Arguments(h, req, gathered);
    var missing := CheckRequired(h.requiredKwArgs, kw);
    if missing.Some? {
      return BadRequest(MissingArgument(missing.value));
    }
    return Invoke(kw);
  }

  // ---------------------------------------------------------------------
  // Route registration
  // ---------------------------------------------------------------------

  datatype Route = Route(verb: string, path: string, handler: RequestHandler)

  function NotDecorated(fn: Handler): Failure
  {
    ValueError("@get or @post not defined in " + fn.text + ".")
  }

  /** The route `add_route(fn)` registers, or the error it raises
      (framework.py:147-156). */
  function RouteFor(fn: Handler): (r: Result<Route, Failure>)
    ensures fn.verb.None? || fn.route.None? ==> r == Err(NotDecorated(fn))
    ensures r.Ok? ==> r.value.verb == fn.verb.value && r.value.path == fn.route.value &&
                      HandlerFor(fn) == Ok(r.value.handler)
  {
    if fn.verb.None? || fn.route.None? then Err(NotDecorated(fn))
    else match HandlerFor(fn)
      case Err(e) => Err(e)
      case Ok(h) => Ok(Route(fn.verb.value, fn.route.value, h))
  }

  /** A function decorated with `@get` or `@post` passes the tag check,
      and is registered under its verb and path unless its signature is
      refused. */
  lemma DecoratedRegisters(path: string, fn: Handler)
    ensures RouteFor(Get(path, fn)).Ok? <==> RequestArg(fn).Ok?
    ensures RouteFor(Post(path, fn)).Ok? <==> RequestArg(fn).Ok?
    ensures RouteFor(Get(path, fn)).Ok? ==> RouteFor(Get(path, fn)).value.verb == "GET"
    ensures RouteFor(Post(path, fn)).Ok? ==> RouteFor(Post(path, fn)).value.path == path
  {
    DecoratedSameHandler(path, fn);
  }

  /** The route table `_routes`, which `add_route` appends to. */
  class Router {
    var routes: seq<Route>

    constructor ()
      ensures routes == []
    {
      routes := [];
    }

    /** `add_route(fn)`; the restart of a running server is not part of
        this model. */
    method AddRoute(fn: Handler) returns (r: Result<(), Failure>)
      modifies this
      ensures r.Err? <==> RouteFor(fn).Err?
      ensures r.Err? ==> r.error == RouteFor(fn).error && routes == old(routes)
      ensures r.Ok? ==> routes == old(routes) + [RouteFor(fn).value]
    {
      if fn.verb.None? || fn.route.None? {
        return Err(NotDecorated(fn));
      }
      var h := NewRequestHandler(fn);
      if h.Err? {
        return Err(h.error);
      }
      routes := routes + [Route(fn.verb.value, fn.route.value, h.value)];
      return Ok(());
    }
  }

  // ---------------------------------------------------------------------
  // Responses
  // ---------------------------------------------------------------------

  /** What a handler may return: a response object, bytes, a string, a
      dictionary, an integer, a tuple (with its `str()`), or anything else
      (by its `str()`; this includes `True` and `False`, whose integer
      values never fall in the status range). */
  datatype Returned =
    | RStream(id: string)
    | RBytes(bytes: seq<bv8>)
    | RStr(s: string)
    | RDict(d: map<string, Value>)
    | RInt(i: int)
    | RTuple(items: seq<Value>, text: string)
    | ROther(text: string)

  /** A response body: raw bytes, text encoded as UTF-8, a dictionary
      serialised by `json.dumps`, or a template rendered with a context. */
  datatype Content =
    | Bytes(bytes: seq<bv8>)
    | Utf8(text: string)
    | JsonOf(d: map<string, Value>)
    | Rendered(template: Value, context: map<string, Value>)

  datatype Response =
    | Passed(id: string)
    | Body(content: Content, contentType: string)
    | Found(location: string)
    | Status(code: int, reason: Option<string>)

  const RedirectPrefix: string := "redirect:"
  const OctetStream: string := "application/octet-stream"
  const Html: string := "text/html;charset=utf-8"
  const JsonUtf8: string := "application/json;charset=utf-8"
  const Plain: string := "text/plain;charset=utf-8"

  predicate IsStatus(v: Value)
  {
    v.VInt? && 100 <= v.i < 600
  }

  /** The response `response_factory` makes of a handler's return value
      (framework.py:267-298). The bare-integer branch calls an unbound
      name (framework.py:290); this is its evident intent, a response
      with that status. */
  function Respond(r: Returned): (resp: Response)
    ensures resp.Status? ==> 100 <= resp.code < 600
    ensures resp.Found? <==> r.RStr? && StartsWith(r.s, RedirectPrefix)
    ensures resp.Passed? <==> r.RStream?
  {
    match r
    case RStream(id) => Passed(id)
    case RBytes(b) => Body(Bytes(b), OctetStream)
    case RStr(s) =>
      if StartsWith(s, RedirectPrefix) then Found(s[9..]) else Body(Utf8(s), Html)
    case RDict(d) =>
      if "__template__" !in d || d["__template__"] == VNone then Body(JsonOf(d), JsonUtf8)
      else Body(Rendered(d["__template__"], d), Html)
    case RInt(i) =>
      if 100 <= i < 600 then Status(i, None) else Body(Utf8(IntText(i)), Plain)
    case RTuple(items, text) =>
      if |items| == 2 && IsStatus(items[0]) then Status(items[0].i, Some(Str(items[1])))
      else Body(Utf8(text), Plain)
    case ROther(text) => Body(Utf8(text), Plain)
  }

  /** `return 'redirect:/signin'` redirects to what follows the prefix. */
  lemma RedirectTarget(location: string)
    ensures Respond(RStr(RedirectPrefix + location)) == Found(location)
  {
    assert (RedirectPrefix + location)[..9] == RedirectPrefix;
    assert (RedirectPrefix + location)[9..] == location;
  }

  /** A dictionary is rendered with its template when it names one, and is
      sent as JSON otherwise. */
  lemma DictResponse(d: map<string, Value>)
    ensures Respond(RDict(d)).Body?
    ensures Respond(RDict(d)).content.Rendered? <==> "__template__" in d && d["__template__"] != VNone
    ensures Respond(RDict(d)).content.JsonOf? <==> Respond(RDict(d)).contentType == JsonUtf8
  {
  }

  /** A status comes only from an integer or a pair whose first item is an
      integer in [100, 600); any other pair is sent as text. */
  lemma StatusSource(r: Returned)
    ensures Respond(r).Status? <==>
      (r.RInt? && 100 <= r.i < 600) || (r.RTuple? && |r.items| == 2 && IsStatus(r.items[0]))
    ensures r.RTuple? && !Respond(r).Status? ==> Respond(r) == Body(Utf8(r.text), Plain)
  {
  }
}
