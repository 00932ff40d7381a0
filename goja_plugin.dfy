/** Lifecycle plugins on the goja engine (internal/extension_repo/goja_plugin.go): normalising
    script exceptions into host errors, choosing which host hook methods scripts may bind,
    wrapping a script callback into the program a hook handler runs, running that program in an
    executor runtime, and the load sequence of a plugin.

    The interpreter is not modelled. Running source text in a runtime is an `Evaluator`: a
    function from the runtime's global bindings and the source to the bindings afterwards and
    what the run gave back (a value and an error, each optional, as goja's `RunString` and
    `RunProgram` return them), or a panic. The TypeScript transpiler is a partial function
    `Transpiler`. `GetOrCreatePluginPool` belongs to the plugin runtime outside the pool file and
    is left abstract: its result is a parameter. Reflection over the hook manager is replaced by the list of its method names. */
module GojaPlugin {
  import opened Host
  import opened GojaRuntime

  /** The name of a language other than the two the loaders accept. */
  type UnsupportedName = s: string | s != "javascript" && s != "typescript" witness "lua"

  /** `extension.Language`: the two supported languages, or any other name. */
  datatype Language = Javascript | Typescript | OtherLanguage(name: UnsupportedName)

  /** The parts of an extension descriptor that loading reads. */
  datatype Extension = Extension(id: string, language: Language, payload: string)

  datatype Eval =
    | Ran(globals: map<string, Value>, result: Option<Value>, err: Option<Error>)
    | Panic(globals: map<string, Value>, msg: string)

  type Evaluator = (map<string, Value>, string) -> Eval

  type Transpiler = string -> Result<string, Error>

  // ---------------------------------------------------------------------------------------
  // normalizeException
  // ---------------------------------------------------------------------------------------

  /** `e` is the host error a thrown value carries: the value itself, or, for a record, its
      "value" field. */
  predicate CarriesError(thrown: Value, e: Error) {
    || thrown == ErrorValue(e)
    || (thrown.Record? && "value" in thrown.fields && thrown.fields["value"] == ErrorValue(e))
  }

  function NormalizeException(err: Option<Error>): (r: Option<Error>)
    ensures r == None <==> err == None
    ensures err.Some? && !err.value.Exception? ==> r == err
    ensures err.Some? && err.value.Exception? ==>
              forall e :: CarriesError(err.value.thrown, e) ==> r == Some(e)
    ensures err.Some? && err.value.Exception? && (forall e :: !CarriesError(err.value.thrown, e)) ==>
              r == err
  {
    match err
    case None => None
    case Some(e) =>
      if !e.Exception? then err
      else
        match e.thrown
        case ErrorValue(inner) =>
          assert CarriesError(e.thrown, inner);
          Some(inner)
        case Record(fields) =>
          if "value" in fields && fields["value"].ErrorValue? then
            assert CarriesError(e.thrown, fields["value"].err);
            Some(fields["value"].err)
          else
            err
        case _ => err
  }

  /** The cases one by one: nil stays nil, a non-exception passes through, an exception yields
      the error its value carries if any and is otherwise returned unchanged. */
  lemma NormalizeExceptionCases(e: Error, inner: Error, fields: map<string, Value>, v: Value)
    ensures NormalizeException(None) == None
    ensures !e.Exception? ==> NormalizeException(Some(e)) == Some(e)
    ensures NormalizeException(Some(Exception(ErrorValue(inner)))) == Some(inner)
    ensures "value" in fields && fields["value"] == ErrorValue(inner) ==>
              NormalizeException(Some(Exception(Record(fields))))  == Some(inner)
    ensures !v.ErrorValue? && !v.Record? ==> NormalizeException(Some(Exception(v))) == Some(Exception(v))
  {
  }

  /** Only one level is unwrapped: an exception whose value is another exception comes back as
      that inner exception, not as what the inner one carries. */
  lemma NormalizeUnwrapsOneLevel(inner: Value)
    ensures NormalizeException(Some(Exception(ErrorValue(Exception(inner))))) == Some(Exception(inner))
  {
  }

  // ---------------------------------------------------------------------------------------
  // Hook binding
  // ---------------------------------------------------------------------------------------

  const ExcludedHooks: seq<string> := ["OnServe", ""]

  /** A hook manager method that scripts may bind. */
  predicate IsHookName(name: string) {
    HasPrefix(name, "On") && name !in ExcludedHooks
  }

  /** The name filter in plain terms; the empty entry of the exclusion list never matters, since
      the empty name does not start with "On". */
  lemma HookNameFilter(name: string)
    ensures IsHookName(name) <==> |name| >= 2 && name[0] == 'O' && name[1] == 'n' && name != "OnServe"
  {
    if |name| >= 2 && name[0] == 'O' && name[1] == 'n' {
      assert name[..2] == "On";
    }
  }

  /** Some bindable method among the first `n` has script name `k`. */
  ghost predicate BoundBefore(methods: seq<string>, jsName: string -> string, n: int, k: string) {
    exists i :: 0 <= i < n && i < |methods| && IsHookName(methods[i]) && jsName(methods[i]) == k
  }

  /** `methods[i]` is a bindable method whose script name is `k`, and no later bindable method
      among the first `n` has that script name, so its binding is the one left in the object. */
  ghost predicate LastBinderBefore(methods: seq<string>, jsName: string -> string, n: int, i: int, k: string) {
    && 0 <= i < n <= |methods|
    && IsHookName(methods[i]) && jsName(methods[i]) == k
    && forall j :: i < j < n && IsHookName(methods[j]) ==> jsName(methods[j]) != k
  }

  /** The `$app` object built by BindHooks: one entry per bindable method, under the script
      name the field mapper gives it, holding the registration function for that hook; when two
      methods share a script name the later one wins. */
  method HookTable(methods: seq<string>, jsName: string -> string) returns (app: map<string, Value>)
    ensures forall k :: k in app <==> BoundBefore(methods, jsName, |methods|, k)
    ensures forall k :: k in app ==>
              app[k].HostFunction? &&
              exists i :: LastBinderBefore(methods, jsName, |methods|, i, k) && methods[i] == app[k].name
  {
    app := map[];
    for n := 0 to |methods|
      invariant forall k :: k in app <==> BoundBefore(methods, jsName, n, k)
      invariant forall k :: k in app ==>
                  app[k].HostFunction? &&
                  exists i :: LastBinderBefore(methods, jsName, n, i, k) && methods[i] == app[k].name
    {
      var name := methods[n];
      ghost var before := app;
      if IsHookName(name) {
        app := app[jsName(name) := HostFunction(name)];
      }
      forall k
        ensures k in app <==> BoundBefore(methods, jsName, n + 1, k)
      {
        if k in before {
          var i :| 0 <= i < n && i < |methods| && IsHookName(methods[i]) && jsName(methods[i]) == k;
          assert 0 <= i < n + 1;
        }
        if BoundBefore(methods, jsName, n + 1, k) && !BoundBefore(methods, jsName, n, k) {
          assert IsHookName(name) && jsName(name) == k;
        }
      }
      forall k | k in app
        ensures exists i :: LastBinderBefore(methods, jsName, n + 1, i, k) && methods[i] == app[k].name
      {
        if IsHookName(name) && k == jsName(name) {
          assert LastBinderBefore(methods, jsName, n + 1, n, k);
        } else {
          var i :| LastBinderBefore(methods, jsName, n, i, k) && methods[i] == before[k].name;
          assert LastBinderBefore(methods, jsName, n + 1, i, k);
        }
      }
    }
  }

  method BindHooks(loader: Runtime, methods: seq<string>, jsName: string -> string)
    modifies loader
    ensures loader.globals.Keys == old(loader.globals.Keys) + {"$app"}
    ensures loader.globals["$app"].Record?
    ensures var app := loader.globals["$app"].fields;
            forall k :: k in app <==>
              exists i :: 0 <= i < |methods| && IsHookName(methods[i]) && jsName(methods[i]) == k
    ensures var app := loader.globals["$app"].fields;
            forall k :: k in app ==>
              exists i :: LastBinderBefore(methods, jsName, |methods|, i, k) && app[k] == HostFunction(methods[i])
    ensures forall k :: k in old(loader.globals) && k != "$app" ==> loader.globals[k] == old(loader.globals[k])
    ensures loader.interrupted == old(loader.interrupted)
  {
    var app := HookTable(methods, jsName);
    loader.globals := loader.globals["$app" := Record(app)];
  }

  // ---------------------------------------------------------------------------------------
  // Callback wrapping
  // ---------------------------------------------------------------------------------------

  const CallbackPrefix: string := "function(e) { $ctx = e.ctx; return ("
  const CallbackSuffix: string := ").call(undefined, e); }"
  const ProgramPrefix: string := "{("
  const ProgramSuffix: string := ").apply(undefined, __args)}"

  /** The wrapped callback: stripping the wrapper gives the script's callback back. */
  function WrapCallback(callback: string): (wrapped: string)
    ensures Unframe(wrapped, CallbackPrefix, CallbackSuffix) == Some(callback)
  {
    UnframeFrame(CallbackPrefix, callback, CallbackSuffix);
    CallbackPrefix + callback + CallbackSuffix
  }

  /** The program a hook handler compiles for a script callback: the wrapped callback applied
      to `__args`. */
  function HandlerProgram(callback: string): (program: string)
    ensures Unframe(program, ProgramPrefix, ProgramSuffix) == Some(WrapCallback(callback))
  {
    UnframeFrame(ProgramPrefix, WrapCallback(callback), ProgramSuffix);
    ProgramPrefix + WrapCallback(callback) + ProgramSuffix
  }

  /** Strip `prefix` and `suffix` from `s`, if `s` has them. */
  function Unframe(s: string, prefix: string, suffix: string): (r: Option<string>)
    ensures r.Some? ==> s == prefix + r.value + suffix
  {
    if |prefix| + |suffix| <= |s| && s[..|prefix|] == prefix && s[|s| - |suffix|..] == suffix then
      var inner := s[|prefix|..|s| - |suffix|];
      assert s == s[..|prefix|] + inner + s[|s| - |suffix|..];
      Some(inner)
    else
      None
  }

  /** The callback a handler program was made from. */
  function CallbackOf(program: string): Option<string> {
    match Unframe(program, ProgramPrefix, ProgramSuffix)
    case Some(wrapped) => Unframe(wrapped, CallbackPrefix, CallbackSuffix)
    case None => None
  }

  lemma {:induction false} UnframeFrame(prefix: string, inner: string, suffix: string)
    ensures Unframe(prefix + inner + suffix, prefix, suffix) == Some(inner)
  {
    var s := prefix + inner + suffix;
    assert s[..|prefix|] == prefix;
    assert s[|s| - |suffix|..] == suffix;
    assert s[|prefix|..|s| - |suffix|] == inner;
  }

  /** The callback is recovered from the handler program, so distinct callbacks give distinct
      programs. */
  lemma CallbackRoundTrip(callback: string)
    ensures CallbackOf(HandlerProgram(callback)) == Some(callback)
  {
  }

  lemma HandlerProgramInjective(a: string, b: string)
    ensures HandlerProgram(a) == HandlerProgram(b) ==> a == b
  {
    CallbackRoundTrip(a);
    CallbackRoundTrip(b);
  }

  // ---------------------------------------------------------------------------------------
  // Running a hook handler
  // ---------------------------------------------------------------------------------------

  /** What the bound Go handler hands back to the hook subsystem: an error or nil, or a panic
      that escapes it. */
  datatype HookResult = HookReturned(err: Option<Error>) | HookPanicked(msg: string)

  function HandlerOutcome(run: Eval): (r: HookResult)
    ensures run.Panic? <==> r.HookPanicked?
    ensures run.Ran? && run.result.Some? && run.result.value.ErrorValue? ==>
              r == HookReturned(Some(run.result.value.err))
    ensures run.Ran? && !(run.result.Some? && run.result.value.ErrorValue?) ==>
              r == HookReturned(NormalizeException(run.err))
  {
    match run
    case Panic(_, msg) => HookPanicked(msg)
    case Ran(_, result, err) =>
      if result.Some? && result.value.ErrorValue? then HookReturned(Some(result.value.err))
      else HookReturned(NormalizeException(err))
  }

  /** An error the script returned wins over any error the run raised. */
  lemma ReturnedErrorWins(g: map<string, Value>, e: Error, raised: Option<Error>)
    ensures HandlerOutcome(Ran(g, Some(ErrorValue(e)), raised)) == HookReturned(Some(e))
  {
  }

  /** The bindings a handler program starts with: `$ctx` undefined and the call's arguments in
      `__args`. */
  function HandlerBindings(globals: map<string, Value>, args: seq<Value>): (g: map<string, Value>)
    ensures g.Keys == globals.Keys + {"$ctx", "__args"}
    ensures g["$ctx"] == Undefined && g["__args"] == List(args)
    ensures forall k :: k in globals && k != "$ctx" && k != "__args" ==> g[k] == globals[k]
  {
    globals["$ctx" := Undefined]["__args" := List(args)]
  }

  /** The body of the Go handler that BindHooks registers, run in an executor runtime. */
  method RunHandler(executor: Runtime, program: string, args: seq<Value>, run: Evaluator)
    returns (r: HookResult)
    modifies executor
    ensures r == HandlerOutcome(run(HandlerBindings(old(executor.globals), args), program))
    ensures var after := run(HandlerBindings(old(executor.globals), args), program).globals;
            executor.globals == if r.HookPanicked? then after else after["__args" := Undefined]
    ensures executor.interrupted == old(executor.interrupted)
  {
    executor.globals := HandlerBindings(executor.globals, args);
    var ran := run(executor.globals, program);
    executor.globals := ran.globals;
    if ran.Panic? {
      return HookPanicked(ran.msg);
    }
    executor.globals := executor.globals["__args" := Undefined];
    if ran.result.Some? && ran.result.value.ErrorValue? {
      return HookReturned(Some(ran.result.value.err));
    }
    r := HookReturned(NormalizeException(ran.err));
  }

  // ---------------------------------------------------------------------------------------
  // Loading a plugin
  // ---------------------------------------------------------------------------------------

  datatype GojaPlugin = GojaPlugin(ext: Extension, pool: Pool)

  datatype PluginLoad = Loaded(plugin: GojaPlugin) | LoadFailed(err: Error) | LoadPanicked(msg: string)

  const InitCall: string := "init();"
  const InitErrorPrefix: string := "failed to run init: "

  /** The source to evaluate: the payload, converted first when it is TypeScript. */
  function PluginSource(ext: Extension, language: Language, transpile: Transpiler): Result<string, Error> {
    if language == Typescript then transpile(ext.payload) else Success(ext.payload)
  }

  /** `loader.Get("init")` is neither missing nor undefined. */
  predicate DefinesInit(globals: map<string, Value>) {
    "init" in globals && globals["init"] != Undefined
  }

  /** The outcome of NewGojaPlugin and the loader's bindings afterwards, step by step:
      conversion, pool lookup, evaluation, then `init()` when the script defines it. */
  function PluginOutcome(globals: map<string, Value>, ext: Extension, language: Language,
                         transpile: Transpiler, pluginPool: Result<Pool, Error>, eval: Evaluator)
    : (r: (PluginLoad, map<string, Value>))
    ensures PluginSource(ext, language, transpile).Failure? ==>
              r == (LoadFailed(PluginSource(ext, language, transpile).error), globals)
    ensures PluginSource(ext, language, transpile).Success? && pluginPool.Failure? ==>
              r == (LoadFailed(pluginPool.error), globals)
    ensures PluginSource(ext, language, transpile).Success? && pluginPool.Success? ==>
              var first := eval(globals, PluginSource(ext, language, transpile).value);
              && (first.Panic? ==> r == (LoadPanicked(first.msg), first.globals))
              && (first.Ran? && first.err.Some? ==> r == (LoadFailed(first.err.value), first.globals))
              && (first.Ran? && first.err.None? && !DefinesInit(first.globals) ==>
                    r == (Loaded(GojaPlugin(ext, pluginPool.value)), first.globals))
              && (first.Ran? && first.err.None? && DefinesInit(first.globals) ==>
                    var second := eval(first.globals, InitCall);
                    && (second.Panic? ==> r == (LoadPanicked(second.msg), second.globals))
                    && (second.Ran? && second.err.Some? ==>
                          r == (LoadFailed(Wrapped(InitErrorPrefix, second.err.value)), second.globals))
                    && (second.Ran? && second.err.None? ==>
                          r == (Loaded(GojaPlugin(ext, pluginPool.value)), second.globals)))
  {
    match PluginSource(ext, language, transpile)
    case Failure(e) => (LoadFailed(e), globals)
    case Success(source) =>
      match pluginPool
      case Failure(e) => (LoadFailed(e), globals)
      case Success(pool) =>
        match eval(globals, source)
        case Panic(g, msg) => (LoadPanicked(msg), g)
        case Ran(g, _, Some(e)) => (LoadFailed(e), g)
        case Ran(g, _, None) =>
          if !DefinesInit(g) then (Loaded(GojaPlugin(ext, pool)), g)
          else
            match eval(g, InitCall)
            case Panic(g', msg) => (LoadPanicked(msg), g')
            case Ran(g', _, Some(e)) => (LoadFailed(Wrapped(InitErrorPrefix, e)), g')
            case Ran(g', _, None) => (Loaded(GojaPlugin(ext, pool)), g')
  }

  /** A failed TypeScript conversion ends the load before the pool is looked up and before any
      evaluation: the result depends on neither, and the loader is untouched. */
  lemma ConversionFailureStopsFirst(globals: map<string, Value>, ext: Extension, transpile: Transpiler,
                                    pluginPool: Result<Pool, Error>, eval: Evaluator)
    requires transpile(ext.payload).Failure?
    ensures PluginOutcome(globals, ext, Typescript, transpile, pluginPool, eval)
         == (LoadFailed(transpile(ext.payload).error), globals)
  {
  }

  /** JavaScript is never sent to the transpiler. */
  lemma JavascriptIsNotConverted(globals: map<string, Value>, ext: Extension, t1: Transpiler, t2: Transpiler,
                                 pluginPool: Result<Pool, Error>, eval: Evaluator)
    ensures PluginOutcome(globals, ext, Javascript, t1, pluginPool, eval)
         == PluginOutcome(globals, ext, Javascript, t2, pluginPool, eval)
  {
  }

  /** A plugin is produced exactly when every step succeeds, and it holds the looked-up pool. */
  lemma LoadedExactlyWhenAllStepsSucceed(globals: map<string, Value>, ext: Extension, language: Language,
                                         transpile: Transpiler, pluginPool: Result<Pool, Error>, eval: Evaluator)
    ensures var (r, _) := PluginOutcome(globals, ext, language, transpile, pluginPool, eval);
            r.Loaded? <==>
              && PluginSource(ext, language, transpile).Success?
              && pluginPool.Success?
              && var first := eval(globals, PluginSource(ext, language, transpile).value);
                 && first.Ran? && first.err == None
                 && (DefinesInit(first.globals) ==> eval(first.globals, InitCall).Ran? && eval(first.globals, InitCall).err == None)
    ensures var (r, _) := PluginOutcome(globals, ext, language, transpile, pluginPool, eval);
            r.Loaded? ==> r.plugin == GojaPlugin(ext, pluginPool.value)
  {
  }

  /** An `init()` failure comes back wrapped, never as a plugin. */
  lemma InitFailureIsWrapped(globals: map<string, Value>, ext: Extension, language: Language,
                             transpile: Transpiler, pool: Pool, eval: Evaluator)
    requires PluginSource(ext, language, transpile).Success?
    requires var first := eval(globals, PluginSource(ext, language, transpile).value);
             first.Ran? && first.err == None && DefinesInit(first.globals) &&
             eval(first.globals, InitCall).Ran? && eval(first.globals, InitCall).err.Some?
    ensures var first := eval(globals, PluginSource(ext, language, transpile).value);
            (PluginOutcome(globals, ext, language, transpile, Success(pool), eval).0
             == LoadFailed(Wrapped(InitErrorPrefix, eval(first.globals, InitCall).err.value)))
  {
  }

  method NewGojaPlugin(loader: Runtime, ext: Extension, language: Language, transpile: Transpiler,
                       pluginPool: Result<Pool, Error>, eval: Evaluator)
    returns (r: PluginLoad)
    modifies loader
    ensures (r, loader.globals) == PluginOutcome(old(loader.globals), ext, language, transpile, pluginPool, eval)
    ensures loader.interrupted == old(loader.interrupted)
  {
    var source := ext.payload;
    if language == Typescript {
      var converted := transpile(ext.payload);
      if converted.Failure? {
        return LoadFailed(converted.error);
      }
      source := converted.value;
    }

    if pluginPool.Failure? {
      return LoadFailed(pluginPool.error);
    }
    var pool := pluginPool.value;

    // Evaluate the (converted) payload in the loader runtime.
    var ran := eval(loader.globals, source);
    loader.globals := ran.globals;
    if ran.Panic? {
      return LoadPanicked(ran.msg);
    }
    if ran.err.Some? {
      return LoadFailed(ran.err.value);
    }

    // Run the script's initialiser when the payload defined one.
    if DefinesInit(loader.globals) {
      var initRan := eval(loader.globals, InitCall);
      loader.globals := initRan.globals;
      if initRan.Panic? {
        return LoadPanicked(initRan.msg);
      }
      if initRan.err.Some? {
        return LoadFailed(Wrapped(InitErrorPrefix, initRan.err.value));
      }
    }

    r := Loaded(GojaPlugin(ext, pool));
  }
}
