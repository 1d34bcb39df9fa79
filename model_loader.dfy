/** The parameter-merging fixture loader (`ModelLoader`): it keeps a load
    context, and every load call lays the context's default parameters under
    the call-site parameters before handing the request to the fixture engine. */
module Loader {

  import opened Wrappers
  import opened PhpValues

  /** The one context key the loader reads. */
  const ParametersKey := "parameters"

  /** Fixture parameters: a string-keyed PHP array. */
  type Parameters = map<string, Value>

  /** An object handed to, or produced by, the fixture engine; opaque here. */
  datatype Handle = Handle(id: nat)

  /** The payload of each of the three load shapes. */
  datatype Payload =
    | Files(paths: seq<string>)
    | File(path: string)
    | Data(data: map<string, Value>)

  /** One call into the fixture engine, as the engine receives it. */
  datatype Request = Request(payload: Payload, parameters: Parameters, objects: map<string, Handle>)

  /** What the engine returns: the resolved parameters and the generated objects. */
  datatype ObjectSet = ObjectSet(parameters: Parameters, objects: map<string, Handle>)

  /** A failure the engine raises (bad fixture syntax, unknown reference, ...). */
  datatype LoadError = LoadError(message: string)

  /** Why merging the parameters failed. */
  datatype MergeError =
    | DefaultsNotArray(found: Value)  // `array_merge` throws a TypeError
    | IntegerKeyedDefaults            // a non-empty list: outside this model

  /** What a load call lets escape. */
  datatype LoadFailure =
    | MergeFailed(mergeError: MergeError)
    | EngineFailed(loadError: LoadError)

  /** PHP's `array_merge` on two string-keyed arrays: the defaults overlaid by
      the call site, the call site winning on a shared key. */
  function Merge(defaults: Parameters, callSite: Parameters): (r: Parameters)
    ensures r.Keys == defaults.Keys + callSite.Keys
    ensures forall k :: k in callSite ==> r[k] == callSite[k]
    ensures forall k :: k in defaults && k !in callSite ==> r[k] == defaults[k]
  {
    defaults + callSite
  }

  /** `mergeParameters`: when the context has no non-null `parameters` entry
      (PHP `isset`), the call-site parameters pass unchanged; otherwise they
      are merged over the context's defaults (an empty array of defaults
      leaves them unchanged too). */
  function MergeParameters(context: map<string, Value>, parameters: Parameters): (r: Result<Parameters, MergeError>)
    ensures ParametersKey !in context || context[ParametersKey].Null? || context[ParametersKey] == List([]) ==>
      r == Ok(parameters)
    ensures ParametersKey in context && context[ParametersKey].Map? ==>
      r == Ok(Merge(context[ParametersKey].entries, parameters))
    ensures r.Err? <==>
      ParametersKey in context && !context[ParametersKey].Null? && !context[ParametersKey].Map?
      && context[ParametersKey] != List([])
  {
    if ParametersKey !in context then Ok(parameters)
    else
      match context[ParametersKey]
      case Null => Ok(parameters)
      case Map(defaults) => Ok(Merge(defaults, parameters))
      case List(items) =>
        if items == [] then
          MergeMonoid(parameters, map[], map[]);
          Ok(Merge(map[], parameters))
        else Err(IntegerKeyedDefaults)
      case other => Err(DefaultsNotArray(other))
  }

  /** Merging an already merged parameter set again changes nothing. */
  lemma MergeIdempotent(defaults: Parameters, callSite: Parameters)
    ensures Merge(defaults, Merge(defaults, callSite)) == Merge(defaults, callSite)
    ensures Merge(Merge(defaults, callSite), callSite) == Merge(defaults, callSite)
  {
  }

  /** The loader's merge is idempotent: feeding its output back in as the
      call-site parameters yields the same parameters. */
  lemma MergeParametersIdempotent(context: map<string, Value>, parameters: Parameters)
    ensures MergeParameters(context, parameters).Ok? ==>
      var merged := MergeParameters(context, parameters).value;
      MergeParameters(context, merged) == Ok(merged)
  {
    if ParametersKey in context {
      match context[ParametersKey]
      case Map(defaults) => MergeIdempotent(defaults, parameters);
      case List(items) => MergeIdempotent(map[], parameters);
      case _ =>
    }
  }

  /** Overlaying is associative and the empty array is its identity on both
      sides: merging `{}` defaults is the same as having no defaults. */
  lemma MergeMonoid(a: Parameters, b: Parameters, c: Parameters)
    ensures Merge(Merge(a, b), c) == Merge(a, Merge(b, c))
    ensures Merge(map[], a) == a && Merge(a, map[]) == a
  {
  }

  /** The fixture engine the loader forwards to. Its behaviour is outside this
      model: it answers each request with a fixed function of that request,
      and it records every request it receives. */
  class FixtureEngine {
    var requests: seq<Request>
    const respond: Request -> Result<ObjectSet, LoadError>

    constructor(respond: Request -> Result<ObjectSet, LoadError>)
      ensures requests == [] && this.respond == respond
    {
      requests := [];
      this.respond := respond;
    }

    method Load(request: Request) returns (r: Result<ObjectSet, LoadError>)
      modifies this
      ensures requests == old(requests) + [request]
      ensures r == respond(request)
    {
      requests := requests + [request];
      r := respond(request);
    }
  }

  /** The engine's answer as a load call returns it: the object set unchanged,
      an engine failure passed through. */
  function Passed(answer: Result<ObjectSet, LoadError>): (r: Result<ObjectSet, LoadFailure>)
    ensures answer.Ok? <==> r.Ok?
    ensures answer.Ok? ==> r.value == answer.value
    ensures answer.Err? ==> r.error == EngineFailed(answer.error)
  {
    match answer
    case Ok(objectSet) => Ok(objectSet)
    case Err(e) => Err(EngineFailed(e))
  }

  class ModelLoader {
    var context: map<string, Value>
    const engine: FixtureEngine

    /** A new loader starts with an empty context. */
    constructor(engine: FixtureEngine)
      ensures context == map[] && this.engine == engine
    {
      context := map[];
      this.engine := engine;
    }

    /** `withContext`: replaces the context wholesale and returns the loader. */
    method WithContext(context: map<string, Value>) returns (self: ModelLoader)
      modifies this
      ensures this.context == context
      ensures self == this
    {
      this.context := context;
      self := this;
    }

    /** `getContext`: the context last set, verbatim. */
    method GetContext() returns (c: map<string, Value>)
      ensures c == context
    {
      c := context;
    }

    /** The body shared by the three load calls: merge, forward, pass back. */
    method Forward(payload: Payload, parameters: Parameters, objects: map<string, Handle>)
      returns (r: Result<ObjectSet, LoadFailure>)
      modifies engine
      ensures var merged := MergeParameters(context, parameters);
        if merged.Ok? then
          var sent := Request(payload, merged.value, objects);
          engine.requests == old(engine.requests) + [sent] && r == Passed(engine.respond(sent))
        else
          engine.requests == old(engine.requests) && r == Err(MergeFailed(merged.error))
    {
      var merged := MergeParameters(context, parameters);
      match merged
      case Err(e) =>
        r := Err(MergeFailed(e));
      case Ok(m) =>
        var answer := engine.Load(Request(payload, m, objects));
        r := Passed(answer);
    }

    /** `loadFiles`. */
    method LoadFiles(files: seq<string>, parameters: Parameters, objects: map<string, Handle>)
      returns (r: Result<ObjectSet, LoadFailure>)
      modifies engine
      ensures var merged := MergeParameters(context, parameters);
        if merged.Ok? then
          var sent := Request(Files(files), merged.value, objects);
          engine.requests == old(engine.requests) + [sent] && r == Passed(engine.respond(sent))
        else
          engine.requests == old(engine.requests) && r == Err(MergeFailed(merged.error))
    {
      r := Forward(Files(files), parameters, objects);
    }

    /** `loadFile`. */
    method LoadFile(file: string, parameters: Parameters, objects: map<string, Handle>)
      returns (r: Result<ObjectSet, LoadFailure>)
      modifies engine
      ensures var merged := MergeParameters(context, parameters);
        if merged.Ok? then
          var sent := Request(File(file), merged.value, objects);
          engine.requests == old(engine.requests) + [sent] && r == Passed(engine.respond(sent))
        else
          engine.requests == old(engine.requests) && r == Err(MergeFailed(merged.error))
    {
      r := Forward(File(file), parameters, objects);
    }

    /** `loadData`. */
    method LoadData(data: map<string, Value>, parameters: Parameters, objects: map<string, Handle>)
      returns (r: Result<ObjectSet, LoadFailure>)
      modifies engine
      ensures var merged := MergeParameters(context, parameters);
        if merged.Ok? then
          var sent := Request(Data(data), merged.value, objects);
          engine.requests == old(engine.requests) + [sent] && r == Passed(engine.respond(sent))
        else
          engine.requests == old(engine.requests) && r == Err(MergeFailed(merged.error))
    {
      r := Forward(Data(data), parameters, objects);
    }
  }

  /** The scenario of the loader's `loadFile` test: context defaults
      `{global: true, foo: "baz"}`, call site `{lorem: "ipsum", foo: "bar"}`. */
  method LoadFileScenario() returns (sent: Request)
    ensures sent.parameters == map["global" := Bool(true), "lorem" := Str("ipsum"), "foo" := Str("bar")]
    ensures sent.payload == File("test.fixtures.yaml")
  {
    var empty := ObjectSet(map[], map[]);
    var engine := new FixtureEngine(_ => Ok(empty));
    var loader := new ModelLoader(engine);
    var context := map[ParametersKey := Map(map["global" := Bool(true), "foo" := Str("baz")])];
    var self := loader.WithContext(context);
    var read := loader.GetContext();
    assert read == context;
    var objects := map["now" := Handle(0)];
    var r := loader.LoadFile("test.fixtures.yaml", map["lorem" := Str("ipsum"), "foo" := Str("bar")], objects);
    assert r == Ok(empty);
    assert |engine.requests| == 1;
    sent := engine.requests[0];
    assert sent.objects == objects;
  }

  /** The scenario of the test without a context: the call-site parameters
      reach the engine unchanged. */
  method LoadDataWithoutContextScenario() returns (sent: Request)
    ensures sent.parameters == map["lorem" := Str("ipsum"), "foo" := Str("bar")]
  {
    var engine := new FixtureEngine(_ => Ok(ObjectSet(map[], map[])));
    var loader := new ModelLoader(engine);
    var read := loader.GetContext();
    assert read == map[];
    var r := loader.LoadData(map[], map["lorem" := Str("ipsum"), "foo" := Str("bar")], map[]);
    sent := engine.requests[0];
  }
}
