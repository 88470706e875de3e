/** `EngineFactory`: three registries, one per engine kind, each mapping an
    engine id to the first engine registered under it. */
module EngineFactory {
  import opened Options
  import Enumerations

  /** An engine as the registry sees it: its id and which object it is. */
  datatype Engine = Engine(id: string, handle: nat)

  /** The engine kinds; each has its own registry. */
  datatype EngineKind = DataFetcherEngine | RenderEngine | SenderEngine

  datatype Factory = Factory(
    fetcherEngines: map<string, Engine>,
    renderEngines: map<string, Engine>,
    senderEngines: map<string, Engine>)
  {
    function Registry(kind: EngineKind): map<string, Engine> {
      match kind
      case DataFetcherEngine => fetcherEngines
      case RenderEngine => renderEngines
      case SenderEngine => senderEngines
    }
  }

  /** The outcome of the constructor: a factory, or the `ArgumentNullException`
      naming the first missing argument. */
  datatype Constructed = Constructed(factory: Factory) | ArgumentNull(paramName: string)

  /** The outcome of `Get*Engine`: the engine, or the `ArgumentException` for
      the "engineId" parameter that names the missing id. */
  datatype Lookup = Found(engine: Engine) | NotFound(engineId: string)

  function EngineId(e: Engine): string {
    e.id
  }

  /** The first engine in `engines` with the given id, if any. */
  function FirstWith(engines: seq<Engine>, id: string): Option<Engine> {
    Enumerations.FirstWithValue(engines, EngineId, id)
  }

  /** `Dictionary.TryAdd`: an id already present keeps its engine. */
  function TryAdd(registry: map<string, Engine>, engine: Engine): (r: map<string, Engine>)
    ensures engine.id in registry ==> r == registry
    ensures engine.id !in registry ==> r == registry[engine.id := engine]
  {
    if engine.id in registry then registry else registry[engine.id := engine]
  }

  /** The `foreach` loop of the constructor: every engine is offered to
      `TryAdd` in order. */
  function Register(registry: map<string, Engine>, engines: seq<Engine>): (r: map<string, Engine>)
    ensures forall id :: id in registry ==> id in r && r[id] == registry[id]
    ensures forall i :: 0 <= i < |engines| ==> engines[i].id in r
    ensures forall id :: id in r ==> id in registry || exists i :: 0 <= i < |engines| && engines[i].id == id
    decreases |engines|
  {
    if |engines| == 0 then registry
    else
      var r := Register(TryAdd(registry, engines[0]), engines[1..]);
      assert forall i :: 1 <= i < |engines| ==> engines[i] == engines[1..][i - 1];
      r
  }

  /** Registering keeps what was there and adds, for each new id, the first
      engine that carries it. */
  lemma {:induction false} RegisterSpec(registry: map<string, Engine>, engines: seq<Engine>, id: string)
    ensures id in Register(registry, engines) <==> id in registry || FirstWith(engines, id).Some?
    ensures id in registry ==> Register(registry, engines)[id] == registry[id]
    ensures id !in registry && FirstWith(engines, id).Some? ==>
              Register(registry, engines)[id] == FirstWith(engines, id).value
    decreases |engines|
  {
    if |engines| > 0 {
      RegisterSpec(TryAdd(registry, engines[0]), engines[1..], id);
      assert forall i :: 1 <= i < |engines| ==> engines[i] == engines[1..][i - 1];
      if engines[0].id != id {
        assert FirstWith(engines, id) == FirstWith(engines[1..], id);
      }
    }
  }

  /** The engines registered from a list: exactly the ids in the list, each
      mapped to its first engine. */
  lemma FirstRegistrationWins(engines: seq<Engine>, id: string)
    ensures id in Register(map[], engines) <==> exists i :: 0 <= i < |engines| && engines[i].id == id
    ensures id in Register(map[], engines) ==> Register(map[], engines)[id] == FirstWith(engines, id).value
  {
    RegisterSpec(map[], engines, id);
  }

  /** The constructor: each argument must be non-null, checked in order; each
      list fills its own registry. */
  function New(builderEngines: Option<seq<Engine>>, renderEngines: Option<seq<Engine>>,
               senderEngines: Option<seq<Engine>>): (r: Constructed)
    ensures r.Constructed? <==> builderEngines.Some? && renderEngines.Some? && senderEngines.Some?
    ensures builderEngines.None? ==> r == ArgumentNull("builderEngines")
    ensures builderEngines.Some? && renderEngines.None? ==> r == ArgumentNull("renderEngines")
    ensures builderEngines.Some? && renderEngines.Some? && senderEngines.None? ==> r == ArgumentNull("senderEngines")
    ensures r.Constructed? ==> && r.factory.fetcherEngines == Register(map[], builderEngines.value)
                               && r.factory.renderEngines == Register(map[], renderEngines.value)
                               && r.factory.senderEngines == Register(map[], senderEngines.value)
  {
    if builderEngines.None? then ArgumentNull("builderEngines")
    else if renderEngines.None? then ArgumentNull("renderEngines")
    else if senderEngines.None? then ArgumentNull("senderEngines")
    else Constructed(Factory(Register(map[], builderEngines.value), Register(map[], renderEngines.value),
                             Register(map[], senderEngines.value)))
  }

  /** `GetDataFetcherEngine`, `GetRenderEngine`, `GetSenderEngine`: the
      registered engine, or an error naming the id. */
  function GetEngine(f: Factory, kind: EngineKind, engineId: string): (r: Lookup)
    ensures r.Found? <==> engineId in f.Registry(kind)
    ensures r.Found? ==> r.engine == f.Registry(kind)[engineId]
    ensures r.NotFound? ==> r.engineId == engineId
  {
    if engineId in f.Registry(kind) then Found(f.Registry(kind)[engineId]) else NotFound(engineId)
  }

  /** `TryGetDataFetcherEngine`, `TryGetRenderEngine`, `TryGetSenderEngine`:
      the flag, and the engine when the flag is set. */
  function TryGetEngine(f: Factory, kind: EngineKind, engineId: string): (r: (bool, Option<Engine>))
    ensures r.0 <==> engineId in f.Registry(kind)
    ensures r.0 <==> r.1.Some?
    ensures r.0 ==> r.1.value == f.Registry(kind)[engineId]
  {
    if engineId in f.Registry(kind) then (true, Some(f.Registry(kind)[engineId])) else (false, None)
  }

  /** `TryGet` reports success exactly when `Get` would return, and then
      yields the same engine. */
  lemma TryGetAgreesWithGet(f: Factory, kind: EngineKind, engineId: string)
    ensures TryGetEngine(f, kind, engineId).0 <==> GetEngine(f, kind, engineId).Found?
    ensures TryGetEngine(f, kind, engineId).0 ==>
              TryGetEngine(f, kind, engineId).1.value == GetEngine(f, kind, engineId).engine
  {
  }

  /** The list the constructor registers for `kind`. */
  function Supplied(kind: EngineKind, builderEngines: seq<Engine>, renderEngines: seq<Engine>,
                    senderEngines: seq<Engine>): seq<Engine> {
    match kind
    case DataFetcherEngine => builderEngines
    case RenderEngine => renderEngines
    case SenderEngine => senderEngines
  }

  /** A constructed factory resolves an id of a kind exactly when an engine of
      that kind was supplied under it, and returns the first such engine. */
  lemma LookupAfterConstruction(builderEngines: seq<Engine>, renderEngines: seq<Engine>,
                                senderEngines: seq<Engine>, kind: EngineKind, engineId: string)
    ensures var f := New(Some(builderEngines), Some(renderEngines), Some(senderEngines)).factory;
            var supplied := Supplied(kind, builderEngines, renderEngines, senderEngines);
            && (GetEngine(f, kind, engineId).Found? <==> FirstWith(supplied, engineId).Some?)
            && (GetEngine(f, kind, engineId).Found? ==>
                  GetEngine(f, kind, engineId).engine == FirstWith(supplied, engineId).value)
  {
    FirstRegistrationWins(Supplied(kind, builderEngines, renderEngines, senderEngines), engineId);
  }

  /** The registries are independent: an engine registered only as a data
      fetcher engine is not found by the render or sender lookups. */
  lemma KindsAreIndependent(builderEngines: seq<Engine>, engineId: string)
    requires exists i :: 0 <= i < |builderEngines| && builderEngines[i].id == engineId
    ensures var f := New(Some(builderEngines), Some([]), Some([])).factory;
            && GetEngine(f, DataFetcherEngine, engineId).Found?
            && GetEngine(f, RenderEngine, engineId) == NotFound(engineId)
            && GetEngine(f, SenderEngine, engineId) == NotFound(engineId)
  {
    LookupAfterConstruction(builderEngines, [], [], DataFetcherEngine, engineId);
    LookupAfterConstruction(builderEngines, [], [], RenderEngine, engineId);
    LookupAfterConstruction(builderEngines, [], [], SenderEngine, engineId);
  }

  /** With two engines under one id, the first one registered is the one
      returned. */
  lemma DuplicateIdKeepsFirst(a: Engine, b: Engine)
    requires a.id == b.id && a != b
    ensures var f := New(Some([a, b]), Some([]), Some([])).factory;
            GetEngine(f, DataFetcherEngine, a.id) == Found(a)
  {
    LookupAfterConstruction([a, b], [], [], DataFetcherEngine, a.id);
  }

  /** Lookup matches the id exactly: an engine registered as "SQL" is not
      found as "sql". */
  lemma LookupIsCaseSensitive(handle: nat)
    ensures var f := New(Some([Engine("SQL", handle)]), Some([]), Some([])).factory;
            && GetEngine(f, DataFetcherEngine, "SQL") == Found(Engine("SQL", handle))
            && GetEngine(f, DataFetcherEngine, "sql") == NotFound("sql")
  {
    var engines := [Engine("SQL", handle)];
    LookupAfterConstruction(engines, [], [], DataFetcherEngine, "SQL");
    LookupAfterConstruction(engines, [], [], DataFetcherEngine, "sql");
    assert engines[0].id != "sql";
  }
}
