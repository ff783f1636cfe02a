/**
  The partial manager: the registry of driver definitions by alias, the cache of
  driver instances by alias then id, the HTTP routes that forward to drivers and
  the dispatcher behind them.

  The dependency-injection container and `class_exists` are fixed tables, the
  router is reduced to whether one is attached and the route handles it returns,
  and `Str::studly` is a function supplied at construction.
*/
module PartialManager {
  import opened Support
  import opened PartialDriver

  const TagClassName := "Pollen\\Partial\\Drivers\\TagDriver"

  /** `$defaultDrivers`: alias and class name of the built-in drivers. */
  const DefaultDrivers: seq<(string, string)> := [("tag", TagClassName)]

  const WebPath := "/_partial/{partial}/{controller}"
  const ApiPath := "/api/_partial/{partial}/{controller}"

  /** The router method a route was registered with (`xhr` for the api channel). */
  datatype Verb = GET | POST | PUT | PATCH | OPTIONS | DELETE | XHR

  /** A route handle from the router; every route targets the dispatcher. */
  datatype Route = Route(verb: Verb, path: string)

  /** A driver definition as `register` stores it. */
  datatype Definition =
    | Instance(proto: Driver)   // a driver object, cloned on each resolution
    | ClassName(name: string)   // a string that is not callable
    | Callable(fn: nat)         // anything callable, wrapped in the callable driver
    | FalsyValue                // false, 0, an empty array
    | Opaque                    // any other truthy value that is neither a driver nor callable

  /** `!$def`: a falsy definition counts as no definition. */
  predicate IsFalsyDefinition(def: Definition) {
    def.FalsyValue? || (def.ClassName? && FalsyString(def.name))
  }

  /** How `resolveDriverFromDefinition` turns a definition into a driver. */
  datatype Plan =
    | Unavailable            // no definition, or a falsy one: invalid-argument exception
    | CloneOf(source: Driver)
    | Construct(kind: DriverKind)
    | Unresolved             // resolution yields null

  /**
    The case split of `resolveDriverFromDefinition`: a driver instance is cloned; a
    class name is cloned from the container when the container has it, else
    constructed when the class exists; a callable is wrapped.
  */
  function PlanFor(defs: map<string, Definition>, alias: string, container: map<string, Option<Driver>>,
                   classes: map<string, Option<DriverKind>>): (r: Plan)
    ensures r.Unavailable? <==> alias !in defs || IsFalsyDefinition(defs[alias])
    ensures alias in defs && defs[alias].Instance? ==> r == CloneOf(defs[alias].proto)
    ensures alias in defs && defs[alias].Callable? ==> r == Construct(CallableKind(defs[alias].fn))
    ensures alias in defs && defs[alias].Opaque? ==> r == Unresolved
    ensures alias in defs && defs[alias].ClassName? && !FalsyString(defs[alias].name) ==>
      var n := defs[alias].name;
      && (n in container ==> r == if container[n].Some? then CloneOf(container[n].value) else Unresolved)
      && (n !in container && n in classes ==> r == if classes[n].Some? then Construct(classes[n].value) else Unresolved)
      && (n !in container && n !in classes ==> r == Unresolved)
  {
    if alias !in defs || IsFalsyDefinition(defs[alias]) then Unavailable
    else
      match defs[alias]
      case Instance(d) => CloneOf(d)
      case ClassName(n) =>
        if n in container then (if container[n].Some? then CloneOf(container[n].value) else Unresolved)
        else if n in classes then (if classes[n].Some? then Construct(classes[n].value) else Unresolved)
        else Unresolved
      case Callable(fn) => Construct(CallableKind(fn))
      case FalsyValue => Unavailable
      case Opaque => Unresolved
  }

  /** The class of the driver a plan yields. */
  function PlanKind(plan: Plan): DriverKind
    requires plan.CloneOf? || plan.Construct?
  {
    if plan.CloneOf? then plan.source.kind else plan.kind
  }

  /** The alias the resolved driver starts with: the prototype's when cloned, none when constructed. */
  function SeedAlias(plan: Plan): string
    reads if plan.CloneOf? then {plan.source} else {}
  {
    if plan.CloneOf? then plan.source.alias else ""
  }

  /** Whether the resolved driver starts booted: only a clone of a booted prototype does. */
  predicate SeedBooted(plan: Plan)
    reads if plan.CloneOf? then {plan.source} else {}
  {
    plan.CloneOf? && plan.source.booted
  }

  /** What `resolveDriverFromDefinition` returns or throws. */
  datatype Resolution = DefinitionUnavailable | NotResolved | Resolved(driver: Driver)

  /** The second argument of `get`: nothing, an id, or an array of parameters. */
  datatype IdArg = NoId | Id(id: string) | ParamsArg(params: Params)

  datatype GetResult = Found(driver: Driver) | NoDriver | UnavailableAlias

  /** The manager's configuration: `driver.<alias>` parameter layers and the `view` settings. */
  datatype Config = Config(driverParams: map<string, Params>, view: ViewConfig)

  /** Why the dispatcher answers "not found". */
  datatype NotFoundCause =
    | ResolutionFailed(partial: string)
    | ControllerFailed(controller: string, partial: string)
    | Unreachable(partial: string)

  /** What a handler method does: respond, throw an Exception, or throw an Error. */
  datatype HandlerOutcome = Responds(response: Response) | ThrowsException | ThrowsError

  /** The dispatcher's outcome; `Escaped` is a PHP Error its `catch (Exception)` does not catch. */
  datatype DispatchResult = Responded(response: Response) | NotFound(cause: NotFoundCause) | Escaped

  /**
    What `getRouteUrl` asks the router for, or why it fails: no router (null), a missing
    api or web route (a runtime exception), or, for a driver's own `getRouteUrl`, the
    null of a manager without router rejected by its `string` return type (a TypeError).
  */
  datatype UrlResult =
    | NoRouter
    | ApiRouteMissing(partial: string)
    | WebRouteMissing(partial: string, httpMethod: string)
    | Url(route: Route, args: Params)
    | NotAString

  /** A driver class whose defaults carry only class templates this model formats. */
  predicate KindOk(kind: DriverKind) {
    ClassTemplateOk(KindExtras(kind))
  }

  /** The default id of the instance at `index`. */
  function DefaultId(alias: string, index: nat): string {
    alias + Decimal(index)
  }

  /** The id given to `get`, if any. */
  function IdOf(idOrParams: IdArg): Option<string> {
    if idOrParams.Id? then Some(idOrParams.id) else None
  }

  /** The parameters `get` uses: an array in place of the id replaces the third argument. */
  function CallerParams(idOrParams: IdArg, params: Params): Params {
    if idOrParams.ParamsArg? then idOrParams.params else params
  }

  /** `array_merge($defaults, $config, $caller)`: for each key the last layer holding it wins. */
  function ResolvedParams(defaults: Params, config: Params, caller: Params): Params {
    Merge(Merge(defaults, config), caller)
  }

  /** For each key of the merged parameters, the last layer holding it wins. */
  lemma ResolvedParamsLayers(defaults: Params, config: Params, caller: Params)
    ensures var r := ResolvedParams(defaults, config, caller);
      && r.Keys == defaults.Keys + config.Keys + caller.Keys
      && (forall k | k in caller :: r[k] == caller[k])
      && (forall k | k in config && k !in caller :: r[k] == config[k])
      && (forall k | k in defaults && k !in config && k !in caller :: r[k] == defaults[k])
  {
  }

  /** The seven channels registered at boot when a router is attached. */
  function RouteTable(): (r: map<string, Route>)
    ensures r.Keys == {"get", "post", "put", "patch", "options", "delete", "api"}
    ensures forall c | c in r && c != "api" :: r[c].path == WebPath && r[c].verb != XHR
    ensures r["api"] == Route(XHR, ApiPath)
  {
    map[
      "get" := Route(GET, WebPath), "post" := Route(POST, WebPath), "put" := Route(PUT, WebPath),
      "patch" := Route(PATCH, WebPath), "options" := Route(OPTIONS, WebPath),
      "delete" := Route(DELETE, WebPath), "api" := Route(XHR, ApiPath)]
  }

  /** The definitions after registering `entries` in order, without callbacks. */
  function Registered(defs: map<string, Definition>, entries: seq<(string, string)>): map<string, Definition>
    decreases |entries|
  {
    if entries == [] then defs
    else Registered(defs, entries[..|entries| - 1])[entries[|entries| - 1].0 := ClassName(entries[|entries| - 1].1)]
  }

  /** The dispatcher's handling of a resolved driver: invoke the named handler and translate failures. */
  function InvokeController(kind: DriverKind, partial: string, controller: string, args: seq<Value>,
                            invoke: (nat, seq<Value>) -> HandlerOutcome): (r: DispatchResult)
    ensures r.NotFound? ==> r.cause == ControllerFailed(controller, partial)
    ensures r.Responded? ==> HandlerOf(kind, controller).Some?
    ensures HandlerOf(kind, controller).None? ==> r == Escaped
    ensures HandlerOf(kind, controller) == Some(Fallback) ==> r == Responded(Response(404, None))
    ensures HandlerOf(kind, controller).Some? && HandlerOf(kind, controller).value.Method? ==>
      var out := invoke(HandlerOf(kind, controller).value.handler, args);
      && (out.ThrowsException? <==> r.NotFound?)
      && (out.Responds? ==> r == Responded(out.response))
  {
    match HandlerOf(kind, controller)
    case None => Escaped
    case Some(Fallback) => Responded(ResponseController(args))
    case Some(Method(h)) =>
      match invoke(h, args)
      case Responds(resp) => Responded(resp)
      case ThrowsException => NotFound(ControllerFailed(controller, partial))
      case ThrowsError => Escaped
  }

  // ---------------------------------------------------------------------------
  // Error messages
  // ---------------------------------------------------------------------------

  const ApiRouteHead := "The api route for route for the "
  const WebRouteHead := "The web route for HTTP method "
  const NotFoundHead := "PartialDriver "

  /** The api-channel message of `getRouteUrl`: it names the partial. */
  function ApiRouteMissingMessage(partial: string): (r: string)
    ensures Bracketed(r, |ApiRouteHead|, partial)
  {
    BracketedAfter(ApiRouteHead, partial, "] partial driver is not available.");
    ApiRouteHead + "[" + partial + "] partial driver is not available."
  }

  /** The web-channel message template of `getRouteUrl`, filled in argument order. */
  function WebRouteMissingText(first: string, second: string): string {
    WebRouteHead + "[" + first + ("] the [" + second + "] partial driver is not available.")
  }

  /** As written: the partial is passed first, so it lands in the "HTTP method" slot. */
  function WebRouteMissingMessageAsWritten(partial: string, httpMethod: string): string {
    WebRouteMissingText(partial, httpMethod)
  }

  /** As intended: the requested method is bracketed right after "HTTP method". */
  function WebRouteMissingMessage(partial: string, httpMethod: string): (r: string)
    ensures Bracketed(r, |WebRouteHead|, httpMethod)
  {
    BracketedAfter(WebRouteHead, httpMethod, "] the [" + partial + "] partial driver is not available.");
    WebRouteMissingText(httpMethod, partial)
  }

  /**
    The message `getRouteUrl` raises for a missing route, as written: the first bracket
    names the partial on both channels, even where the web message announces the method.
  */
  function RouteMissingMessage(u: UrlResult): (r: string)
    requires u.ApiRouteMissing? || u.WebRouteMissing?
    ensures u.ApiRouteMissing? ==> Bracketed(r, |ApiRouteHead|, u.partial)
    ensures u.WebRouteMissing? ==> Bracketed(r, |WebRouteHead|, u.partial)
  {
    if u.ApiRouteMissing? then ApiRouteMissingMessage(u.partial)
    else
      BracketedAfter(WebRouteHead, u.partial, "] the [" + u.httpMethod + "] partial driver is not available.");
      WebRouteMissingMessageAsWritten(u.partial, u.httpMethod)
  }

  /** The dispatcher's controller-failure template, filled in argument order. */
  function ControllerFailedText(first: string, second: string): string {
    NotFoundHead + "[" + first + ("] Controller [" + second + "] call return exception.")
  }

  /** As written: the controller is passed first, so it is reported as the driver. */
  function ControllerFailedMessageAsWritten(controller: string, partial: string): string {
    ControllerFailedText(controller, partial)
  }

  /**
    The messages of the dispatcher's "not found" errors, with the controller-failure one in
    the intended order: every one brackets the partial right after "PartialDriver".
  */
  function NotFoundMessage(cause: NotFoundCause): (r: string)
    ensures Bracketed(r, |NotFoundHead|, cause.partial)
  {
    match cause
    case ResolutionFailed(partial) =>
      var rest := "] return exception : Partial with alias [" + partial + "] unavailable.";
      BracketedAfter(NotFoundHead, partial, rest);
      NotFoundHead + "[" + partial + rest
    case ControllerFailed(controller, partial) =>
      BracketedAfter(NotFoundHead, partial, "] Controller [" + controller + "] call return exception.");
      ControllerFailedText(partial, controller)
    case Unreachable(partial) =>
      BracketedAfter(NotFoundHead, partial, "] unreachable.");
      NotFoundHead + "[" + partial + "] unreachable."
  }

  /** The text between the '[' at `at` and the following `|name|` characters is `name`, closed by ']'. */
  predicate Bracketed(s: string, at: nat, name: string) {
    at + |name| + 2 <= |s| && s[at] == '[' && s[at + 1..at + 1 + |name|] == name && s[at + 1 + |name|] == ']'
  }

  lemma BracketedAfter(head: string, name: string, rest: string)
    requires |rest| >= 1 && rest[0] == ']'
    ensures Bracketed(head + "[" + name + rest, |head|, name)
  {
    var s := head + "[" + name + rest;
    assert s[|head|] == '[';
    assert s[|head| + 1..|head| + 1 + |name|] == name;
    assert s[|head| + 1 + |name|] == rest[0];
  }

  /** As written, asking for the missing "post" route of "tag" reports "tag" as the HTTP method. */
  lemma WebRouteMessageAsWrittenSwapsArguments()
    ensures Bracketed(WebRouteMissingMessageAsWritten("tag", "post"), |WebRouteHead|, "tag")
    ensures !Bracketed(WebRouteMissingMessageAsWritten("tag", "post"), |WebRouteHead|, "post")
  {
    var m := WebRouteMissingMessageAsWritten("tag", "post");
    BracketedAfter(WebRouteHead, "tag", "] the [" + "post" + "] partial driver is not available.");
    assert m[|WebRouteHead| + 1] == 't';
  }

  /** As written, a failing "show" handler of the "tag" driver is reported as driver "show". */
  lemma ControllerFailureAsWrittenSwapsArguments()
    ensures Bracketed(ControllerFailedMessageAsWritten("show", "tag"), |NotFoundHead|, "show")
    ensures !Bracketed(ControllerFailedMessageAsWritten("show", "tag"), |NotFoundHead|, "tag")
  {
    var m := ControllerFailedMessageAsWritten("show", "tag");
    BracketedAfter(NotFoundHead, "show", "] Controller [" + "tag" + "] call return exception.");
    assert m[|NotFoundHead| + 1 + 3] == 'w';
  }

  // ---------------------------------------------------------------------------
  // Lemmas about ids and parameters
  // ---------------------------------------------------------------------------

  /** Instances created at different indices get different default ids. */
  lemma DefaultIdsDistinct(alias: string, i: nat, j: nat)
    requires i != j
    ensures DefaultId(alias, i) != DefaultId(alias, j)
  {
    assert DefaultId(alias, i)[|alias|..] == Decimal(i);
    assert DefaultId(alias, j)[|alias|..] == Decimal(j);
  }

  /** The default ids of the first `n` instances. */
  ghost function DefaultIds(alias: string, n: nat): set<string> {
    set k | 0 <= k < n :: DefaultId(alias, k)
  }

  lemma DefaultIdsStep(alias: string, n: nat)
    ensures DefaultIds(alias, n + 1) == DefaultIds(alias, n) + {DefaultId(alias, n)}
    ensures DefaultId(alias, n) !in DefaultIds(alias, n)
  {
    if DefaultId(alias, n) in DefaultIds(alias, n) {
      var k :| 0 <= k < n && DefaultId(alias, k) == DefaultId(alias, n);
      DefaultIdsDistinct(alias, k, n);
    }
  }

  lemma {:induction false} DefaultIdsCount(alias: string, n: nat)
    ensures |DefaultIds(alias, n)| == n
  {
    if n > 0 {
      DefaultIdsCount(alias, n - 1);
      DefaultIdsStep(alias, n - 1);
    }
  }

  /**
    While an alias only ever received default ids, the next `get` without an id finds
    `n` cached instances, uses index `n` and the id `alias ++ n`, which is new, and
    leaves the cache holding exactly the ids of indices 0 to n.
  */
  lemma DefaultIdsStayDense<D>(alias: string, slot: map<string, D>, n: nat, d: D)
    requires slot.Keys == DefaultIds(alias, n)
    ensures |slot| == n
    ensures DefaultId(alias, n) !in slot
    ensures slot[DefaultId(alias, n) := d].Keys == DefaultIds(alias, n + 1)
    ensures |slot[DefaultId(alias, n) := d]| == n + 1
  {
    DefaultIdsCount(alias, n);
    DefaultIdsCount(alias, n + 1);
    DefaultIdsStep(alias, n);
    assert |slot| == |slot.Keys|;
    var s := slot[DefaultId(alias, n) := d];
    assert s.Keys == DefaultIds(alias, n + 1);
    assert |s| == |s.Keys|;
  }

  /**
    The index is a count, not a counter: when the next default id is already taken (by
    an explicit id), caching under it replaces that entry and the slot does not grow, so
    the following default id is the same again.
  */
  lemma DefaultIdCollision<D>(alias: string, slot: map<string, D>, d: D)
    requires DefaultId(alias, |slot|) in slot
    ensures var s := slot[DefaultId(alias, |slot|) := d];
      && s.Keys == slot.Keys && |s| == |slot| && s[DefaultId(alias, |slot|)] == d
      && DefaultId(alias, |s|) == DefaultId(alias, |slot|)
  {
    var s := slot[DefaultId(alias, |slot|) := d];
    assert s.Keys == slot.Keys;
    assert |s| == |s.Keys| == |slot.Keys| == |slot|;
  }

  /** An explicit id "tag1" taken first is the default id of the second "tag" instance. */
  lemma ExplicitIdCollidesWithDefault<D>(d: D)
    ensures DefaultId("tag", |map["tag1" := d]|) == "tag1"
  {
    assert Decimal(1) == "1";
  }

  /** Merging keeps class templates in the supported form. */
  lemma MergeClassTemplateOk(a: Params, b: Params)
    requires ClassTemplateOk(a) && ClassTemplateOk(b)
    ensures ClassTemplateOk(Merge(a, b))
  {
    var m := Merge(a, b);
    if "attrs" in b {
      assert m["attrs"] == b["attrs"];
    } else if "attrs" in a {
      assert m["attrs"] == a["attrs"];
    }
  }

  /** The parameters `get` merges are ones `boot` can parse. */
  lemma MergedClassTemplateOk(kind: DriverKind, slot: Params, config: Params, caller: Params)
    requires KindOk(kind) && ClassTemplateOk(config) && ClassTemplateOk(caller)
    ensures ClassTemplateOk(ResolvedParams(DefaultParams(kind, slot), config, caller))
  {
    DefaultParamsClassTemplateOk(kind, slot);
    MergeClassTemplateOk(DefaultParams(kind, slot), config);
    MergeClassTemplateOk(Merge(DefaultParams(kind, slot), config), caller);
  }

  lemma DefaultParamsClassTemplateOk(kind: DriverKind, slot: Params)
    requires KindOk(kind)
    ensures ClassTemplateOk(DefaultParams(kind, slot))
  {
    var d := DefaultParams(kind, slot);
    if "attrs" !in KindExtras(kind) {
      assert d["attrs"] == Arr(map[]);
    } else {
      assert d["attrs"] == KindExtras(kind)["attrs"];
    }
  }

  // ---------------------------------------------------------------------------
  // The manager object
  // ---------------------------------------------------------------------------

  class Manager {
    var definitions: map<string, Definition>
    var drivers: map<string, map<string, Driver>>
    var routes: map<string, Route>
    var booted: bool
    var hasRouter: bool
    var callbacks: seq<nat>   // the registration callbacks invoked, in order

    const config: Config
    const container: map<string, Option<Driver>>      // `containerHas` / `containerGet`; None: not a driver
    const classes: map<string, Option<DriverKind>>    // `class_exists` / `new`; None: not a driver
    const registry: DefaultsRegistry
    const studly: string -> string
    const tagViewDirectory: string                    // `resources('/views/tag')`

    /** The oracle tables and configuration are ones this model can resolve drivers from. */
    predicate Collaborators() {
      && TagClassName in classes && classes[TagClassName] == Some(TagKind)
      && (forall a | a in config.driverParams :: ClassTemplateOk(config.driverParams[a]))
      && (forall n | n in classes && classes[n].Some? :: KindOk(classes[n].value))
      && (forall n | n in container && container[n].Some? :: KindOk(container[n].value.kind))
    }

    predicate Valid()
      reads this
    {
      && Collaborators()
      && (forall a | a in definitions && definitions[a].Instance? :: KindOk(definitions[a].proto.kind))
    }

    /** The constructor stores its collaborators and boots. */
    constructor (config: Config, container: map<string, Option<Driver>>, classes: map<string, Option<DriverKind>>,
                 registry: DefaultsRegistry, studly: string -> string, tagViewDirectory: string, hasRouter: bool)
      requires TagClassName in classes && classes[TagClassName] == Some(TagKind)
      requires forall a | a in config.driverParams :: ClassTemplateOk(config.driverParams[a])
      requires forall n | n in classes && classes[n].Some? :: KindOk(classes[n].value)
      requires forall n | n in container && container[n].Some? :: KindOk(container[n].value.kind)
      ensures Valid() && booted && drivers == map[] && callbacks == []
      ensures definitions == map["tag" := ClassName(TagClassName)]
      ensures routes == if hasRouter then RouteTable() else map[]
      ensures this.hasRouter == hasRouter && this.registry == registry && this.studly == studly
      ensures this.config == config && this.container == container && this.classes == classes
    {
      this.config, this.container, this.classes := config, container, classes;
      this.registry, this.studly, this.tagViewDirectory := registry, studly, tagViewDirectory;
      this.hasRouter := hasRouter;
      definitions, drivers, routes, booted, callbacks := map[], map[], map[], false, [];
      new;
      Boot();
    }

    /** The instances cached for `alias` (`$this->drivers[$alias] ?? []`). */
    function Slot(alias: string): map<string, Driver>
      reads this
    {
      if alias in drivers then drivers[alias] else map[]
    }

    /** `get` returns a cached instance without doing anything else. */
    predicate Cached(alias: string, idOrParams: IdArg)
      reads this
    {
      idOrParams.Id? && alias in drivers && idOrParams.id in drivers[alias]
    }

    function PlanOf(alias: string): Plan
      reads this
    {
      PlanFor(definitions, alias, container, classes)
    }

    /** The `driver.<alias>` configuration layer. */
    function DriverConfig(alias: string): Params {
      if alias in config.driverParams then config.driverParams[alias] else map[]
    }

    /** `all()`: the cache, by alias then id. */
    function All(): (r: map<string, map<string, Driver>>)
      reads this
      ensures forall a | a in r :: r[a] == Slot(a)
      ensures forall a | a !in r :: Slot(a) == map[]
    {
      drivers
    }

    method SetRouter()
      modifies this`hasRouter
      ensures hasRouter
    {
      hasRouter := true;
    }

    /**
      `boot`: on the first call, registers the seven route channels when a router is
      attached and the default drivers; later calls change nothing.
    */
    method Boot()
      requires Valid()
      modifies this`routes, this`booted, this`definitions, this`callbacks
      ensures Valid() && booted
      ensures old(booted) ==> routes == old(routes) && definitions == old(definitions) && callbacks == old(callbacks)
      ensures !old(booted) ==> routes == (if hasRouter then old(routes) + RouteTable() else old(routes))
      ensures !old(booted) ==> definitions == old(definitions)["tag" := ClassName(TagClassName)]
      ensures callbacks == old(callbacks)
    {
      if !booted {
        if hasRouter {
          routes := routes + RouteTable();
        }
        RegisterDefaultDrivers();
        booted := true;
      }
    }

    /** `register`: stores the definition (the tag driver class for null) and invokes the callback once. */
    method Register(alias: string, def: Option<Definition>, callback: Option<nat>)
      requires Valid()
      requires def.Some? && def.value.Instance? ==> KindOk(def.value.proto.kind)
      modifies this`definitions, this`callbacks
      ensures Valid()
      ensures definitions == old(definitions)[alias := def.GetOr(ClassName(TagClassName))]
      ensures callbacks == old(callbacks) + (if callback.Some? then [callback.value] else [])
    {
      definitions := definitions[alias := def.GetOr(ClassName(TagClassName))];
      if callback.Some? {
        callbacks := callbacks + [callback.value];
      }
    }

    /** `registerDefaultDrivers` */
    method RegisterDefaultDrivers()
      requires Valid()
      modifies this`definitions, this`callbacks
      ensures Valid()
      ensures definitions == old(definitions)["tag" := ClassName(TagClassName)]
      ensures callbacks == old(callbacks)
    {
      for i := 0 to |DefaultDrivers|
        invariant Valid()
        invariant definitions == Registered(old(definitions), DefaultDrivers[..i])
        invariant callbacks == old(callbacks)
      {
        assert DefaultDrivers[..i + 1][..i] == DefaultDrivers[..i];
        Register(DefaultDrivers[i].0, Some(ClassName(DefaultDrivers[i].1)), None);
      }
      assert DefaultDrivers[..1] == DefaultDrivers;
    }

    /** `resolveDriverFromDefinition`: carries out the plan and attaches the manager. */
    method ResolveDriverFromDefinition(alias: string) returns (r: Resolution)
      requires Valid()
      ensures old(PlanOf(alias)).Unavailable? <==> r == DefinitionUnavailable
      ensures old(PlanOf(alias)).Unresolved? <==> r == NotResolved
      ensures r.Resolved? ==> fresh(r.driver) && r.driver.attached && KindOk(r.driver.kind)
      ensures r.Resolved? ==>
        && r.driver.kind == PlanKind(old(PlanOf(alias))) && r.driver.alias == old(SeedAlias(PlanOf(alias)))
        && r.driver.booted == old(SeedBooted(PlanOf(alias)))
      ensures old(PlanOf(alias)).CloneOf? ==>
        var src := old(PlanOf(alias)).source;
        && r.driver.id == old(src.id) && r.driver.index == old(src.index) && r.driver.params == old(src.params)
        && r.driver.view == old(src.view)
      ensures old(PlanOf(alias)).Construct? ==>
        r.driver.id == "" && r.driver.index == 0 && r.driver.params == map[] && r.driver.view.None?
    {
      var plan := PlanOf(alias);
      if plan.Unavailable? {
        r := DefinitionUnavailable;
      } else if plan.Unresolved? {
        r := NotResolved;
      } else if plan.CloneOf? {
        var d := new Driver.CloneOf(plan.source);
        d.SetPartialManager();
        r := Resolved(d);
      } else {
        var d := new Driver(plan.kind, plan.kind.CustomKind? || plan.kind.TagKind?);
        d.SetPartialManager();
        r := Resolved(d);
      }
    }

    /**
      `get`: a cache hit on an explicit id returns the cached instance; otherwise the
      definition is resolved, the instance gets index `count(drivers[alias])`, the id
      `alias ++ index` unless one was given, the merged parameters, is booted and cached.
    */
    method Get(alias: string, idOrParams: IdArg, params: Params) returns (r: GetResult)
      requires Valid()
      requires !Cached(alias, idOrParams) ==> ClassTemplateOk(CallerParams(idOrParams, params))
      modifies this`drivers
      ensures old(Cached(alias, idOrParams)) ==>
        r == Found(old(drivers[alias][idOrParams.id])) && drivers == old(drivers)
      ensures !old(Cached(alias, idOrParams)) ==> Made(r, alias, IdOf(idOrParams), CallerParams(idOrParams, params))
      ensures Valid()
    {
      if Cached(alias, idOrParams) {
        return Found(drivers[alias][idOrParams.id]);
      }
      r := Make(alias, IdOf(idOrParams), CallerParams(idOrParams, params));
    }

    /**
      What `get` does past the cache: an unavailable definition raises, one that resolves
      to nothing gives null, and otherwise the new driver is configured, booted and cached.
    */
    twostate predicate Made(new r: GetResult, alias: string, id: Option<string>, caller: Params)
      requires Collaborators()
      reads this, registry, if r.Found? then {r.driver} else {}
    {
      var plan := old(PlanOf(alias));
      && (plan.Unavailable? ==> r == UnavailableAlias && drivers == old(drivers))
      && (plan.Unresolved? ==> r == NoDriver && drivers == old(drivers))
      && ((plan.CloneOf? || plan.Construct?) ==>
        && r.Found? && fresh(r.driver) && r.driver.attached && r.driver.booted
        && r.driver.kind == PlanKind(plan) && KindOk(r.driver.kind) && ClassTemplateOk(caller)
        && r.driver.alias == (if FalsyString(old(SeedAlias(PlanOf(alias)))) then alias else old(SeedAlias(PlanOf(alias))))
        && r.driver.index == old(|Slot(alias)|) && r.driver.id == old(NextId(alias, id))
        && (old(SeedBooted(PlanOf(alias))) ==> r.driver.params == MergedParams(r.driver.kind, registry.Slot(), alias, caller))
        && (!old(SeedBooted(PlanOf(alias))) ==>
              r.driver.params == ParsedParams(MergedParams(r.driver.kind, registry.Slot(), alias, caller), studly(r.driver.alias), r.driver.index))
        && drivers == old(drivers)[alias := old(Slot(alias))[old(NextId(alias, id)) := r.driver]])
    }

    method Make(alias: string, id: Option<string>, caller: Params) returns (r: GetResult)
      requires Valid() && ClassTemplateOk(caller)
      modifies this`drivers
      ensures Made(r, alias, id, caller)
      ensures Valid()
    {
      var resolved := ResolveDriverFromDefinition(alias);
      if resolved == DefinitionUnavailable {
        return UnavailableAlias;
      }
      if resolved == NotResolved {
        return NoDriver;
      }
      Install(alias, id, caller, resolved.driver);
      r := Found(resolved.driver);
    }

    /** The parameters `get` gives a driver of `kind` for `alias`: defaults (over the `setDefaults` slot), configuration, caller. */
    function MergedParams(kind: DriverKind, slot: Params, alias: string, caller: Params): (r: Params)
      requires Collaborators() && KindOk(kind) && ClassTemplateOk(caller)
      ensures ClassTemplateOk(r)
    {
      MergedClassTemplateOk(kind, slot, DriverConfig(alias), caller);
      ResolvedParams(DefaultParams(kind, slot), DriverConfig(alias), caller)
    }

    /** The id `get` caches a new instance under. */
    function NextId(alias: string, id: Option<string>): string
      reads this
    {
      if id.Some? then id.value else DefaultId(alias, |Slot(alias)|)
    }

    /**
      The second half of `get`: merge defaults, configuration and caller parameters
      for the resolved driver, then configure, boot and cache it.
    */
    method Install(alias: string, id: Option<string>, caller: Params, d: Driver)
      requires Valid() && KindOk(d.kind) && ClassTemplateOk(caller)
      modifies this`drivers, d`alias, d`index, d`id, d`params, d`booted
      ensures d.alias == (if FalsyString(old(d.alias)) then alias else old(d.alias))
      ensures d.index == old(|Slot(alias)|) && d.id == old(NextId(alias, id)) && d.booted
      ensures old(d.booted) ==> d.params == MergedParams(d.kind, registry.Slot(), alias, caller)
      ensures !old(d.booted) ==> d.params == ParsedParams(MergedParams(d.kind, registry.Slot(), alias, caller), studly(d.alias), d.index)
      ensures drivers == old(drivers)[alias := old(Slot(alias))[old(NextId(alias, id)) := d]]
      ensures Valid()
    {
      var merged := MergedParams(d.kind, registry.Slot(), alias, caller);
      Store(alias, id, merged, d);
    }

    /**
      The second half of `get`: set alias (when falsy), index, id and the merged
      parameters on the resolved driver, boot it and cache it under the alias and id.
    */
    method Store(alias: string, id: Option<string>, merged: Params, d: Driver)
      requires Valid() && ClassTemplateOk(merged)
      modifies this`drivers, d`alias, d`index, d`id, d`params, d`booted
      ensures d.alias == (if FalsyString(old(d.alias)) then alias else old(d.alias))
      ensures d.index == old(|Slot(alias)|) && d.id == old(NextId(alias, id)) && d.booted
      ensures old(d.booted) ==> d.params == merged
      ensures !old(d.booted) ==> d.params == ParsedParams(merged, studly(d.alias), d.index)
      ensures drivers == old(drivers)[alias := old(Slot(alias))[old(NextId(alias, id)) := d]]
      ensures Valid()
    {
      var slot := Slot(alias);
      var index := |slot|;
      var newId := if id.Some? then id.value else alias + Decimal(index);
      if FalsyString(d.alias) {
        d.SetAlias(alias);
      }
      d.SetIndex(index);
      d.SetId(newId);
      d.SetParams(merged);
      d.Boot(studly);
      drivers := drivers[alias := slot[newId := d]];
      assert slot == old(Slot(alias)) && newId == old(NextId(alias, id));
    }

    /**
      `getRouteUrl`: without a router there is no URL; otherwise the channel
      `httpMethod ?? 'api'` must have been registered, and the router is asked for a
      URL with `params` plus `partial` and `controller` (default `responseController`).
    */
    function GetRouteUrl(partial: string, controller: Option<string>, params: Params, httpMethod: Option<string>): (r: UrlResult)
      reads this
      ensures r == NoRouter <==> !hasRouter
      ensures hasRouter ==> ((r.ApiRouteMissing? || r.WebRouteMissing?) <==> httpMethod.GetOr("api") !in routes)
      ensures r.ApiRouteMissing? ==> r == ApiRouteMissing(partial) && httpMethod.GetOr("api") == "api"
      ensures r.WebRouteMissing? ==> httpMethod.Some? && httpMethod.value != "api" && r == WebRouteMissing(partial, httpMethod.value)
      ensures r.Url? ==>
        && r.route == routes[httpMethod.GetOr("api")]
        && r.args.Keys == params.Keys + {"partial", "controller"}
        && r.args["partial"] == Str(partial)
        && r.args["controller"] == Str(controller.GetOr(FallbackController))
        && forall k | k in params && k != "partial" && k != "controller" :: r.args[k] == params[k]
      ensures !r.NotAString?
    {
      if !hasRouter then NoRouter
      else
        var channel := httpMethod.GetOr("api");
        if channel !in routes then
          if httpMethod.None? || httpMethod == Some("api") then ApiRouteMissing(partial)
          else WebRouteMissing(partial, httpMethod.value)
        else
          var c := controller.GetOr(FallbackController);
          Url(routes[channel], Merge(params, map["partial" := Str(partial), "controller" := Str(c)]))
    }

    /**
      A driver's `getRouteUrl`: the manager's, scoped to the driver's alias. Its `string`
      return type turns the manager's null (no router) into a TypeError.
    */
    function DriverRouteUrl(d: Driver, controller: Option<string>, params: Params, httpMethod: Option<string>): (r: UrlResult)
      reads this, d
      ensures !hasRouter ==> r == NotAString
      ensures hasRouter ==> r == GetRouteUrl(d.alias, controller, params, httpMethod) && !r.NoRouter?
    {
      if !hasRouter then NotAString else GetRouteUrl(d.alias, controller, params, httpMethod)
    }

    /** A `get` that creates an instance, seen from the cache: where the new instance goes. */
    method GetNew(alias: string, idOrParams: IdArg) returns (d: Driver)
      requires Valid() && !Cached(alias, idOrParams) && PlanOf(alias).Construct?
      requires ClassTemplateOk(CallerParams(idOrParams, map[]))
      modifies this`drivers
      ensures Valid() && fresh(d)
      ensures d.index == old(|Slot(alias)|) && d.id == old(NextId(alias, IdOf(idOrParams)))
      ensures drivers == old(drivers)[alias := old(Slot(alias))[old(NextId(alias, IdOf(idOrParams))) := d]]
    {
      var r := Get(alias, idOrParams, map[]);
      d := r.driver;
    }

    /**
      `get("tag", "tag1")` on an empty "tag" slot, then `get("tag")`: the second instance
      gets index 1 and the default id "tag1", and replaces the first one in the cache.
    */
    method ExplicitIdThenDefaultOverwrites() returns (first: Driver, second: Driver)
      requires Valid() && "tag" !in drivers
      requires "tag" in definitions && definitions["tag"] == ClassName(TagClassName) && TagClassName !in container
      modifies this`drivers
      ensures first != second
      ensures first.index == 0 && first.id == "tag1" && second.index == 1 && second.id == "tag1"
      ensures "tag" in drivers && drivers["tag"] == map["tag1" := second]
    {
      assert PlanOf("tag") == Construct(TagKind);
      first := GetNew("tag", Id("tag1"));
      assert Slot("tag") == map["tag1" := first];
      assert Decimal(1) == "1";
      second := GetNew("tag", NoId);
    }

    /**
      `httpRequestDispatcher`: resolves a fresh instance with `get($partial)` and calls
      the named handler, turning each failure into a "not found" error.
    */
    method HttpRequestDispatcher(partial: string, controller: string, args: seq<Value>,
                                 invoke: (nat, seq<Value>) -> HandlerOutcome) returns (r: DispatchResult)
      requires Valid()
      modifies this`drivers
      ensures Valid()
      ensures old(PlanOf(partial)).Unavailable? ==> r == NotFound(ResolutionFailed(partial)) && drivers == old(drivers)
      ensures old(PlanOf(partial)).Unresolved? ==> r == NotFound(Unreachable(partial)) && drivers == old(drivers)
      ensures old(PlanOf(partial)).CloneOf? || old(PlanOf(partial)).Construct? ==>
        var id := DefaultId(partial, |old(Slot(partial))|);
        && partial in drivers && id in drivers[partial]
        && drivers == old(drivers)[partial := old(Slot(partial))[id := drivers[partial][id]]]
        && fresh(drivers[partial][id])
        && r == InvokeController(drivers[partial][id].kind, partial, controller, args, invoke)
    {
      var g := Get(partial, NoId, map[]);
      match g
      case UnavailableAlias =>
        r := NotFound(ResolutionFailed(partial));
      case NoDriver =>
        r := NotFound(Unreachable(partial));
      case Found(driver) =>
        r := InvokeController(driver.kind, partial, controller, args, invoke);
    }
  }
}
