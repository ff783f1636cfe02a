/**
  The base partial driver: identity (alias, id, index), the parameter bag, the
  two-phase lifecycle (construct, then an idempotent boot that normalises
  `attrs.id` and `attrs.class`), the before/after hooks, the memoised view and
  the fallback chain that locates its template directories.

  The concrete driver classes are told apart by `kind`: the tag driver, the
  callable driver (whose render is an opaque callback) and any other driver
  class, described by the defaults it adds, its built-in view directory and the
  handler methods it offers to the HTTP dispatcher.
*/
module PartialDriver {
  import opened Support
  import TagDriver

  /** The class name under which `setDefaults` stores its slot (`__CLASS__` of the base driver). */
  const BaseClassName := "Pollen\\Partial\\PartialDriver"

  /** The driver methods exposed to templates, in registration order. */
  const ViewHelpers: seq<string> := ["after", "before", "getAlias", "getId", "getIndex"]

  /** The name of the default HTTP handler of every driver. */
  const FallbackController := "responseController"

  datatype DriverKind =
    | TagKind
    | CallableKind(callback: nat)
    | CustomKind(className: string, extraDefaults: Params, builtinViewDirectory: Option<string>, handlers: map<string, nat>)
      // `handlers`: the handler methods of the class, keyed by lower-cased method name

  /** An HTTP response: status and body (null body when `content` is None). */
  datatype Response = Response(status: int, content: Option<string>)

  /** A handler method: the inherited 404 fallback or a method of the concrete class. */
  datatype HandlerRef = Fallback | Method(handler: nat)

  /** The manager's `view` configuration: global template root and global override root. */
  datatype ViewConfig = ViewConfig(directory: Option<string>, overrideDir: Option<string>)

  /**
    What view resolution reads outside the driver: the manager's view configuration,
    the tag driver's template directory under the manager's resources, and the
    paths that exist on disk (`file_exists`).
  */
  datatype ViewContext = ViewContext(global: ViewConfig, tagViewDirectory: string, fs: set<string>)

  /** A template engine instance: a new one over a directory, or one supplied in the `view` parameter. */
  datatype ViewSource = Plates(directory: string, overrideDir: Option<string>) | Supplied(handle: nat)

  /** A resolved view with the driver helpers registered on it. */
  datatype ViewState = ViewState(source: ViewSource, helpers: seq<string>)

  datatype ViewError = InaccessibleViewDirectory(alias: string)

  /**
    The collaborators a render reaches: the closures stored in parameters, the template
    engine (view, template name, data to output) and the callable driver's callback.
  */
  datatype Oracles = Oracles(
    produce: Producer,
    template: (ViewState, string, Params) -> string,
    callable: (nat, DriverView) -> string)

  // ---------------------------------------------------------------------------
  // Default parameters
  // ---------------------------------------------------------------------------

  /** The base driver's own defaults. */
  function BaseDefaults(): Params {
    map["attrs" := Arr(map[]), "after" := Str(""), "before" := Str(""), "view" := Arr(map[])]
  }

  /** What a concrete driver class adds on top of the base defaults. */
  function KindExtras(kind: DriverKind): Params {
    match kind
    case TagKind => TagDriver.Extras()
    case CallableKind(_) => map[]
    case CustomKind(_, extra, _, _) => extra
  }

  /**
    `defaultParams()`: the `setDefaults` slot, overridden by the base defaults,
    overridden by the concrete class's additions.
  */
  function DefaultParams(kind: DriverKind, slot: Params): (r: Params)
    ensures r.Keys == slot.Keys + BaseDefaults().Keys + KindExtras(kind).Keys
  {
    Merge(Merge(slot, BaseDefaults()), KindExtras(kind))
  }

  /** The layers of `defaultParams()`: the class's additions win, then the base defaults, then the slot. */
  lemma DefaultParamsLayers(kind: DriverKind, slot: Params)
    ensures var r := DefaultParams(kind, slot);
      && r.Keys == slot.Keys + BaseDefaults().Keys + KindExtras(kind).Keys
      && (forall k | k in KindExtras(kind) :: r[k] == KindExtras(kind)[k])
      && (forall k | k in BaseDefaults() && k !in KindExtras(kind) :: r[k] == BaseDefaults()[k])
      && (forall k | k in slot && k !in BaseDefaults() && k !in KindExtras(kind) :: r[k] == slot[k])
  {
  }

  /** The tag driver's defaults extend the base ones, whatever `setDefaults` stored. */
  lemma TagDefaultsExtendBase(slot: Params)
    ensures var d := DefaultParams(TagKind, slot);
      && d["attrs"] == Arr(map[]) && d["after"] == Str("") && d["before"] == Str("") && d["view"] == Arr(map[])
      && d["tag"] == Str("div") && d["content"] == Str("") && d["singleton"] == Null
  {
  }

  /** The process-wide default-override registry of the driver classes (`PartialDriver::$defaults`). */
  class DefaultsRegistry {
    var slots: map<string, Params>

    constructor ()
      ensures slots == map[]
    {
      slots := map[];
    }

    /** `setDefaults`: always writes the base class's slot, whichever driver class calls it. */
    method SetDefaults(defaults: Params)
      modifies this
      ensures slots == old(slots)[BaseClassName := defaults]
      ensures Slot() == defaults
    {
      slots := slots[BaseClassName := defaults];
    }

    /** `self::$defaults[__CLASS__] ?? []` */
    function Slot(): Params
      reads this
    {
      if BaseClassName in slots then slots[BaseClassName] else map[]
    }
  }

  // ---------------------------------------------------------------------------
  // Attribute normalisation run by boot
  // ---------------------------------------------------------------------------

  /** `attrs.class`, when present, is a format string this model gives `sprintf`. */
  predicate ClassTemplateOk(p: Params) {
    Has2(p, "attrs", "class") ==>
      Get2(p, "attrs", "class").Str? && SingleStringDirective(Get2(p, "attrs", "class").s)
  }

  /** `"$base $base--$index"`: never a falsy string. */
  function DefaultClass(base: string, index: int): (r: string)
    ensures |r| >= 4 && !FalsyString(r)
  {
    base + " " + base + "--" + IntString(index)
  }

  /** `parseAttrId`: a falsy `attrs.id` is removed. */
  function ParsedAttrId(p: Params): (r: Params)
    ensures Has2(r, "attrs", "id") <==> !Falsy(Get2(p, "attrs", "id"))
    ensures !Falsy(Get2(p, "attrs", "id")) ==> r == p
    ensures forall k | k != "attrs" :: (k in r <==> k in p) && (k in r ==> r[k] == p[k])
    ensures forall k | k != "id" :: Has2(r, "attrs", k) == Has2(p, "attrs", k) && Get2(r, "attrs", k) == Get2(p, "attrs", k)
  {
    if Falsy(Get2(p, "attrs", "id")) then Forget2(p, "attrs", "id") else p
  }

  /**
    `parseAttrClass`: an absent class becomes the default class; a present one is a
    template into which the default class is formatted; a falsy result is removed.
  */
  function ParsedAttrClass(p: Params, base: string, index: int): (r: Params)
    requires ClassTemplateOk(p)
    ensures !Has2(p, "attrs", "class") ==> Has2(r, "attrs", "class") && Get2(r, "attrs", "class") == Str(DefaultClass(base, index))
    ensures Has2(p, "attrs", "class") ==>
      var c := Sprintf(Get2(p, "attrs", "class").s, DefaultClass(base, index));
      (Has2(r, "attrs", "class") <==> !FalsyString(c)) && (Has2(r, "attrs", "class") ==> Get2(r, "attrs", "class") == Str(c))
    ensures forall k | k != "attrs" :: (k in r <==> k in p) && (k in r ==> r[k] == p[k])
    ensures forall k | k != "class" :: Has2(r, "attrs", k) == Has2(p, "attrs", k) && Get2(r, "attrs", k) == Get2(p, "attrs", k)
  {
    var default := DefaultClass(base, index);
    var c := if Has2(p, "attrs", "class") then Sprintf(Get2(p, "attrs", "class").s, default) else default;
    var q := Set2(p, "attrs", "class", Str(c));
    if Falsy(Get2(q, "attrs", "class")) then Forget2(q, "attrs", "class") else q
  }

  /** `parseParams`: `parseAttrId`, then `parseAttrClass`. */
  function ParsedParams(p: Params, base: string, index: int): (r: Params)
    requires ClassTemplateOk(p)
    ensures Has2(r, "attrs", "id") <==> !Falsy(Get2(p, "attrs", "id"))
    ensures Has2(r, "attrs", "id") ==> Get2(r, "attrs", "id") == Get2(p, "attrs", "id")
    ensures !Has2(p, "attrs", "class") ==> Has2(r, "attrs", "class") && Get2(r, "attrs", "class") == Str(DefaultClass(base, index))
    ensures Has2(p, "attrs", "class") ==>
      var c := Sprintf(Get2(p, "attrs", "class").s, DefaultClass(base, index));
      (Has2(r, "attrs", "class") <==> !FalsyString(c)) && (Has2(r, "attrs", "class") ==> Get2(r, "attrs", "class") == Str(c))
    ensures forall k | k != "attrs" :: (k in r <==> k in p) && (k in r ==> r[k] == p[k])
    ensures forall k | k != "id" && k != "class" :: Has2(r, "attrs", k) == Has2(p, "attrs", k) && Get2(r, "attrs", k) == Get2(p, "attrs", k)
  {
    ParsedAttrClass(ParsedAttrId(p), base, index)
  }

  /** A class template "a%sb" yields "a" + default class + "b". */
  lemma ClassTemplateSubstituted(p: Params, base: string, index: int, a: string, b: string)
    requires Get2(p, "attrs", "class") == Str(a + "%s" + b) && '%' !in a && '%' !in b
    requires ClassTemplateOk(p)
    ensures Get2(ParsedAttrClass(p, base, index), "attrs", "class") == Str(a + DefaultClass(base, index) + b)
  {
    SprintfSubstitutes(a, b, DefaultClass(base, index));
  }

  /** A class without a placeholder is kept as given, unless it is falsy ("" or "0"), which removes it. */
  lemma ClassWithoutPlaceholderKept(p: Params, base: string, index: int, t: string)
    requires Has2(p, "attrs", "class") && Get2(p, "attrs", "class") == Str(t) && '%' !in t
    requires ClassTemplateOk(p)
    ensures Has2(ParsedAttrClass(p, base, index), "attrs", "class") <==> !FalsyString(t)
    ensures !FalsyString(t) ==> Get2(ParsedAttrClass(p, base, index), "attrs", "class") == Str(t)
  {
    SprintfWithoutDirective(t, DefaultClass(base, index));
  }

  // ---------------------------------------------------------------------------
  // View resolution
  // ---------------------------------------------------------------------------

  predicate StrOrNull(v: Value) {
    v.Null? || v.Str?
  }

  /** The `view.*` settings are strings or null, as `file_exists`, `setDirectory` and `view()` demand. */
  predicate ViewParamsOk(p: Params) {
    && StrOrNull(Get2(p, "view", "directory"))
    && StrOrNull(Get2(p, "view", "override_dir"))
    && StrOrNull(Get2(p, "view", "template_name"))
  }

  /** The first candidate that exists, if any. */
  function FirstExisting(cands: seq<string>, fs: set<string>): (r: Option<string>)
    ensures r.Some? ==> r.value in fs && r.value in cands
    ensures r.None? <==> forall c | c in cands :: c !in fs
    ensures forall i | 0 <= i < |cands| && cands[i] in fs && (forall j | 0 <= j < i :: cands[j] !in fs) :: r == Some(cands[i])
  {
    if cands == [] then None
    else if cands[0] in fs then Some(cands[0])
    else
      var r := FirstExisting(cands[1..], fs);
      assert forall i | 1 <= i < |cands| :: cands[i] == cands[1..][i - 1];
      r
  }

  /** A truthy string setting; a falsy one ("" or "0") is used without any existence check. */
  predicate Truthy(v: Value) {
    v.Str? && !FalsyString(v.s)
  }

  /** The explicit setting is used: it exists, or it is a falsy string that is never checked. */
  predicate ExplicitKept(v: Value, fs: set<string>) {
    v.Str? && (FalsyString(v.s) || v.s in fs)
  }

  /**
    `viewDirectory()`: the class's own template directory. The base driver (and so the
    callable driver) has none; the tag driver's is `views/tag` under the manager's resources.
  */
  function BuiltinViewDirectory(kind: DriverKind, ctx: ViewContext): (r: Option<string>)
    ensures kind.TagKind? ==> r == Some(ctx.tagViewDirectory)
    ensures kind.CallableKind? ==> r.None?
    ensures kind.CustomKind? ==> r == kind.builtinViewDirectory
  {
    match kind
    case TagKind => Some(ctx.tagViewDirectory)
    case CallableKind(_) => None
    case CustomKind(_, _, dir, _) => dir
  }

  /** A setting tried first when it is a truthy string. */
  function ExplicitCandidate(explicit: Value): seq<string> {
    if Truthy(explicit) then [explicit.s] else []
  }

  /** The global root joined with the alias, when the root is configured. */
  function GlobalCandidate(root: Option<string>, alias: string): seq<string> {
    if root.Some? then [JoinPath(root.value, alias)] else []
  }

  /** The directories tried for the primary templates, in order. */
  function PrimaryCandidates(explicit: Value, alias: string, kind: DriverKind, ctx: ViewContext): seq<string> {
    ExplicitCandidate(explicit)
    + (GlobalCandidate(ctx.global.directory, alias)
       + (if BuiltinViewDirectory(kind, ctx).Some? then [BuiltinViewDirectory(kind, ctx).value] else []))
  }

  /** The directories tried for the override templates, in order: there is no built-in one. */
  function OverrideCandidates(explicit: Value, alias: string, ctx: ViewContext): seq<string> {
    ExplicitCandidate(explicit) + GlobalCandidate(ctx.global.overrideDir, alias)
  }

  /** Searching a concatenation searches the first part, then the second. */
  lemma {:induction false} FirstExistingAppend(a: seq<string>, b: seq<string>, fs: set<string>)
    ensures FirstExisting(a + b, fs) == if FirstExisting(a, fs).Some? then FirstExisting(a, fs) else FirstExisting(b, fs)
  {
    if a == [] {
      assert a + b == b;
    } else {
      assert (a + b)[1..] == a[1..] + b;
      FirstExistingAppend(a[1..], b, fs);
    }
  }

  /**
    The primary template directory: an existing `view.directory`, else the existing
    global root joined with the alias, else the existing built-in directory.
  */
  function PrimaryDirectory(p: Params, alias: string, kind: DriverKind, ctx: ViewContext): (r: Option<string>)
    requires ViewParamsOk(p)
    ensures var e := Get2(p, "view", "directory");
      var g := if ctx.global.directory.Some? then Some(JoinPath(ctx.global.directory.value, alias)) else None;
      var b := BuiltinViewDirectory(kind, ctx);
      && (ExplicitKept(e, ctx.fs) ==> r == Some(e.s))
      && (!ExplicitKept(e, ctx.fs) ==>
           && (g.Some? && g.value in ctx.fs ==> r == g)
           && ((g.None? || g.value !in ctx.fs) && b.Some? && b.value in ctx.fs ==> r == b)
           && ((g.None? || g.value !in ctx.fs) && (b.None? || b.value !in ctx.fs) ==> r == None))
  {
    var e := Get2(p, "view", "directory");
    var glob := GlobalCandidate(ctx.global.directory, alias);
    var built := if BuiltinViewDirectory(kind, ctx).Some? then [BuiltinViewDirectory(kind, ctx).value] else [];
    FirstExistingAppend(ExplicitCandidate(e), glob + built, ctx.fs);
    FirstExistingAppend(glob, built, ctx.fs);
    if e.Str? && FalsyString(e.s) then Some(e.s) else FirstExisting(PrimaryCandidates(e, alias, kind, ctx), ctx.fs)
  }

  /**
    The override directory: an existing `view.override_dir`, else the existing global
    override root joined with the alias, else none.
  */
  function OverrideDirectory(p: Params, alias: string, ctx: ViewContext): (r: Option<string>)
    requires ViewParamsOk(p)
    ensures var e := Get2(p, "view", "override_dir");
      var g := if ctx.global.overrideDir.Some? then Some(JoinPath(ctx.global.overrideDir.value, alias)) else None;
      && (ExplicitKept(e, ctx.fs) ==> r == Some(e.s))
      && (!ExplicitKept(e, ctx.fs) ==>
           && (g.Some? && g.value in ctx.fs ==> r == g)
           && (g.None? || g.value !in ctx.fs ==> r == None))
  {
    var e := Get2(p, "view", "override_dir");
    FirstExistingAppend(ExplicitCandidate(e), GlobalCandidate(ctx.global.overrideDir, alias), ctx.fs);
    if e.Str? && FalsyString(e.s) then Some(e.s) else FirstExisting(OverrideCandidates(e, alias, ctx), ctx.fs)
  }

  /** The first two steps for either directory: the explicit setting if kept, else the existing global root joined with the alias. */
  function ExplicitOrGlobal(e: Value, root: Option<string>, alias: string, fs: set<string>): Option<string> {
    if ExplicitKept(e, fs) then Some(e.s)
    else if root.Some? && JoinPath(root.value, alias) in fs then Some(JoinPath(root.value, alias))
    else None
  }

  /** Both directories begin with the same two steps; only the primary one has a built-in last resort. */
  lemma DirectoriesByStep(p: Params, alias: string, kind: DriverKind, ctx: ViewContext)
    requires ViewParamsOk(p)
    ensures OverrideDirectory(p, alias, ctx) == ExplicitOrGlobal(Get2(p, "view", "override_dir"), ctx.global.overrideDir, alias, ctx.fs)
    ensures var first := ExplicitOrGlobal(Get2(p, "view", "directory"), ctx.global.directory, alias, ctx.fs);
      var b := BuiltinViewDirectory(kind, ctx);
      PrimaryDirectory(p, alias, kind, ctx) == if first.Some? then first else if b.Some? && b.value in ctx.fs then b else None
  {
  }

  /** The view a driver resolves: a supplied view object as is, else an engine over the resolved directories. */
  function ResolveView(p: Params, alias: string, kind: DriverKind, ctx: ViewContext): (r: Result<ViewState, ViewError>)
    requires ViewParamsOk(p)
    ensures Get(p, "view").ViewObject? ==> r == Ok(ViewState(Supplied(Get(p, "view").handle), ViewHelpers))
    ensures !Get(p, "view").ViewObject? ==>
      match PrimaryDirectory(p, alias, kind, ctx)
      case None => r == Err(InaccessibleViewDirectory(alias))
      case Some(d) => r == Ok(ViewState(Plates(d, OverrideDirectory(p, alias, ctx)), ViewHelpers))
  {
    var viewDef := Get(p, "view");
    if viewDef.ViewObject? then Ok(ViewState(Supplied(viewDef.handle), ViewHelpers))
    else
      match PrimaryDirectory(p, alias, kind, ctx)
      case None => Err(InaccessibleViewDirectory(alias))
      case Some(d) => Ok(ViewState(Plates(d, OverrideDirectory(p, alias, ctx)), ViewHelpers))
  }

  /** `view.template_name ?? 'index'` */
  function TemplateName(p: Params): (r: string)
    requires StrOrNull(Get2(p, "view", "template_name"))
    ensures Get2(p, "view", "template_name").Null? ==> r == "index"
    ensures Get2(p, "view", "template_name").Str? ==> r == Get2(p, "view", "template_name").s
  {
    var n := Get2(p, "view", "template_name");
    if n.Str? then n.s else "index"
  }

  // ---------------------------------------------------------------------------
  // Hooks and HTTP handlers
  // ---------------------------------------------------------------------------

  /**
    What `echo` prints for a before/after parameter: a closure's result for this driver,
    any other value converted to a string; None when PHP cannot convert it (a view object).
  */
  function Emit(v: Value, produce: Producer, self: DriverView): (r: Option<string>)
    ensures v.Closure? ==> r == Some(produce(v.fn, self))
    ensures v.Str? ==> r == Some(v.s)
    ensures v.Null? ==> r == Some("")
    ensures r.None? <==> v.ViewObject?
  {
    match v
    case Closure(fn) => Some(produce(fn, self))
    case Null => Some("")
    case Bool(b) => Some(if b then "1" else "")
    case Int(i) => Some(IntString(i))
    case Str(s) => Some(s)
    case Arr(_) => Some("Array")
    case ViewObject(_) => None
  }

  /** `responseController`: the inherited handler answers 404 with no body. */
  function ResponseController(args: seq<Value>): (r: Response)
    ensures r.status == 404 && r.content.None?
  {
    Response(404, None)
  }

  /**
    The handler the dispatcher reaches for a controller name; None for a method the
    driver lacks. PHP looks methods up without regard to case.
  */
  function HandlerOf(kind: DriverKind, name: string): (r: Option<HandlerRef>)
    ensures LowerAscii(name) == LowerAscii(FallbackController) ==> r.Some?
    ensures kind.CustomKind? && LowerAscii(name) in kind.handlers ==> r == Some(Method(kind.handlers[LowerAscii(name)]))
    ensures r.Some? ==> LowerAscii(name) == LowerAscii(FallbackController) || (kind.CustomKind? && LowerAscii(name) in kind.handlers)
    ensures r == Some(Fallback) ==> LowerAscii(name) == LowerAscii(FallbackController)
  {
    var key := LowerAscii(name);
    if kind.CustomKind? && key in kind.handlers then Some(Method(kind.handlers[key]))
    else if key == LowerAscii(FallbackController) then Some(Fallback)
    else None
  }

  /** The fallback handler is reached whatever the case of its name. */
  lemma FallbackNameIgnoresCase(kind: DriverKind)
    requires !kind.CustomKind?
    ensures HandlerOf(kind, "ResponseController") == Some(Fallback)
    ensures HandlerOf(kind, "RESPONSECONTROLLER") == Some(Fallback)
    ensures HandlerOf(kind, "response_controller").None?
  {
    assert LowerAscii("ResponseController") == LowerAscii(FallbackController);
    assert LowerAscii("RESPONSECONTROLLER") == LowerAscii(FallbackController);
    assert LowerAscii("response_controller")[8] != LowerAscii(FallbackController)[8];
  }

  // ---------------------------------------------------------------------------
  // The driver object
  // ---------------------------------------------------------------------------

  class Driver {
    const kind: DriverKind
    var alias: string
    var id: string
    var index: int
    var params: Params
    var booted: bool
    var view: Option<ViewState>
    var attached: bool   // a partial manager has been set

    constructor (kind: DriverKind, attached: bool)
      ensures this.kind == kind && this.attached == attached
      ensures alias == "" && id == "" && index == 0 && params == map[] && !booted && view.None?
    {
      this.kind := kind;
      this.attached := attached;
      alias, id, index, params, booted, view := "", "", 0, map[], false, None;
    }

    /** `clone $src`: a shallow copy of every field. */
    constructor CloneOf(src: Driver)
      ensures kind == src.kind && alias == src.alias && id == src.id && index == src.index
      ensures params == src.params && booted == src.booted && view == src.view && attached == src.attached
    {
      kind := src.kind;
      alias, id, index, params := src.alias, src.id, src.index, src.params;
      booted, view, attached := src.booted, src.view, src.attached;
    }

    /** What a producer applied to this driver sees. */
    function Snapshot(): DriverView
      reads this
    {
      DriverView(alias, id, index, params)
    }

    method SetAlias(a: string)
      modifies this`alias
      ensures alias == a
    {
      alias := a;
    }

    method SetId(i: string)
      modifies this`id
      ensures id == i
    {
      id := i;
    }

    method SetIndex(i: int)
      modifies this`index
      ensures index == i
    {
      index := i;
    }

    method SetParams(p: Params)
      modifies this`params
      ensures params == p
    {
      params := p;
    }

    method SetPartialManager()
      modifies this`attached
      ensures attached
    {
      attached := true;
    }

    method ParseAttrId()
      modifies this`params
      ensures params == ParsedAttrId(old(params))
    {
      if Falsy(Get2(params, "attrs", "id")) {
        params := Forget2(params, "attrs", "id");
      }
    }

    method ParseAttrClass(studly: string -> string)
      requires ClassTemplateOk(params)
      modifies this`params
      ensures params == ParsedAttrClass(old(params), studly(alias), index)
    {
      var base := studly(alias);   // `getBaseClass`
      var defaultClass := base + " " + base + "--" + IntString(index);
      if !Has2(params, "attrs", "class") {
        params := Set2(params, "attrs", "class", Str(defaultClass));
      } else {
        params := Set2(params, "attrs", "class", Str(Sprintf(Get2(params, "attrs", "class").s, defaultClass)));
      }
      if Falsy(Get2(params, "attrs", "class")) {
        params := Forget2(params, "attrs", "class");
      }
    }

    method ParseParams(studly: string -> string)
      requires ClassTemplateOk(params)
      modifies this`params
      ensures params == ParsedParams(old(params), studly(alias), index)
    {
      ParseAttrId();
      ParseAttrClass(studly);
    }

    /** `boot`: the first call parses the parameters and marks the driver booted; later calls do nothing. */
    method Boot(studly: string -> string)
      requires ClassTemplateOk(params)
      modifies this`params, this`booted
      ensures booted
      ensures old(booted) ==> params == old(params)
      ensures !old(booted) ==> params == ParsedParams(old(params), studly(alias), index)
    {
      if !booted {
        ParseParams(studly);
        booted := true;
      }
    }

    /** `before()`: what the hook prints. */
    function Before(produce: Producer): (r: Option<string>)
      reads this
      ensures Get(params, "before").Closure? ==> r == Some(produce(Get(params, "before").fn, Snapshot()))
      ensures Get(params, "before").Str? ==> r == Some(Get(params, "before").s)
    {
      Emit(Get(params, "before"), produce, Snapshot())
    }

    /** `after()`: what the hook prints. */
    function After(produce: Producer): (r: Option<string>)
      reads this
      ensures Get(params, "after").Closure? ==> r == Some(produce(Get(params, "after").fn, Snapshot()))
      ensures Get(params, "after").Str? ==> r == Some(Get(params, "after").s)
    {
      Emit(Get(params, "after"), produce, Snapshot())
    }

    /** One directory setting resolved step by step: the explicit value unless it is missing, then the global root. */
    method PickDirectory(e: Value, root: Option<string>, fs: set<string>) returns (dir: Option<string>)
      requires StrOrNull(e)
      ensures dir == ExplicitOrGlobal(e, root, alias, fs)
    {
      dir := if e.Str? then Some(e.s) else None;
      if dir.Some? && !FalsyString(dir.value) && dir.value !in fs {
        dir := None;
      }
      if dir.None? && root.Some? {
        var candidate := JoinPath(root.value, alias);
        if candidate in fs {
          dir := Some(candidate);
        }
      }
    }

    /** `viewResolver`: picks the directories step by step, then registers the helpers. */
    method ViewResolver(ctx: ViewContext) returns (r: Result<ViewState, ViewError>)
      requires ViewParamsOk(params)
      ensures r == ResolveView(params, alias, kind, ctx)
      ensures r.Ok? ==> r.value.helpers == ViewHelpers
    {
      var viewDef := Get(params, "view");
      var source: ViewSource;
      if viewDef.ViewObject? {
        source := Supplied(viewDef.handle);
      } else {
        DirectoriesByStep(params, alias, kind, ctx);
        var directory := PickDirectory(Get2(params, "view", "directory"), ctx.global.directory, ctx.fs);
        var overrideDir := PickDirectory(Get2(params, "view", "override_dir"), ctx.global.overrideDir, ctx.fs);
        if directory.None? {
          directory := BuiltinViewDirectory(kind, ctx);
          if directory.None? || directory.value !in ctx.fs {
            return Err(InaccessibleViewDirectory(alias));
          }
        }
        source := Plates(directory.value, overrideDir);
      }
      var helpers: seq<string> := [];
      for i := 0 to |ViewHelpers|
        invariant helpers == ViewHelpers[..i]
      {
        helpers := helpers + [ViewHelpers[i]];
      }
      assert helpers == ViewHelpers;
      r := Ok(ViewState(source, helpers));
    }

    /** `view()` with no arguments: resolves the view once and returns the memoised one afterwards. */
    method View(ctx: ViewContext) returns (r: Result<ViewState, ViewError>)
      requires ViewParamsOk(params)
      modifies this`view
      ensures old(view).Some? ==> view == old(view) && r == Ok(old(view).value)
      ensures old(view).None? ==> r == ResolveView(params, alias, kind, ctx)
      ensures view == (if r.Ok? then Some(r.value) else None)
    {
      if view.None? {
        r := ViewResolver(ctx);
        if r.Ok? {
          view := Some(r.value);
        }
      } else {
        r := Ok(view.value);
      }
    }

    /** `view($name, $data)`: renders one template through the memoised view. */
    method ViewRender(ctx: ViewContext, o: Oracles, name: string, data: Params) returns (r: Result<string, ViewError>)
      requires ViewParamsOk(params)
      modifies this`view
      ensures old(view).Some? ==> view == old(view)
      ensures old(view).None? ==> view == (var v := ResolveView(params, alias, kind, ctx); if v.Ok? then Some(v.value) else None)
      ensures r.Ok? <==> view.Some?
      ensures r.Ok? ==> r.value == o.template(view.value, name, data)
      ensures r.Err? ==> r.error == InaccessibleViewDirectory(alias)
    {
      var v := View(ctx);
      if v.Err? {
        return Err(v.error);
      }
      r := Ok(o.template(v.value, name, data));
    }

    /**
      `render()`: the callable driver applies its callback; the tag driver first
      normalises `singleton` and `content`; then the template named by
      `view.template_name` (default "index") is rendered with every parameter as data.
    */
    method Render(ctx: ViewContext, o: Oracles) returns (r: Result<string, ViewError>)
      requires ViewParamsOk(params)
      modifies this`params, this`view
      ensures kind.CallableKind? ==>
        params == old(params) && view == old(view) && r == Ok(o.callable(kind.callback, old(Snapshot())))
      ensures kind.TagKind? ==> params == TagDriver.NormaliseForRender(old(Snapshot()), o.produce)
      ensures kind.CustomKind? ==> params == old(params)
      ensures !kind.CallableKind? ==>
        && ViewParamsOk(params)
        && (old(view).Some? ==> view == old(view))
        && (old(view).None? ==> view == (var v := ResolveView(params, alias, kind, ctx); if v.Ok? then Some(v.value) else None))
        && (r.Ok? <==> view.Some?)
        && (r.Ok? ==> r.value == o.template(view.value, TemplateName(params), params))
        && (r.Err? ==> r.error == InaccessibleViewDirectory(alias))
    {
      if kind.CallableKind? {
        return Ok(o.callable(kind.callback, Snapshot()));
      }
      if kind.TagKind? {
        params := TagDriver.NormaliseForRender(Snapshot(), o.produce);
        assert Get(params, "view") == Get(old(params), "view");
      }
      r := ViewRender(ctx, o, TemplateName(params), params);
    }
  }
}
