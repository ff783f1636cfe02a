# Partial drivers: registry, lifecycle and tag normalisation

This project models the core of the Pollen "partial" component. A partial is a
small reusable piece of HTML. A driver class renders it. The component has three
parts:

- **The partial manager** (`PartialManager`, in `partial_manager.dfy`) keeps:
  - a registry of driver definitions by alias;
  - a two-level cache of driver instances (alias, then id);
  - the seven HTTP route channels that forward requests to a driver's handler methods.

  `get` resolves a definition, numbers the new instance by the count of the instances
  already cached for its alias, and merges its parameters in three layers. It then
  boots the instance and caches it.
- **The base driver** (`PartialDriver`, in `partial_driver.dfy`) is one `Driver`
  class. The concrete driver classes are told apart by its `kind`:
  - the tag driver;
  - the callable driver;
  - any other driver class, described by the defaults it adds, its built-in view
    directory and its handler methods.

  The class models the driver's identity fields and their setters, the idempotent
  boot that normalises `attrs.id` and `attrs.class`, the before/after hooks, the
  memoised view and the fallback chain that picks the template directories.
- **The tag driver** (`TagDriver`, in `tag_driver.dfy`) adds its own defaults. Before
  each render it normalises `singleton` and `content`.

`support.dfy` (module `Support`) gives the PHP building blocks the three rely on:
- PHP values and truthiness;
- int-to-string conversion;
- `rtrim($s, '/')`;
- top-level `array_merge`;
- the two-segment dotted paths of the parameter bag;
- `sprintf` with one `%s`.

The collaborators the source reaches through proxies are inputs of the model:
- the dependency-injection container and `class_exists` are fixed tables on the manager;
- `Str::studly` is a function given to the manager;
- `file_exists` is membership in a set of existing paths;
- the router is a flag, and the route handles it returns are values;
- the template engine, the closures stored in parameters and the callable driver's
  callback are functions passed to `Render`;
- a handler method's behaviour is a function from handler and arguments to its outcome.

## Model

| member | source | states |
|---|---|---|
| Support.Decimal | src/PartialManager.php:169-170 | the decimal form of an index is a non-empty string of digits that denotes the index, with a leading zero only for 0 |
| Support.DecimalInjective | src/PartialManager.php:169-170 | different indices have different decimal forms |
| Support.RTrimSlash | src/PartialDriver.php:311-312 | the result is a prefix of the input that does not end in '/', and everything cut off is '/' |
| Support.Set2 | src/PartialDriver.php:196-200 | after `set('outer.inner', v)` the path holds `v`; every other top-level key and every other inner key is unchanged |
| Support.Forget2 | src/PartialDriver.php:202-204 | after `forget('outer.inner')` the path is absent; a missing path leaves the bag as it was; everything else is unchanged |
| Support.SprintfWithoutDirective | src/PartialDriver.php:199 | a format without '%' comes out of `sprintf` unchanged |
| Support.SprintfSubstitutes | src/PartialDriver.php:199 | `sprintf(a . '%s' . b, x)` is `a . x . b` |
| TagDriver.Extras | src/Drivers/TagDriver.php:37-54 | the tag driver adds exactly `tag`, `content` and `singleton`, with `div`, the empty string and null |
| TagDriver.ResolveSingleton | src/Drivers/TagDriver.php:62-68 | a null or absent `singleton` becomes true exactly when `tag` is a string in the 12-tag list (strict comparison); a non-null one leaves the parameters unchanged; no other key is touched |
| TagDriver.NormaliseForRender | src/Drivers/TagDriver.php:60-70 | afterwards `singleton` is never null and `content` is never a closure; a closure `content` is replaced by what it produces for the driver, with `singleton` already resolved; any other `content` is kept; every other key is untouched |
| TagDriver.NormaliseIdempotent | src/Drivers/TagDriver.php:62-70 | normalising twice gives the same parameters as normalising once |
| TagDriver.SingletonListIsTheDrivers | src/Drivers/TagDriver.php:17-30 | `param` and `img` are singleton tags; `track`, `wbr` and `div` are not |
| PartialDriver.DefaultParams | src/PartialDriver.php:108-135 | the defaults hold exactly the keys of the `setDefaults` slot, the base defaults and the class's additions |
| PartialDriver.DefaultParamsLayers | src/PartialDriver.php:108-135 | the defaults hold the keys of the `setDefaults` slot, the base defaults and the class's additions; the class's additions win, then the base defaults (`attrs`, `after`, `before`, `view`), then the slot |
| PartialDriver.TagDefaultsExtendBase | src/Drivers/TagDriver.php:35-55 | whatever `setDefaults` stored, the tag driver's defaults hold the base values plus `tag='div'`, `content=''` and `singleton=null` |
| PartialDriver.DefaultsRegistry.SetDefaults | src/PartialDriver.php:241-244 | writes exactly the base class's slot, which then reads back as the given defaults |
| PartialDriver.DefaultClass | src/PartialDriver.php:193-195 | the default class `"$base $base--$index"` is never a falsy string |
| PartialDriver.ParsedAttrId | src/PartialDriver.php:212-218 | `attrs.id` stays exactly when it is truthy; a truthy id leaves the parameters unchanged; nothing else changes |
| PartialDriver.ParsedAttrClass | src/PartialDriver.php:191-207 | an absent class becomes the default class; a present template becomes `sprintf(template, default class)`, kept exactly when that is truthy; no other key changes |
| PartialDriver.ParsedParams | src/PartialDriver.php:183-186 | the id is kept exactly when truthy and keeps its value; an absent class becomes the default class; a present template becomes `sprintf(template, default class)`, kept exactly when that is truthy; only `attrs.id` and `attrs.class` can change |
| PartialDriver.ClassTemplateSubstituted | src/PartialDriver.php:198-200 | a class template `a%sb` becomes `a`, then the default class, then `b` |
| PartialDriver.ClassWithoutPlaceholderKept | src/PartialDriver.php:198-204 | a class without a placeholder is kept as given when truthy, and removed when it is "" or "0" |
| PartialDriver.BuiltinViewDirectory | src/PartialDriver.php:285-288 | the base driver, and so the callable driver, has no built-in directory; the tag driver's is its `views/tag` resources directory; another class has its own |
| PartialDriver.PrimaryDirectory | src/PartialDriver.php:300-332 | the explicit `view.directory` if it exists (or is falsy and so never checked); else the existing global directory joined with the alias; else the existing built-in directory; else none |
| PartialDriver.OverrideDirectory | src/PartialDriver.php:306-323 | the explicit `view.override_dir` if it exists (or is falsy); else the existing global override joined with the alias; else none, with no built-in fallback |
| PartialDriver.DirectoriesByStep | src/PartialDriver.php:300-332 | both directories begin with the same two steps, explicit then global; only the primary one falls back to the built-in directory |
| PartialDriver.ResolveView | src/PartialDriver.php:295-354 | a view object in `view` is used as is; otherwise a missing primary directory is the "accessible view directory" error naming the alias, and a found one gives an engine over it and the override directory; the five helpers are registered either way |
| PartialDriver.TemplateName | src/PartialDriver.php:223-226 | `view.template_name` when set, else "index" |
| PartialDriver.Emit | src/PartialDriver.php:78-89 | a closure prints what it produces for the driver; a string prints itself; null prints nothing |
| PartialDriver.ResponseController | src/PartialDriver.php:360-363 | the fallback handler answers 404 with no body |
| PartialDriver.HandlerOf | src/PartialManager.php:232-233 | method names are compared without regard to case: `responseController` in any case always has a handler; a handler method the driver class defines is found; any other name has none |
| PartialDriver.FallbackNameIgnoresCase | src/PartialManager.php:232-233 | "ResponseController" and "RESPONSECONTROLLER" reach the 404 fallback, and "response_controller" reaches nothing |
| PartialDriver.Driver.constructor | src/PartialDriver.php:60-65 | a new driver has empty alias and id, index 0, no parameters, is not booted, has no view, and is attached when a manager was given |
| PartialDriver.Driver.CloneOf | src/PartialManager.php:293-294 | a clone copies every field of its source |
| PartialDriver.Driver.SetAlias | src/PartialDriver.php:231-236 | sets the alias and nothing else |
| PartialDriver.Driver.SetId | src/PartialDriver.php:249-254 | sets the id and nothing else |
| PartialDriver.Driver.SetIndex | src/PartialDriver.php:259-264 | sets the index and nothing else |
| PartialDriver.Driver.ParseAttrId | src/PartialDriver.php:212-218 | the new parameters are `ParsedAttrId` of the old ones |
| PartialDriver.Driver.ParseAttrClass | src/PartialDriver.php:191-207 | the new parameters are `ParsedAttrClass` of the old ones, with the studly alias and the index |
| PartialDriver.Driver.ParseParams | src/PartialDriver.php:183-186 | runs the id step and then the class step; the result is `ParsedParams` of the old parameters |
| PartialDriver.Driver.Boot | src/PartialDriver.php:94-101 | the driver ends booted; the first boot parses the parameters; a later boot leaves them unchanged |
| PartialDriver.Driver.Before | src/PartialDriver.php:86-89 | prints a closure `before` applied to the driver, or a string `before` as it is |
| PartialDriver.Driver.After | src/PartialDriver.php:78-81 | prints a closure `after` applied to the driver, or a string `after` as it is |
| PartialDriver.Driver.PickDirectory | src/PartialDriver.php:301-323 | the step-by-step reassignment of one directory variable ends at the explicit-then-global choice |
| PartialDriver.Driver.ViewResolver | src/PartialDriver.php:295-354 | the step-by-step resolution and the helper loop give exactly `ResolveView`, with the helpers `after`, `before`, `getAlias`, `getId`, `getIndex` in that order |
| PartialDriver.Driver.View | src/PartialDriver.php:269-277 | a memoised view is returned unchanged without resolving again; otherwise the view is resolved and memoised when resolution succeeds |
| PartialDriver.Driver.ViewRender | src/PartialDriver.php:269-280 | renders the named template with the data through the memoised view, or fails with the resolution error |
| PartialDriver.Driver.Render | src/PartialDriver.php:223-226 | the callable driver returns its callback's output and changes nothing; the tag driver first normalises its parameters; the others render template `TemplateName` with all their parameters through the memoised view |
| PartialManager.PlanFor | src/PartialManager.php:285-303 | no definition, or a falsy one, is unavailable; an instance is cloned; a class name is cloned from the container when it has it, else constructed when the class exists, else nothing; a callable is wrapped in the callable driver; anything else resolves to nothing |
| PartialManager.RouteTable | src/PartialManager.php:110-138 | exactly the channels get, post, put, patch, options, delete and api; the six web channels share the web path, and api is the xhr route on the api path |
| PartialManager.ResolvedParamsLayers | src/PartialManager.php:174 | the merged parameters hold the keys of all three layers; caller parameters win over configuration, which wins over defaults |
| PartialManager.InvokeController | src/PartialManager.php:231-240 | an unknown handler name escapes as an Error; the fallback answers 404; a handler's response is returned; exactly a thrown Exception becomes "not found" naming the controller and the partial |
| PartialManager.DefaultIdsDistinct | src/PartialManager.php:169-170 | two different indices give two different default ids |
| PartialManager.DefaultIdsCount | src/PartialManager.php:169-170 | the default ids of the first n indices are n distinct ids |
| PartialManager.DefaultIdsStayDense | src/PartialManager.php:168-179 | while an alias only received default ids, the next default id is new, and the cache then holds exactly the ids of indices 0 to n |
| PartialManager.DefaultIdCollision | src/PartialManager.php:168-179 | when the next default id is already cached, caching under it replaces that entry: the slot keeps its ids and its size, so the next default id is the same again |
| PartialManager.ExplicitIdCollidesWithDefault | src/PartialManager.php:168-170 | an explicit id "tag1" taken first is the default id the next `get` of "tag" computes |
| PartialManager.MergedClassTemplateOk | src/PartialManager.php:174 | merging defaults, configuration and caller parameters keeps every class template in the form `sprintf` is given |
| PartialManager.ApiRouteMissingMessage | src/PartialManager.php:199-201 | the api-route message brackets the partial |
| PartialManager.WebRouteMissingMessage | src/PartialManager.php:203-207 | the corrected web-route message brackets the requested HTTP method right after "HTTP method" |
| PartialManager.RouteMissingMessage | src/PartialManager.php:197-208 | the message raised for a missing route, as written: its first bracket names the partial on both channels, even where the web message announces the HTTP method |
| PartialManager.WebRouteMessageAsWrittenSwapsArguments | src/PartialManager.php:203-207 | as written, a missing "post" route of "tag" reports "tag" as the HTTP method and not "post" |
| PartialManager.NotFoundMessage | src/PartialManager.php:224-245 | the dispatcher's three "not found" messages, with the controller failure in the corrected order: each brackets the partial right after "PartialDriver" |
| PartialManager.ControllerFailureAsWrittenSwapsArguments | src/PartialManager.php:235-237 | as written, a failing "show" handler of "tag" is reported as driver "show" and not "tag" |
| PartialManager.Manager.constructor | src/PartialManager.php:66-81 | a new manager is booted: tag registered, no cached driver, the seven routes exactly when a router is attached |
| PartialManager.Manager.All | src/PartialManager.php:99-102 | the cache by alias: each alias maps to its cached instances, and an alias not listed has none |
| PartialManager.Manager.Boot | src/PartialManager.php:107-146 | the first boot adds the seven routes only when a router is attached and registers "tag"; a later boot changes nothing |
| PartialManager.Manager.Register | src/PartialManager.php:252-263 | overwrites only the alias's definition, with the tag driver class for null, and invokes the callback once when given |
| PartialManager.Manager.RegisterDefaultDrivers | src/PartialManager.php:270-276 | registering the built-in drivers in order stores the tag driver class under "tag" and invokes no callback |
| PartialManager.Manager.ResolveDriverFromDefinition | src/PartialManager.php:285-312 | the unavailable and unresolved cases are reported exactly when the plan says so; otherwise a fresh driver of the planned class, attached to the manager, copying the prototype's fields when cloned and blank when constructed |
| PartialManager.Manager.Get | src/PartialManager.php:151-180 | a cached explicit id returns that instance and changes nothing, whatever the caller's parameters; otherwise the outcome `Made` describes: an unavailable alias raises and a definition resolving to nothing gives null, both leaving the cache untouched; a created driver is fresh and attached, keeps a truthy alias it carries, gets index `count(drivers[alias])` and id `alias . index` unless one was given, gets the merged parameters, is booted and cached under alias and id, with the other aliases untouched |
| PartialManager.Manager.Make | src/PartialManager.php:164-179 | resolution followed by installation gives the outcome `Made` describes |
| PartialManager.Manager.Install | src/PartialManager.php:168-179 | the resolved driver gets its alias, index, id and merged parameters, is booted, and is cached under the alias and id |
| PartialManager.Manager.Store | src/PartialManager.php:168-179 | sets alias (when falsy), index, id and parameters, boots the driver and stores it in the alias's slot |
| PartialManager.Manager.MergedParams | src/PartialManager.php:174 | the three merged layers carry class templates `boot` can format whenever the driver class and the caller's do |
| PartialManager.Manager.GetRouteUrl | src/PartialManager.php:185-214 | no router gives no URL; the channel `httpMethod ?? 'api'` is missing exactly when it was not registered, reported as the api-route error for a null or "api" method and as the web-route error for the partial and method otherwise; otherwise the route and the parameters, with `partial` and `controller` (default `responseController`) overriding same-named keys |
| PartialManager.Manager.DriverRouteUrl | src/PartialDriver.php:172-178 | without a router the manager's null fails the driver's `string` return type; with one, the driver's route URL is the manager's for the driver's alias |
| PartialManager.Manager.GetNew | src/PartialManager.php:164-179 | a `get` that creates an instance gives it index `count(drivers[alias])` and the next id, and caches it there, leaving the other aliases alone |
| PartialManager.Manager.ExplicitIdThenDefaultOverwrites | src/PartialManager.php:160-179 | `get("tag", "tag1")` on an empty slot, then `get("tag")`: the second instance gets index 1 and id "tag1", and the cache then holds only it under "tag1" |
| PartialManager.Manager.HttpRequestDispatcher | src/PartialManager.php:219-247 | an unavailable alias gives "not found" for resolution and a null driver gives "not found, unreachable", both with the cache unchanged; otherwise a fresh instance is cached under the next default id and the named handler is invoked on it |

## Left out

- The static `getInstance` singleton (src/PartialManager.php:34, 78-94) is ambient global state. The manager is passed explicitly instead.
- `PartialServiceProvider` only wires the container, and the interfaces declare no behaviour. They are not part of this model.
- The Plates template (`resources/views/tag/index.plates.php`) and the template engine are a function argument of `Render`. The markup is not modelled.
- `Str::studly`, `file_exists`, `resources()`, the container, `class_exists`, the router's URL building and the closures are inputs. Their behaviour is not modelled.
- `echo` in `before`/`after` is modelled as the returned string.
- Handler methods called by name (`$driver->{$controller}(...)`) are a table of handler names per driver class. A handler's behaviour is an input function.
- The parameter bag's dotted paths are modelled for two segments only (`attrs.id`, `attrs.class`, `view.directory` and so on). `config("driver.$alias")` is read as one entry per alias, so an alias containing a dot is not followed into nested configuration.
- `array_merge` is modelled for string keys. Numeric keys, which PHP renumbers, are not modelled.
- Boot registers the seven routes as one merge of the route table rather than seven router calls. The route handles are values, and their dispatch to `httpRequestDispatcher` is not modelled.
- The registration callback's effect on the manager is not modelled. Only its invocation is recorded.
- PartialManager.Manager.Get: on a cache miss, requires that the caller's `attrs.class`, when present, is a string whose only '%' is a single "%s". The model gives `sprintf` only that form. The same applies to the configuration layers and to driver classes' defaults (`Manager.Valid`).
- PartialManager.Manager.Register: requires a registered driver instance's class to meet that same class-template condition.
- PartialDriver.Driver.Boot: requires the class template condition above for `sprintf`. Other directives (`%d`, `%%`, several `%s`) and the errors PHP raises for them are not modelled.
- PartialDriver.Driver.ParseAttrClass: requires the class template condition above.
- PartialDriver.Driver.ViewResolver: requires `view.directory`, `view.override_dir` and `view.template_name` to be strings or null. Other values would make PHP raise a type error, which is not modelled.
- PartialDriver.Driver.Render: requires the same view settings as `ViewResolver`.
- PartialDriver.Driver.Before: a value PHP cannot print (a view object) is modelled as no output, not as the error PHP raises.
- PartialDriver.HandlerOf: only `responseController` and the handler methods listed for a driver class are reachable by name. The base driver's other public methods (`render`, `view`, `boot`, the getters and setters) are not modelled as handlers. One of them that throws an Exception (`render` without an accessible view directory) would give the controller-failure "not found" in PHP.
- PartialManager.Manager.HttpRequestDispatcher: a PHP Error raised by a handler, or by calling an undefined method, escapes the dispatcher's `catch (Exception)`. It is modelled as `Escaped`, without its message.
- Operations report their errors as kinds with the values the message is built from. The messages are separate functions, for the route and dispatcher errors only.
- `get` is split into `Make`, `Install` and `Store` in the model. Together they do what the source's single method does, in the same order.
- A definition that PHP resolves to an object that is not a driver (from the container or from a class) is modelled as resolving to nothing, as the source's final type check does. A container entry that is not an object, which `clone` rejects with an Error, is not modelled.

## Findings

| source | as written | input that shows it | evidently intended | confidence | as-written member | corrected member |
|---|---|---|---|---|---|---|
| src/PartialManager.php:203-207 | the web-route message passes the partial and then the HTTP method into "HTTP method [%s] the [%s] partial driver" | `getRouteUrl('tag', null, [], 'post')` without a "post" route reports HTTP method [tag] and partial [post] | HTTP method [post], partial [tag] | not executed | PartialManager.WebRouteMessageAsWrittenSwapsArguments | PartialManager.WebRouteMissingMessage |
| src/PartialManager.php:235-237 | the controller-failure message passes the controller and then the partial into "PartialDriver [%s] Controller [%s]" | a "show" handler of driver "tag" throwing an exception reports PartialDriver [show] Controller [tag] | PartialDriver [tag] Controller [show] | not executed | PartialManager.ControllerFailureAsWrittenSwapsArguments | PartialManager.NotFoundMessage |

The messages as written are `PartialManager.WebRouteMissingMessageAsWritten`, which
`PartialManager.RouteMissingMessage` gives for a missing web route, and
`PartialManager.ControllerFailedMessageAsWritten`. The corrected messages are
`PartialManager.WebRouteMissingMessage` and `PartialManager.NotFoundMessage`. The
latter gives the controller failure with the driver first, not in the order the
source raises it. `Manager.GetRouteUrl` and `Manager.HttpRequestDispatcher` report
these errors as kinds.
