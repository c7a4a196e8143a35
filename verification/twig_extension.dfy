/**
 The template function `randomNodes(...)` (`RandomEntityExtension`): a relay from
 Twig to the random node provider that renders the nodes it gets.

 The extension's one piece of state is the `isSubRendering` flag. The provider, the
 node view builder, the renderer and the clock are parameters; the renderer is
 given the extension state it runs under, so that a template rendered inside it
 sees the flag raised.
 */
module TwigExtension {
  import opened Common
  import opened Php

  /** The Twig function names and the methods they call. */
  const Functions: seq<(string, string)> := [("randomNodes", "getRandomNodes")]

  /** A method is callable when it is one of the values of `Functions`. */
  predicate IsRegistered(name: string) {
    exists i :: 0 <= i < |Functions| && Functions[i].1 == name
  }

  datatype Extension = Extension(isSubRendering: bool)

  datatype Error =
    | BadMethodCall(message: string)
    | ProviderFailed(reason: string)
    | RenderFailed(reason: string)

  /** The render array of `buildEntities`: the entries `random_1 ... random_n`, in
      order, and `#cache.max-age`. */
  datatype RenderMap = RenderMap(items: seq<(string, Value)>, maxAge: Value)

  /** The services the extension calls: the provider (`amount, bundles, options` to
      the loaded nodes), the view builder (`entity, view mode` to a render array), the
      renderer and the clock (`time()` and `strtotime('tomorrow')`). */
  datatype Services = Services(
    provider: (Value, Value, Value) -> Result<seq<Value>, string>,
    view: (Value, Value) -> Value,
    render: (RenderMap, Extension) -> Result<string, string>,
    now: int,
    tomorrow: int)

  /** The markup returned (or the exception thrown) and the extension afterwards. */
  datatype Outcome = Outcome(result: Result<string, Error>, ext: Extension)

  const DefaultAmount := Int(1)
  const DefaultViewMode := Str("full")
  const DefaultCacheTime := Int(30000)

  /** `$arguments[i]`: a missing argument reads as NULL. */
  function Arg(args: seq<Value>, i: nat): Value {
    if i < |args| then args[i] else Null
  }

  /** PHP's short ternary: the value when it is truthy, the default otherwise. */
  function OrElse(v: Value, d: Value): (r: Value)
    ensures !Falsy(v) ==> r == v
    ensures Falsy(v) ==> r == d
  {
    if Falsy(v) then d else v
  }

  /** `$cacheTime == 'today'` under PHP's loose comparison, for a value that is not
      falsy: the string itself, or TRUE (a non-empty string is truthy). */
  predicate IsToday(v: Value) {
    v == Str("today") || v == Bool(true)
  }

  /** The key of the `i`-th rendered node (from zero): `'random_' . ++$i`. */
  function RandomKey(i: nat): string {
    "random_" + NatString(i + 1)
  }

  /** The render entries of the nodes, one per node, in order. */
  function RenderItems(nodes: seq<Value>, viewMode: Value, view: (Value, Value) -> Value, from: nat): (items: seq<(string, Value)>)
    ensures |items| == |nodes|
    ensures forall i :: 0 <= i < |nodes| ==> items[i] == (RandomKey(from + i), view(nodes[i], viewMode))
    decreases |nodes|
  {
    if |nodes| == 0 then []
    else [(RandomKey(from), view(nodes[0], viewMode))] + RenderItems(nodes[1..], viewMode, view, from + 1)
  }

  /** No two rendered nodes share a key, so none overwrites another. */
  lemma RenderKeysDistinct(nodes: seq<Value>, viewMode: Value, view: (Value, Value) -> Value, i: nat, j: nat)
    requires i < j < |nodes|
    ensures RenderItems(nodes, viewMode, view, 0)[i].0 != RenderItems(nodes, viewMode, view, 0)[j].0
  {
    var items := RenderItems(nodes, viewMode, view, 0);
    if items[i].0 == items[j].0 {
      assert NatString(i + 1) == items[i].0[|"random_"|..];
      assert NatString(j + 1) == items[j].0[|"random_"|..];
      NatStringInjective(i + 1, j + 1);
    }
  }

  /** `buildEntities`: nothing to render gives the empty string and leaves the flag
      alone; otherwise the flag is raised for the render and lowered after it, unless
      the render throws, which leaves it raised. */
  function BuildEntities(ext: Extension, nodes: seq<Value>, viewMode: Value, maxAge: Value, sv: Services): (r: Outcome)
    // nothing to render: the empty string, the flag as it was
    ensures |nodes| == 0 ==> r == Outcome(Success(""), ext)
    // otherwise the flag ends raised exactly when the render threw
    ensures |nodes| > 0 ==> (r.ext.isSubRendering <==> r.result.Failure?)
    ensures r.result.Failure? ==> r.result.error.RenderFailed?
    // the markup is what the renderer made of one entry per node, rendered with the flag raised
    ensures |nodes| > 0 && r.result.Success? ==>
      sv.render(RenderMap(RenderItems(nodes, viewMode, sv.view, 0), maxAge), Extension(true)) == Success(r.result.value)
  {
    if |nodes| == 0 then Outcome(Success(""), ext)
    else
      var render := RenderMap(RenderItems(nodes, viewMode, sv.view, 0), maxAge);
      match sv.render(render, Extension(true))
      case Success(markup) => Outcome(Success(markup), Extension(false))
      case Failure(reason) => Outcome(Failure(RenderFailed(reason)), Extension(true))
  }

  /** The cache time handed to `buildEntities`: 30000 by default, the seconds left
      until tomorrow for the `'today'` sentinel, otherwise as given. */
  function CacheTime(arg: Value, sv: Services): Value {
    var t := OrElse(arg, DefaultCacheTime);
    if IsToday(t) then Int(sv.tomorrow - sv.now) else t
  }

  /** `__call`: the allow-list, the re-entrancy guard, the argument defaults, the
      provider and `buildEntities`. */
  function Call(ext: Extension, name: string, args: seq<Value>, sv: Services): (r: Outcome)
    ensures !IsRegistered(name) ==> r.result.Failure? && r.result.error.BadMethodCall? && r.ext == ext
    ensures IsRegistered(name) && ext.isSubRendering ==> r == Outcome(Success(""), ext)
  {
    if !IsRegistered(name) then
      Outcome(Failure(BadMethodCall("The method \"" + name + "\" is not registered.")), ext)
    else if ext.isSubRendering then Outcome(Success(""), ext)
    else
      var amount := OrElse(Arg(args, 0), DefaultAmount);
      var bundles := OrElse(Arg(args, 1), Null);
      var viewMode := OrElse(Arg(args, 2), DefaultViewMode);
      var cacheTime := CacheTime(Arg(args, 3), sv);
      var options := OrElse(Arg(args, 4), Null);
      match sv.provider(amount, bundles, options)
      case Failure(reason) => Outcome(Failure(ProviderFailed(reason)), ext)
      case Success(nodes) => BuildEntities(ext, nodes, viewMode, cacheTime, sv)
  }

  /** A call the allow-list rejects, or one made while sub-rendering, consults none of
      the services: any other services give the same outcome. */
  lemma GuardsIgnoreServices(ext: Extension, name: string, args: seq<Value>, sv: Services, sv': Services)
    requires !IsRegistered(name) || ext.isSubRendering
    ensures Call(ext, name, args, sv) == Call(ext, name, args, sv')
  {
  }

  /** `getRandomNodes` is the only callable method; the Twig name itself is not. */
  lemma OnlyGetRandomNodes(name: string)
    ensures IsRegistered(name) <==> name == "getRandomNodes"
  {
    if name == "getRandomNodes" {
      assert Functions[0].1 == name;
    }
  }

  /** Each argument is defaulted on its own: a falsy or missing one is replaced by its
      default (one node, no bundles, view mode `full`, 30000 seconds, no options), a
      truthy one is passed on as given, and the cache time is resolved by `CacheTime`. */
  lemma ArgumentsDefaultedEach(name: string, args: seq<Value>, sv: Services)
    requires IsRegistered(name)
    ensures var amount := if Falsy(Arg(args, 0)) then Int(1) else Arg(args, 0);
            var bundles := if Falsy(Arg(args, 1)) then Null else Arg(args, 1);
            var viewMode := if Falsy(Arg(args, 2)) then Str("full") else Arg(args, 2);
            var options := if Falsy(Arg(args, 4)) then Null else Arg(args, 4);
            var r := Call(Extension(false), name, args, sv);
            match sv.provider(amount, bundles, options)
            case Failure(reason) => r == Outcome(Failure(ProviderFailed(reason)), Extension(false))
            case Success(nodes) => r == BuildEntities(Extension(false), nodes, viewMode, CacheTime(Arg(args, 3), sv), sv)
  {
  }

  /** The cache time handed to `buildEntities`: a falsy one becomes 30000 seconds, the
      `'today'` sentinel the seconds left until tomorrow, and any other is kept. */
  lemma TodayCacheTime(v: Value, sv: Services)
    ensures Falsy(v) ==> CacheTime(v, sv) == Int(30000)
    ensures !Falsy(v) && IsToday(v) ==> CacheTime(v, sv) == Int(sv.tomorrow - sv.now)
    ensures !Falsy(v) && !IsToday(v) ==> CacheTime(v, sv) == v
  {
  }

  /** While the nodes are rendered, the flag is raised: a `randomNodes()` call in a
      template rendered there returns the empty string and renders nothing. */
  lemma NestedCallIsEmpty(name: string, args: seq<Value>, sv: Services)
    requires IsRegistered(name)
    ensures Call(Extension(true), name, args, sv) == Outcome(Success(""), Extension(true))
  {
  }

  /** After a call that returns normally, the flag is down again: the next call is not
      short-circuited. */
  lemma FlagLoweredAfterSuccess(name: string, args: seq<Value>, sv: Services)
    requires Call(Extension(false), name, args, sv).result.Success?
    ensures Call(Extension(false), name, args, sv).ext == Extension(false)
  {
  }

  /** A render that throws leaves the flag raised: every later call on the same
      extension returns the empty string. */
  lemma FlagStuckAfterRenderFailure(name: string, args: seq<Value>, sv: Services, args': seq<Value>, sv': Services)
    requires var r := Call(Extension(false), name, args, sv);
             r.result.Failure? && r.result.error.RenderFailed?
    ensures var r := Call(Extension(false), name, args, sv);
            r.ext == Extension(true) && Call(r.ext, name, args', sv') == Outcome(Success(""), Extension(true))
  {
  }
}
