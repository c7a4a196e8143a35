/**
 The two-phase lazy builder of random nodes (`CachedRandomNodeLazyBuilderTrait`).

 `buildRandomNodes` returns a render element that holds its settings under
 `'#' + settingsPropertyName` and names two pre-render callbacks. At render time the
 first (`getRandomNodes`) fills `settings['nodes']` once from the random nodes cache,
 and the second (`buildRandomNodesContent`) turns non-empty nodes into
 `element['nodes']` through the node view builder.

 The element is a value: every operation returns the new element instead of
 changing one in place. The cache and the view builder are parameters (oracles);
 the logger is modelled by the list of messages an operation logs.
 */
module LazyBuilder {
  import opened Common
  import opened Php

  /** The two pre-render callbacks the built element names. */
  datatype Callback = GetRandomNodesCallback | BuildRandomNodesContentCallback

  /** The settings array. A key that is absent is `None`; `nodes` holds whatever the
      cache returned, so it may also be present but NULL. */
  datatype Settings = Settings(
    count: Option<int>,
    cacheKeys: Option<seq<string>>,
    maxAge: Option<int>,
    viewMode: Option<string>,
    nodes: Option<Value>)

  /** The empty array `[]` that `getSettingsProperty` creates. */
  const EmptySettings := Settings(None, None, None, None, None)

  /** The cacheability metadata of a cache object; only recorded, never interpreted. */
  datatype CacheMeta = CacheMeta(tags: seq<string>, maxAge: int)

  /** The render element: its pre-render callbacks, its `#`-properties holding
      settings, its built `nodes` content (absent until built) and the cacheability
      metadata merged into it. */
  datatype Element = Element(
    preRender: seq<Callback>,
    properties: map<string, Settings>,
    content: Option<Value>,
    dependencies: seq<CacheMeta>)

  /** What the cache returns when it could be initialised: the cached data (FALSE when
      it could not be read) and the object's cacheability metadata. */
  datatype CacheObject = CacheObject(data: Value, meta: CacheMeta)

  /** The cache of random nodes: count, cache keys and max age to the cache object,
      or nothing when the cache could not be initialised. */
  type Cache = (int, seq<string>, int) -> Option<CacheObject>

  /** The node view builder: the nodes and the view mode (NULL when unset) to their
      render array. */
  type ViewBuilder = (Value, Option<string>) -> Value

  /** A NULL that reaches a parameter typed `int` or `array`. */
  datatype TypeError = TypeError(parameter: string)

  /** An element and the error messages logged while producing it. */
  datatype Outcome = Outcome(element: Element, log: seq<string>)

  const InitFailed := "Failed to init the random nodes cache."
  const RetrieveFailed := "Failed to retrieve the random nodes from cache."

  /** The key the settings live under. */
  function PropertyKey(name: string): string {
    "#" + name
  }

  /** `isset($settings['nodes'])`: present and not NULL. */
  predicate Isset(v: Option<Value>) {
    v.Some? && !v.value.Null?
  }

  /** `empty($settings['nodes'])`: absent or falsy. */
  predicate Empty(v: Option<Value>) {
    v.None? || Falsy(v.value)
  }

  /** `getSettingsProperty`: with a truthy property name, the element with the settings
      key guaranteed to exist (an empty array is created only when it is absent) and
      those settings; with a falsy name, the element as it was and no settings. */
  function GetSettingsProperty(name: string, e: Element): (r: (Element, Option<Settings>))
    ensures Falsy(Str(name)) ==> r == (e, None)
    ensures !Falsy(Str(name)) ==>
      && PropertyKey(name) in r.0.properties
      && r.1 == Some(r.0.properties[PropertyKey(name)])
      && r.0 == e.(properties := r.0.properties)
      && (forall k :: k in e.properties ==> k in r.0.properties && r.0.properties[k] == e.properties[k])
      && r.0.properties.Keys == e.properties.Keys + {PropertyKey(name)}
      && (PropertyKey(name) !in e.properties ==> r.1 == Some(EmptySettings))
  {
    if Falsy(Str(name)) then (e, None)
    else
      var key := PropertyKey(name);
      var e' := if key in e.properties then e else e.(properties := e.properties[key := EmptySettings]);
      (e', Some(e'.properties[key]))
  }

  /** Asking for the settings a second time changes nothing more. */
  lemma GetSettingsPropertyIdempotent(name: string, e: Element)
    ensures var r := GetSettingsProperty(name, e);
            GetSettingsProperty(name, r.0) == r
  {
  }

  /** `buildRandomNodes`: the element naming the two callbacks, in order, and holding
      the given settings (when the property name is truthy). */
  function BuildRandomNodes(name: string, count: int, cacheKeys: seq<string>, maxAge: int, viewMode: string): (e: Element)
    ensures e.preRender == [GetRandomNodesCallback, BuildRandomNodesContentCallback]
    ensures e.content.None? && e.dependencies == []
    ensures Falsy(Str(name)) ==> e.properties == map[]
    ensures !Falsy(Str(name)) ==>
      e.properties == map[PropertyKey(name) := Settings(Some(count), Some(cacheKeys), Some(maxAge), Some(viewMode), None)]
  {
    var e0 := Element([GetRandomNodesCallback, BuildRandomNodesContentCallback], map[], None, []);
    var (e1, settings) := GetSettingsProperty(name, e0);
    if settings.Some? then
      e1.(properties := e1.properties[PropertyKey(name) := Settings(Some(count), Some(cacheKeys), Some(maxAge), Some(viewMode), None)])
    else e1
  }

  /** `buildRandomNodes` with its optional arguments left out: no cache keys, ten
      minutes, the teaser view mode. */
  function BuildRandomNodesDefaults(name: string, count: int): (e: Element)
    ensures !Falsy(Str(name)) ==>
      && PropertyKey(name) in e.properties
      && var s := e.properties[PropertyKey(name)];
         s.count == Some(count) && s.cacheKeys == Some([]) && s.maxAge == Some(600) && s.viewMode == Some("teaser")
  {
    BuildRandomNodes(name, count, [], 600, "teaser")
  }

  /** The settings `buildRandomNodes` stores are the ones `getSettingsProperty` finds,
      and they have no nodes yet. */
  lemma BuiltSettingsFound(name: string, count: int, cacheKeys: seq<string>, maxAge: int, viewMode: string)
    requires !Falsy(Str(name))
    ensures var e := BuildRandomNodes(name, count, cacheKeys, maxAge, viewMode);
            var r := GetSettingsProperty(name, e);
            && r.0 == e
            && r.1 == Some(Settings(Some(count), Some(cacheKeys), Some(maxAge), Some(viewMode), None))
            && !Isset(r.1.value.nodes)
  {
  }

  /** Whether `getRandomNodes` acts on the element: it has settings and no set nodes. */
  predicate NeedsNodes(name: string, e: Element) {
    var (_, settings) := GetSettingsProperty(name, e);
    settings.Some? && !Isset(settings.value.nodes)
  }

  /** The settings after the cache answered: `[]` unless the cache returned an object
      whose data is not FALSE, in which case the data. */
  function NodesFrom(cached: Option<CacheObject>): Value {
    if cached.Some? && cached.value.data != Bool(false) then cached.value.data else Arr([])
  }

  /** `getRandomNodes` (phase one). */
  function GetRandomNodes(name: string, e: Element, cache: Cache): (r: Result<Outcome, TypeError>)
    // an element that does not need nodes comes back as `getSettingsProperty` left it, without logging
    ensures !NeedsNodes(name, e) ==> r == Success(Outcome(GetSettingsProperty(name, e).0, []))
    // a missing count, cache keys or max age is a NULL passed to a typed parameter
    ensures NeedsNodes(name, e) ==>
      var s := GetSettingsProperty(name, e).1.value;
      (r.Failure? <==> s.count.None? || s.cacheKeys.None? || s.maxAge.None?)
    // otherwise the cache is asked with exactly the settings, and `nodes` is always assigned
    ensures NeedsNodes(name, e) && r.Success? ==>
      var (e1, settings) := GetSettingsProperty(name, e);
      var s := settings.value;
      var cached := cache(s.count.value, s.cacheKeys.value, s.maxAge.value);
      var key := PropertyKey(name);
      && r.value.element.properties == e1.properties[key := s.(nodes := Some(NodesFrom(cached)))]
      && r.value.element.preRender == e.preRender
      && r.value.element.content == e.content
      && r.value.element.dependencies ==
           e.dependencies + (if cached.Some? then [cached.value.meta] else [])
      && r.value.log ==
           (if cached.None? then [InitFailed]
            else if cached.value.data == Bool(false) then [RetrieveFailed]
            else [])
  {
    var (e1, settings) := GetSettingsProperty(name, e);
    if settings.None? || Isset(settings.value.nodes) then Success(Outcome(e1, []))
    else
      var s := settings.value;
      if s.count.None? then Failure(TypeError("count"))
      else if s.cacheKeys.None? then Failure(TypeError("cache_keys"))
      else if s.maxAge.None? then Failure(TypeError("cache_max_age"))
      else
        var cached := cache(s.count.value, s.cacheKeys.value, s.maxAge.value);
        var key := PropertyKey(name);
        var e2 := e1.(properties := e1.properties[key := s.(nodes := Some(Arr([])))]);
        match cached
        case None => Success(Outcome(e2, [InitFailed]))
        case Some(obj) =>
          var e3 := e2.(dependencies := e2.dependencies + [obj.meta]);
          if obj.data != Bool(false) then
            Success(Outcome(e3.(properties := e3.properties[key := s.(nodes := Some(obj.data))]), []))
          else
            Success(Outcome(e3, [RetrieveFailed]))
  }

  /** Settings that name a count, cache keys and a max age, as `buildRandomNodes`
      stores them. */
  predicate Complete(s: Settings) {
    s.count.Some? && s.cacheKeys.Some? && s.maxAge.Some?
  }

  /** Phase one never fails on an element whose settings are complete, whatever the
      cache does: a cache that cannot be initialised only logs an error. */
  lemma GetRandomNodesNeverFails(name: string, e: Element, cache: Cache)
    requires !Falsy(Str(name))
    requires PropertyKey(name) in e.properties && Complete(e.properties[PropertyKey(name)])
    ensures GetRandomNodes(name, e, cache).Success?
  {
  }

  /** Once phase one has stored data that is not NULL, running it again changes
      nothing, logs nothing and does not depend on the cache at all. */
  lemma GetRandomNodesIdempotent(name: string, e: Element, cache: Cache, cache': Cache)
    requires GetRandomNodes(name, e, cache).Success?
    requires var cached := Cached(name, e, cache); cached.None? || cached.value.data != Null
    ensures var e' := GetRandomNodes(name, e, cache).value.element;
            GetRandomNodes(name, e', cache') == Success(Outcome(e', []))
  {
    var e' := GetRandomNodes(name, e, cache).value.element;
    assert !NeedsNodes(name, e');
  }

  /** What phase one receives from the cache on `e`, when it asks. */
  function Cached(name: string, e: Element, cache: Cache): (r: Option<CacheObject>)
    ensures r.Some? ==> NeedsNodes(name, e)
  {
    var (_, settings) := GetSettingsProperty(name, e);
    if settings.None? || Isset(settings.value.nodes) then None
    else
      var s := settings.value;
      if s.count.None? || s.cacheKeys.None? || s.maxAge.None? then None
      else cache(s.count.value, s.cacheKeys.value, s.maxAge.value)
  }

  /** The cache is consulted only when the element needs nodes and its settings are
      complete: otherwise any other cache gives the same outcome. */
  lemma CacheOnlyWhenNeeded(name: string, e: Element, cache: Cache, cache': Cache)
    requires !NeedsNodes(name, e) || !Complete(GetSettingsProperty(name, e).1.value)
    ensures GetRandomNodes(name, e, cache) == GetRandomNodes(name, e, cache')
  {
  }

  /** Cached data that is NULL is stored, but `isset` does not see it: the next run of
      phase one asks the cache again. */
  lemma NullDataAsksAgain(name: string, e: Element, cache: Cache)
    requires GetRandomNodes(name, e, cache).Success?
    requires var cached := Cached(name, e, cache); cached.Some? && cached.value.data == Null
    ensures NeedsNodes(name, GetRandomNodes(name, e, cache).value.element)
  {
  }

  /** `buildRandomNodesContent` (phase two): builds `element['nodes']` only from
      non-empty nodes. */
  function BuildRandomNodesContent(name: string, e: Element, view: ViewBuilder): (r: Element)
    // the callbacks and the cache metadata are untouched
    ensures r.preRender == e.preRender && r.dependencies == e.dependencies
    // the settings key is created as `[]` when it is missing, and nothing else changes
    ensures var key := PropertyKey(name);
            r.properties ==
              if Falsy(Str(name)) || key in e.properties then e.properties
              else e.properties[key := EmptySettings]
    // content is built exactly when the element holds non-empty nodes, in its view mode
    ensures var key := PropertyKey(name);
            var stored := if key in e.properties then e.properties[key] else EmptySettings;
            if !Falsy(Str(name)) && !Empty(stored.nodes)
            then r.content == Some(view(stored.nodes.value, stored.viewMode))
            else r.content == e.content
  {
    var (e1, settings) := GetSettingsProperty(name, e);
    if settings.Some? && !Empty(settings.value.nodes) then
      var s := settings.value;
      e1.(content := Some(view(s.nodes.value, s.viewMode)))
    else e1
  }

  /** The result of phase two on empty nodes does not depend on the view builder. */
  lemma ContentNeedsNodes(name: string, e: Element, view: ViewBuilder, view': ViewBuilder)
    requires var settings := GetSettingsProperty(name, e).1;
             settings.None? || Empty(settings.value.nodes)
    ensures BuildRandomNodesContent(name, e, view) == BuildRandomNodesContent(name, e, view')
    ensures BuildRandomNodesContent(name, e, view).content == e.content
  {
  }

  /** An element that was never given settings: phase one passes a NULL count to the
      cache and fails, while phase two only adds the empty settings array and builds
      nothing. */
  lemma UninitialisedElement(name: string, e: Element, cache: Cache, view: ViewBuilder)
    requires !Falsy(Str(name)) && PropertyKey(name) !in e.properties
    ensures GetRandomNodes(name, e, cache) == Failure(TypeError("count"))
    ensures BuildRandomNodesContent(name, e, view) ==
      e.(properties := e.properties[PropertyKey(name) := EmptySettings])
  {
  }

  /** The renderer running the element's pre-render callbacks in order; a callback that
      fails stops the render. */
  function PreRender(name: string, e: Element, callbacks: seq<Callback>, cache: Cache, view: ViewBuilder, log: seq<string>): (r: Result<Outcome, TypeError>)
    ensures r.Success? ==> |r.value.log| >= |log| && r.value.log[..|log|] == log
    decreases |callbacks|
  {
    if |callbacks| == 0 then Success(Outcome(e, log))
    else
      match callbacks[0]
      case GetRandomNodesCallback =>
        (match GetRandomNodes(name, e, cache)
         case Failure(err) => Failure(err)
         case Success(o) => PreRender(name, o.element, callbacks[1..], cache, view, log + o.log))
      case BuildRandomNodesContentCallback =>
        PreRender(name, BuildRandomNodesContent(name, e, view), callbacks[1..], cache, view, log)
  }

  /** The whole lifecycle: a freshly built element rendered with a cache that returns
      data ends with that data as its nodes, viewed in the stored view mode, and the
      cache object's metadata merged in; a cache that cannot be initialised leaves
      the element without content and logs one error. */
  lemma Lifecycle(name: string, count: int, cacheKeys: seq<string>, maxAge: int, viewMode: string, cache: Cache, view: ViewBuilder)
    requires !Falsy(Str(name))
    ensures var e := BuildRandomNodes(name, count, cacheKeys, maxAge, viewMode);
            var r := PreRender(name, e, e.preRender, cache, view, []);
            var cached := cache(count, cacheKeys, maxAge);
            && r.Success?
            && r.value.element.properties[PropertyKey(name)].nodes == Some(NodesFrom(cached))
            && r.value.element.dependencies == (if cached.Some? then [cached.value.meta] else [])
            && (Falsy(NodesFrom(cached)) ==> r.value.element.content.None?)
            && (!Falsy(NodesFrom(cached)) ==> r.value.element.content == Some(view(NodesFrom(cached), Some(viewMode))))
            && (cached.None? ==> r.value.log == [InitFailed])
  {
    var e := BuildRandomNodes(name, count, cacheKeys, maxAge, viewMode);
    BuiltSettingsFound(name, count, cacheKeys, maxAge, viewMode);
    GetRandomNodesNeverFails(name, e, cache);
    var o := GetRandomNodes(name, e, cache).value;
    assert e.preRender[1..] == [BuildRandomNodesContentCallback];
    assert PreRender(name, e, e.preRender, cache, view, []) == PreRender(name, o.element, [BuildRandomNodesContentCallback], cache, view, o.log);
  }
}
