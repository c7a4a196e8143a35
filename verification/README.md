# random_node in Dafny

A Dafny model of the core of the Drupal module `random_node`. The model has three parts.

- **The random node sampler** (`RandomNode`). It draws node ids from the content store in one of two modes:
  - list mode: a plain list of bundles, that is, content types;
  - keyed mode: per-bundle quotas.

  It never returns an id that the same request drew before the call.
- **The two-phase lazy builder** (`CachedRandomNodeLazyBuilderTrait`). It builds a render element holding its settings. In phase one it fills the element's nodes from a cache. In phase two it turns non-empty nodes into content.
- **The Twig function `randomNodes()`** (`RandomEntityExtension`). It covers:
  - the method allow-list;
  - the re-entrancy flag `isSubRendering`;
  - the PHP-falsy argument defaults;
  - the render array built for the nodes.

Files:

- `common.dfy` (`Common`): option and result types, duplicate-free lists and `array_unique`, and the seeded shuffle. The shuffle stands for every random ordering.
- `php.dfy` (`Php`): PHP keys and values, PHP truthiness and the decimal spelling of integers.
- `store.dfy` (`Store`): the content store as a list of rows, and the query the sampler builds, executed as filter, then random order, then limit.
- `random_node.dfy` (`RandomNode`): the sampler.
- `lazy_builder.dfy` (`LazyBuilder`): the lazy builder.
- `twig_extension.dfy` (`TwigExtension`): the Twig relay.

Randomness is a parameter. Each `ORDER BY RAND()` and each `shuffle()` uses up one seed from an `Rng`. `Common.Shuffle` is a permutation for every seed, and every permutation is the shuffle under some seed. No claim about fairness or probability is made.

The per-request `drawnIds` state is threaded explicitly through a `Sampler` value, and so is the random source. A draw returns every query it executed together with what that query fetched. This lets the contracts speak about each sub-query.

The store answers a query under the `Store.Answers` relation:

- it returns ids of selected rows;
- it returns exactly `min(limit, selected)` of them when there is a limit;
- it returns all of them when there is no limit.

`Store.Execute` is one such answer.

### Behaviour of the code worth knowing

- **The exclusion is built once.** `getBaseQuery` builds the `NOT IN drawnIds` condition before any sub-query runs, and every quota sub-query is a clone of that query (src/RandomNode.php:99, 121, 198-200). So within one call, sub-queries do not exclude each other's answers. `RandomNode.SameCallMayRepeat` shows `getRandomNodeIds` returning the same node id twice. Draws in later calls do exclude it (`RandomNode.SuccessiveDrawsDisjoint`).
- **Keyed mode always shuffles**, even after a single sub-query (src/RandomNode.php:145).
- **An amount of zero in list mode returns every matching id.** A bound of "at most `count`" holds only for a positive amount (`RandomNode.ListModeAmount`).
- **Phase one fails on an element that was never built with settings.** `getRandomNodes` on an element without its settings key creates an empty settings array. It then passes the missing count, a NULL, to the `int` parameter of `getCachedRandomNodes`, which is a `TypeError`. Phase two on such an element only adds the empty settings (`LazyBuilder.UninitialisedElement`).
- **Cached data that is NULL is stored, but `isset` does not see it.** The next phase-one run asks the cache again (`LazyBuilder.NullDataAsksAgain`). Idempotence holds for all other data.
- **A render that throws leaves `isSubRendering` raised.** Every later `randomNodes()` call on that extension then returns `''` (`TwigExtension.FlagStuckAfterRenderFailure`).
- **A falsy fifth Twig argument becomes NULL.** `RandomNode::getRandomNodes` declares `array $options = []`, which is not nullable, so a NULL there is a `TypeError` in PHP. In the Twig model the provider is a parameter, and it receives the NULL as it is.
- **The quota arithmetic is kept as written.** A quota sub-query gets `q` while the remaining amount covers `q`, and `q - amount` otherwise (`RandomNode.AsymmetricQuota`). Once the remaining amount is negative, a limit exceeds its quota: an amount of 1 with quotas 3 and 3 gives the limits 2 and 4.

## Model

| member | source | states |
|---|---|---|
| Common.DedupSpec | src/RandomNode.php:168 | `array_unique` keeps every value of its input exactly once and adds nothing |
| Common.DedupAppend | src/RandomNode.php:168 | merging answers into the drawn ids one query at a time gives the same list as merging them all at once |
| Common.DedupExtends | src/RandomNode.php:168 | merging new ids into a duplicate-free drawn list keeps that list unchanged, in front |
| Common.DedupOfNoDup | src/RandomNode.php:168 | `array_unique` leaves a duplicate-free list as it is |
| Common.Shuffle | src/RandomNode.php:145 | the seeded shuffle rearranges its input: same length, same multiset of elements |
| Common.ShuffleReachesEveryPermutation | src/RandomNode.php:145 | every rearrangement of the input is the shuffle under some seed, so the seed model excludes no order |
| Common.ShuffleEmptySeed | src/RandomNode.php:145 | a shuffle with an exhausted random source keeps the input order |
| Common.ShuffleSingleton | src/RandomNode.php:145 | a single id has only one order |
| Php.ParseNatString | src/TwigExtension/RandomEntityExtension.php:124 | the decimal spelling of a number reads back as that number |
| Php.NatStringInjective | src/TwigExtension/RandomEntityExtension.php:124 | different numbers have different decimal spellings |
| Store.FilterSelects | src/RandomNode.php:181-200 | the query keeps exactly the rows that carry every option value, are not excluded and pass the type restriction |
| Store.Limit | src/RandomNode.php:108-110 | `range(0, n)` keeps the first `min(n, size)` ids, none for `n <= 0`, and all when no range is set |
| Store.LimitOfRearrangement | src/RandomNode.php:108-110 | the first `n` ids of a random order of the selected ids are some of them, exactly `min(n, selected)` for a limit `n`, and all of them without a limit |
| Store.Execute | src/RandomNode.php:162-164 | the executed query's answer is ids of selected rows, exactly `min(limit, selected)` of them under a limit and all of them without one |
| Store.AnswerIdsSelected | src/RandomNode.php:162-164 | every answered id belongs to a row of the store that the query selects |
| RandomNode.BaseQuerySelects | src/RandomNode.php:181-203 | the base query selects exactly the rows that carry every option and whose node id was not drawn before |
| RandomNode.AcquireRandomIds | src/RandomNode.php:160-170 | the answer is valid for the query; the drawn ids stay duplicate-free, keep the old ids in front, and hold exactly the old ids plus the answer; one seed is used |
| RandomNode.MergedIdsAreAllFetched | src/RandomNode.php:127 | prepending each answer with `array_merge` keeps exactly the fetched ids |
| RandomNode.HasStringKeysIff | src/RandomNode.php:98 | keyed mode is chosen exactly when some key of the bundles array is a string |
| RandomNode.NamedValuesFromBundles | src/RandomNode.php:130-132 | each set-aside bundle comes from a bundle entry whose value is not an integer |
| RandomNode.BundlesReachNamedValues | src/RandomNode.php:130-137 | every bundle entry whose value is not an integer is set aside for the final `IN` query |
| RandomNode.QuotaEntriesSpec | src/RandomNode.php:119-129 | the quota entries are exactly the integer-valued bundle entries, each carrying its quota |
| RandomNode.KeyedLoopQueries | src/RandomNode.php:119-133 | in order, one sub-query per integer quota, limited by the quota arithmetic on the amount left; the amount ends decreased by every limit, whatever came back; the other values are set aside in order |
| RandomNode.KeyedLoopAnswers | src/RandomNode.php:124-127 | every quota sub-query gets a valid answer |
| RandomNode.KeyedLoopDrawn | src/RandomNode.php:119-133 | after the loop, the drawn ids are the old ones plus everything fetched, deduplicated, and one seed was used per sub-query |
| RandomNode.Finish | src/RandomNode.php:145 | the final shuffle returns exactly the fetched ids, in a new order |
| RandomNode.ListDraw | src/RandomNode.php:102-113 | list mode issues one query and returns its answer as it came |
| RandomNode.KeyedDraw | src/RandomNode.php:114-146 | keyed mode returns a permutation of everything its sub-queries fetched |
| RandomNode.KeyedDrawPlan | src/RandomNode.php:119-141 | keyed mode issues the quota sub-queries, then the query over the set-aside bundles limited to the amount left; that query runs only when there are such bundles and the amount is positive |
| RandomNode.KeyedDrawConsistent | src/RandomNode.php:114-146 | keyed mode answers every query validly, adds all it fetched to the drawn ids, and shuffles once after every query |
| RandomNode.GetRandomNodeIds | src/RandomNode.php:97-149 | the ids returned are exactly the ids fetched, in some order |
| RandomNode.GetRandomNodeIdsConsistent | src/RandomNode.php:97-149 | every query carries the options and excludes exactly the ids drawn before the call; every answer is valid; the drawn ids gain all that was fetched |
| RandomNode.ListMode | src/RandomNode.php:102-112 | without string keys: one query, restricted to the bundles only when the list is non-empty, limited only when the amount is positive |
| RandomNode.KeyedMode | src/RandomNode.php:114-146 | with a string key: the keyed plan of queries, and the shuffle comes after all of them |
| RandomNode.ReturnedIdsSelected | src/RandomNode.php:181-200 | every returned id comes from a row that one of the queries selects; the row carries the options and the id was not drawn before the call |
| RandomNode.ListModeAmount | src/RandomNode.php:108-110 | list mode returns at most `amount` ids for a positive amount, and every matching id for an amount of zero or less |
| RandomNode.QuotaContribution | src/RandomNode.php:122-127 | each quota sub-query fetches at most its computed limit, and only nodes of its own bundle |
| RandomNode.SingleBundleAnswer | src/RandomNode.php:124-125 | a query restricted to one bundle and limited to `n` answers at most `n` ids, all of that bundle |
| RandomNode.QuotaLimitsWithinBudget | src/RandomNode.php:122-128 | when no quota is negative and all the quotas fit in the amount, each sub-query is limited to exactly its quota |
| RandomNode.ExactQuotas | src/RandomNode.php:119-133 | quotas only, none negative, summing to the amount, with enough candidates: each bundle gets exactly its quota and the draw returns exactly `amount` ids |
| RandomNode.ExactQuotaPlan | src/RandomNode.php:119-128 | quotas only, summing to the amount: one sub-query per bundle, limited to its quota, and no final query |
| RandomNode.FullAnswer | src/RandomNode.php:125 | a limited query with enough matching rows answers exactly its limit |
| RandomNode.AsymmetricQuota | src/RandomNode.php:122 | with 3 left, a quota of 5 is limited to 2, not 3; with 1 left, a quota of 10 is limited to 9 |
| RandomNode.SameCallMayRepeat | src/RandomNode.php:97-149 | a bundle given both a quota and a plain name makes `getRandomNodeIds` return the id of its one matching node twice in one call |
| RandomNode.TwoBundleDraw | src/RandomNode.php:119-141 | a quota of one for a bundle followed by the same bundle by name runs the quota sub-query, then the named query for the one node left, both cloned from the same base query |
| RandomNode.TwoBundleLoop | src/RandomNode.php:119-133 | the loop over those two entries runs one sub-query, leaves one node wanted and sets the named bundle aside |
| RandomNode.OneNamedEntryLoop | src/RandomNode.php:130-132 | an entry whose value is not an integer is only set aside, with no query and no change to the amount |
| RandomNode.BothQueriesFindTheRow | src/RandomNode.php:119-140 | both queries of that draw exclude only the ids drawn before the call, so each finds the same single matching row |
| RandomNode.SuccessiveDrawsDisjoint | src/RandomNode.php:166-200 | a second draw in the same request returns none of the ids the first returned |
| RandomNode.DrawnGrows | src/RandomNode.php:166-168 | the drawn ids stay duplicate-free, keep the old ids in front in their order, and gain exactly the ids returned |
| RandomNode.WithDefaults | src/RandomNode.php:69-76 | the caller's options are kept; `status = 1` and the current language are added only for keys the caller did not give |
| RandomNode.GetRandomNodes | src/RandomNode.php:68-79 | every query runs with the caller's options completed by the defaults |
| LazyBuilder.GetSettingsProperty | src/LazyBuilder/CachedRandomNodeLazyBuilderTrait.php:47-59 | a truthy name guarantees the `#name` key, creating `[]` only when it is absent and changing nothing else; a falsy name gives NULL and changes nothing |
| LazyBuilder.GetSettingsPropertyIdempotent | src/LazyBuilder/CachedRandomNodeLazyBuilderTrait.php:51-53 | asking for the settings again changes nothing more |
| LazyBuilder.BuildRandomNodes | src/LazyBuilder/CachedRandomNodeLazyBuilderTrait.php:64-84 | `#pre_render` is exactly the two callbacks, in order; the settings are the count, cache keys, max age and view mode, with no nodes |
| LazyBuilder.BuildRandomNodesDefaults | src/LazyBuilder/CachedRandomNodeLazyBuilderTrait.php:64 | the defaults are no cache keys, 600 seconds and `teaser` |
| LazyBuilder.BuiltSettingsFound | src/LazyBuilder/CachedRandomNodeLazyBuilderTrait.php:72-81 | the settings that are built are the ones `getSettingsProperty` finds, and their nodes are not set |
| LazyBuilder.GetRandomNodes | src/LazyBuilder/CachedRandomNodeLazyBuilderTrait.php:91-123 | without settings, or with nodes already set, nothing happens; otherwise the cache is asked with exactly the stored count, keys and max age, and nodes are always assigned; cache metadata is merged when there is a cache object; the right error is logged; a missing count, keys or max age is a `TypeError` |
| LazyBuilder.GetRandomNodesNeverFails | src/LazyBuilder/CachedRandomNodeLazyBuilderTrait.php:101-119 | with complete settings, phase one succeeds whatever the cache returns |
| LazyBuilder.GetRandomNodesIdempotent | src/LazyBuilder/CachedRandomNodeLazyBuilderTrait.php:92-101 | after phase one has stored non-NULL nodes, running it again changes nothing, logs nothing and does not consult the cache |
| LazyBuilder.CacheOnlyWhenNeeded | src/LazyBuilder/CachedRandomNodeLazyBuilderTrait.php:92-99 | when the element has no settings, already has nodes, or lacks a count, cache keys or max age, the outcome is the same whatever the cache holds |
| LazyBuilder.NullDataAsksAgain | src/LazyBuilder/CachedRandomNodeLazyBuilderTrait.php:94-111 | NULL data from the cache leaves nodes not set, so phase one acts again |
| LazyBuilder.BuildRandomNodesContent | src/LazyBuilder/CachedRandomNodeLazyBuilderTrait.php:153-166 | `#pre_render` and the cache metadata are untouched; the settings key is created as `[]` only when a truthy name lacks it; content becomes the view of the stored nodes in the stored view mode exactly when the name is truthy and the nodes are not empty, and is otherwise unchanged |
| LazyBuilder.ContentNeedsNodes | src/LazyBuilder/CachedRandomNodeLazyBuilderTrait.php:154-158 | with empty nodes the view builder is not used and the content is untouched |
| LazyBuilder.UninitialisedElement | src/LazyBuilder/CachedRandomNodeLazyBuilderTrait.php:51-99 | on an element never given settings, phase one fails on the NULL count and phase two only adds empty settings |
| LazyBuilder.PreRender | src/LazyBuilder/CachedRandomNodeLazyBuilderTrait.php:66-69 | running the callbacks in order only adds to the log |
| LazyBuilder.Lifecycle | src/LazyBuilder/CachedRandomNodeLazyBuilderTrait.php:64-166 | building then rendering stores the cache's data as nodes (or `[]`), merges the cache metadata, builds content exactly for truthy nodes in the built view mode, and logs the init failure |
| TwigExtension.RenderItems | src/TwigExtension/RandomEntityExtension.php:120-125 | one entry per node, in order, keyed `random_1 ... random_n`, each the node viewed in the view mode |
| TwigExtension.RenderKeysDistinct | src/TwigExtension/RandomEntityExtension.php:124 | no two nodes share a render key |
| TwigExtension.BuildEntities | src/TwigExtension/RandomEntityExtension.php:113-136 | no nodes gives `''` with the flag as it was; otherwise the flag ends raised exactly when the render threw, and the markup is the render of the entries made with the flag raised |
| TwigExtension.Call | src/TwigExtension/RandomEntityExtension.php:149-157 | an unregistered method throws `BadMethodCallException` with the state unchanged; a registered call while sub-rendering returns `''` |
| TwigExtension.GuardsIgnoreServices | src/TwigExtension/RandomEntityExtension.php:151-157 | the rejected and short-circuited calls consult no service |
| TwigExtension.OnlyGetRandomNodes | src/TwigExtension/RandomEntityExtension.php:23-25 | the only callable method is `getRandomNodes` |
| TwigExtension.ArgumentsDefaultedEach | src/TwigExtension/RandomEntityExtension.php:159-171 | for any arguments, each one is defaulted on its own: a falsy or missing amount, bundles, view mode or options becomes 1, NULL, `full` or NULL, a truthy one reaches the provider or `buildEntities` as given, and the cache time is resolved as `TodayCacheTime` states |
| TwigExtension.TodayCacheTime | src/TwigExtension/RandomEntityExtension.php:162-168 | for every value: a falsy cache time becomes 30000; a truthy one equal to `'today'` under loose comparison becomes the seconds until tomorrow; any other is kept |
| TwigExtension.NestedCallIsEmpty | src/TwigExtension/RandomEntityExtension.php:131-157 | a call made while the nodes are rendered returns `''` |
| TwigExtension.FlagLoweredAfterSuccess | src/TwigExtension/RandomEntityExtension.php:131-135 | after a call that returns normally, the flag is down |
| TwigExtension.FlagStuckAfterRenderFailure | src/TwigExtension/RandomEntityExtension.php:131-133 | after a render that throws, the flag stays raised and every later call returns `''` |

## Left out

- The database layer is not modelled: `select`, `orderRandom`, the `node_access` tag and the join of `node` with `node_field_data` (src/RandomNode.php:183-193). A row stands for one joined record, and node access is not applied. Options are compared by value equality. The SQL comparison of the type column with an integer uses the integer's decimal spelling; no other SQL type juggling is modelled.
- `getBaseQuery` joins `node_field_data` only when options are given (src/RandomNode.php:189-194). Without options the source selects from `node`, one row per node. The model always filters the joined rows, one per translation. So a direct call of `getRandomNodeIds` with no options can, in the model, return a node id once per translation of that node. `RandomNode::getRandomNodes` always passes options, so it is not affected.
- Store.Limit: a negative quota gives `range(0, q)` a negative length (src/RandomNode.php:122-125). Drupal turns that into a negative `LIMIT`, which MySQL and PostgreSQL reject. The model instead treats a limit of zero or less as a query that selects nothing, and the `Max0` bound of `RandomNode.QuotaContribution` rests on that choice.
- Entity loading (`loadMultiple`) is not modelled. `RandomNode.GetRandomNodes` returns the drawn ids together with the queries, not loaded nodes.
- LazyBuilder.BuildRandomNodes: the settings property name is assumed to be neither `pre_render` nor `cache`. In PHP the settings, `#pre_render` and `#cache` are keys of one render array. With the name `pre_render`, `getSettingsProperty` returns the callbacks array (src/LazyBuilder/CachedRandomNodeLazyBuilderTrait.php:51-55) and `buildRandomNodes` overwrites it with the settings (src/LazyBuilder/CachedRandomNodeLazyBuilderTrait.php:72-80), so no callback is left. With the name `cache`, `applyTo` writes the cache metadata into the settings (src/LazyBuilder/CachedRandomNodeLazyBuilderTrait.php:106-108). The model keeps the settings, the callbacks and the cache metadata apart, so its `#pre_render` and metadata claims also hold for those two names, where the source's do not.
- Store.Execute: the store query, the cache (`getCachedRandomNodes`) and the view builders (src/TwigExtension/RandomEntityExtension.php:124) are assumed never to throw, and an unavailable store is not modelled. In the source an exception from `$query->execute()` (src/RandomNode.php:162) is not caught. In keyed mode, the quota sub-queries that ran before it have already merged their ids into `drawnIds` (src/RandomNode.php:168), so those ids stay excluded from every later draw in the request although the failed call returned none of them.
- The cache (`getCachedRandomNodes`, abstract in the trait), the view builders and the renderer are parameters of the model.
- `CacheableMetadata` merging is only recorded: the cache object's metadata is appended to the element's list of dependencies.
- The logger is modelled as the list of messages logged.
- The clock (`time()`, `strtotime('tomorrow')`) is modelled as two numbers passed in.
- These parts of the framework are not modelled:
  - Twig registration: `getFunctions`, `getFilters` and `getName`;
  - constructors;
  - PHP references. The settings are returned as part of a new element value.
- The settings property name of the trait is a parameter of each operation.
- PHP values are modelled without floats and objects.
- PHP integer overflow to float is not modelled; integers are unbounded.
- `in_array` compares loosely. For the method names involved this is the same as string equality.
- A NULL `bundles` argument to `RandomNode::getRandomNodes` reaches `array $bundles = []` in `getRandomNodeIds`, which is a `TypeError`. The model takes bundles as a possibly empty list, so this path is not modelled.
- An exhausted random source gives the empty seed, which keeps the input order.
- The two interface files, src/RandomNodeInterface.php and src/LazyBuilder/CachedRandomNodeLazyBuilderInterface.php, declare methods only and are not modelled. The promises in their documentation are stated by the members that model the implementing code: "a negative amount loads all nodes" by `RandomNode.ListModeAmount` (list mode, where an amount of zero does the same), and the defaults of `buildRandomNodes` by `LazyBuilder.BuildRandomNodesDefaults`.
