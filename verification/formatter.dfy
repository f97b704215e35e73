/**
 * The Grape JSON formatter that hands a resource to ActiveModel::Serializers
 * (`Grape::Formatter::ActiveModelSerializers`): it splits the per-request `ams_meta`
 * hash into adapter and serializer options, merges the endpoint's option sources,
 * picks a serializer and an adapter, and renders through the first of three paths.
 */
module Formatter {
  import opened Wrappers
  import opened RubyValues
  import PathSegments

  const IncludeKey: Key := Sym("include")
  const FieldsKey: Key := Sym("fields")
  const RootKey: Key := Sym("root")
  const AdapterKey: Key := Sym("adapter")
  const SerializerKey: Key := Sym("serializer")
  const EachSerializerKey: Key := Sym("each_serializer")
  const ScopeKey: Key := Sym("scope")
  const ResourceNameKey: Key := Sym("resource_name")
  const RouteOptionsKey: Key := Sym("route_options")

  /** `ADAPTER_OPTION_KEYS`: the `ams_meta` keys meant for the adapter. */
  const AdapterOptionKeys: set<Key> := {IncludeKey, FieldsKey, RootKey, AdapterKey}

  /** The keys the serializer-option preparation rewrites or injects. */
  const PreparedKeys: set<Key> := {SerializerKey, EachSerializerKey, ScopeKey, ResourceNameKey}

  /**
   * What the formatter reads from a Grape endpoint. `innermostNamespace` is the `space`
   * of the innermost enclosing namespace, if any; `firstPath` is the text of the
   * endpoint's first route path (`options[:path][0].to_s`).
   */
  datatype Endpoint = Endpoint(
    id: nat,
    defaultSerializerOptions: Option<Options>,
    defaultAdapterOptions: Option<Options>,
    namespaceOptions: Options,
    routeOptions: Options,
    options: Options,
    innermostNamespace: Option<string>,
    firstPath: string)

  /** The Rack env as seen by the formatter: `env['api.endpoint']` and `env['ams_meta']`. */
  datatype Env = Env(endpoint: Endpoint, amsMeta: Option<Options>)

  /**
   * The Ruby exceptions of the formatter that the model covers; the `NoMethodError`s
   * from a missing path or endpoint, or a non-class serializer, are not modelled.
   */
  datatype RubyError =
    | KeyError(key: Key)  // `Hash#fetch` of a missing key
    | TypeError           // `Hash#merge` given something that is not a hash

  /**
   * The code the formatter calls but does not define, as total functions:
   * `ActiveModel::Serializer.serializer_for`, `serializer.new`,
   * `ActiveModel::Serializer.config.adapter`, `ActiveModel::Serializer::Adapter.create`,
   * `respond_to?(:to_ary)`, and the three JSON encoders
   * (`adapter.serializable_hash.to_json`, `serializer.object.to_json`,
   * `Grape::Formatter::Json.call`).
   */
  datatype Library<!R, !S, !A> = Library(
    serializerFor: R -> Value,
    construct: (Value, R, Options) -> S,
    configAdapter: Value,
    createAdapter: (S, Options) -> A,
    arrayLike: R -> bool,
    adapterJson: A -> string,
    objectJson: S -> string,
    genericJson: R -> string)

  /** Which of the three rendering paths a call takes, with the object it renders. */
  datatype Rendering<R, S, A> =
    | AdapterHash(adapter: A)
    | SerializedObject(serializer: S)
    | GenericJson(resource: R)

  /** `ams_options(env)`: the request's `ams_meta`, an empty hash when it is absent. */
  function AmsOptions(env: Env): (r: Options)
    ensures env.amsMeta.None? ==> r == map[]
    ensures env.amsMeta.Some? ==> r == env.amsMeta.value
  {
    env.amsMeta.GetOr(map[])
  }

  /**
   * The `partition` of `ams_meta` into (adapter options, serializer options): every key
   * lands on exactly one side, the adapter side holding exactly the adapter option keys.
   */
  function PartitionOptions(meta: Options): (r: (Options, Options))
    ensures r.0.Keys == meta.Keys * AdapterOptionKeys
    ensures r.1.Keys == meta.Keys - AdapterOptionKeys
    ensures r.0.Keys !! r.1.Keys
    ensures r.0 + r.1 == meta
  {
    var adapterSide := map k | k in meta && k in AdapterOptionKeys :: meta[k];
    var serializerSide := map k | k in meta && k !in AdapterOptionKeys :: meta[k];
    assert adapterSide + serializerSide == meta by {
      assert (adapterSide + serializerSide).Keys == meta.Keys;
    }
    (adapterSide, serializerSide)
  }

  /**
   * `build_options_from_endpoint`: the right-biased merge of the default serializer
   * options (`nil` read as `{}`), the namespace options, the route options, the endpoint
   * options and the nested `options[:route_options]`. Fetching the nested hash raises
   * `KeyError` when it is missing and merging it raises `TypeError` when it is not a hash.
   */
  function BuildOptionsFromEndpoint(e: Endpoint): (r: Result<Options, RubyError>)
    ensures RouteOptionsKey !in e.options ==> r == Failure(KeyError(RouteOptionsKey))
    ensures RouteOptionsKey in e.options && !e.options[RouteOptionsKey].Hash? ==>
      r == Failure(TypeError)
    ensures r.Success? <==> RouteOptionsKey in e.options && e.options[RouteOptionsKey].Hash?
    ensures r.Success? ==>
      var nested := e.options[RouteOptionsKey].entries;
      var defaults := e.defaultSerializerOptions.GetOr(map[]);
      && r.value.Keys == defaults.Keys + e.namespaceOptions.Keys + e.routeOptions.Keys
                         + e.options.Keys + nested.Keys
      && forall k | k in r.value ::
           r.value[k] ==
             if k in nested then nested[k]
             else if k in e.options then e.options[k]
             else if k in e.routeOptions then e.routeOptions[k]
             else if k in e.namespaceOptions then e.namespaceOptions[k]
             else defaults[k]
  {
    if RouteOptionsKey !in e.options then Failure(KeyError(RouteOptionsKey))
    else match e.options[RouteOptionsKey]
      case Hash(nested) =>
        var defaults := e.defaultSerializerOptions.GetOr(map[]);
        MergeAllFive(defaults, e.namespaceOptions, e.routeOptions, e.options, nested);
        Success(MergeAll([defaults, e.namespaceOptions, e.routeOptions, e.options, nested]))
      case _ => Failure(TypeError)
  }

  /** `options.fetch(:serializer, serializer_for(resource))`. */
  function ChooseSerializer<R, S, A>(lib: Library<R, S, A>, resource: R, eo: Options): (r: Value)
    ensures SerializerKey in eo ==> r == eo[SerializerKey]
    ensures SerializerKey !in eo ==> r == lib.serializerFor(resource)
  {
    if SerializerKey in eo then eo[SerializerKey] else lib.serializerFor(resource)
  }

  /**
   * Moves an `each_serializer` entry to the `serializer` key: afterwards `each_serializer`
   * is gone, `serializer` holds its former value, and no other key changes.
   */
  function RenameEachSerializer(m: Options): (r: Options)
    ensures EachSerializerKey !in r
    ensures EachSerializerKey in m ==> SerializerKey in r && r[SerializerKey] == m[EachSerializerKey]
    ensures EachSerializerKey !in m ==> r == m
    ensures forall k | k != SerializerKey && k != EachSerializerKey ::
      (k in r <==> k in m) && (k in r ==> r[k] == m[k])
  {
    if EachSerializerKey in m then (m - {EachSerializerKey})[SerializerKey := m[EachSerializerKey]]
    else m
  }

  /** Sets `scope` to the endpoint unless the options already have a scope, which is kept. */
  function DefaultScope(m: Options, e: Endpoint): (r: Options)
    ensures ScopeKey in r
    ensures ScopeKey in m ==> r == m
    ensures ScopeKey !in m ==> r[ScopeKey] == EndpointRef(e.id) && r - {ScopeKey} == m
  {
    if ScopeKey in m then m else m[ScopeKey := EndpointRef(e.id)]
  }

  /**
   * `default_root`: the innermost namespace name when there is one, otherwise the last
   * `/`-separated segment of the first path, which is `nil` when that path is only slashes.
   */
  function DefaultRoot(e: Endpoint): (r: Value)
    ensures e.innermostNamespace.Some? ==> r == Str(e.innermostNamespace.value)
    ensures e.innermostNamespace.None? ==>
      (r == Nil <==> forall i | 0 <= i < |e.firstPath| :: e.firstPath[i] == '/')
    ensures e.innermostNamespace.None? && r != Nil ==>
      r == Str(PathSegments.LastSegmentSpec(e.firstPath).value)
  {
    match e.innermostNamespace
    case Some(space) => Str(space)
    case None =>
      PathSegments.LastSegmentShape(e.firstPath);
      PathSegments.LastSegmentMatchesSpec(e.firstPath);
      match PathSegments.LastSegment(e.firstPath)
      case Some(segment) => Str(segment)
      case None => Nil
  }

  /**
   * The options `serializer.new` receives: the endpoint options `eo` after the
   * `each_serializer` rename, the `scope` default and (for array-like resources) the
   * `resource_name` root, merged with the `ams_meta` serializer options `meta`, which win.
   */
  function PreparedOptions(eo: Options, e: Endpoint, arrayLike: bool, meta: Options): (r: Options)
    ensures forall k | k in meta :: k in r && r[k] == meta[k]
    ensures ScopeKey in r
    ensures ScopeKey !in meta ==>
      r[ScopeKey] == if ScopeKey in eo then eo[ScopeKey] else EndpointRef(e.id)
    ensures SerializerKey !in meta ==>
      (SerializerKey in r <==> SerializerKey in eo || EachSerializerKey in eo)
    ensures SerializerKey !in meta && EachSerializerKey in eo ==>
      r[SerializerKey] == eo[EachSerializerKey]
    ensures SerializerKey !in meta && EachSerializerKey !in eo && SerializerKey in eo ==>
      r[SerializerKey] == eo[SerializerKey]
    ensures EachSerializerKey in r <==> EachSerializerKey in meta
    ensures ResourceNameKey !in meta ==>
      (ResourceNameKey in r <==> arrayLike || ResourceNameKey in eo)
    ensures ResourceNameKey !in meta && arrayLike ==> r[ResourceNameKey] == DefaultRoot(e)
    ensures ResourceNameKey !in meta && !arrayLike && ResourceNameKey in eo ==>
      r[ResourceNameKey] == eo[ResourceNameKey]
    ensures forall k | k !in meta && k !in PreparedKeys ::
      (k in r <==> k in eo) && (k in r ==> r[k] == eo[k])
  {
    var renamed := RenameEachSerializer(eo);
    var scoped := DefaultScope(renamed, e);
    var rooted := if arrayLike then scoped[ResourceNameKey := DefaultRoot(e)] else scoped;
    rooted + meta
  }

  /**
   * `fetch_serializer`: the serializer instance, or `None` when the chosen serializer is
   * falsy. An explicit `serializer` entry in the endpoint options is used even when it is
   * `nil`; only its absence consults `serializer_for`.
   */
  function FetchSerializer<R, S, A>(lib: Library<R, S, A>, resource: R, e: Endpoint, meta: Options)
    : (r: Result<Option<S>, RubyError>)
    ensures r.Failure? <==> BuildOptionsFromEndpoint(e).Failure?
    ensures r.Failure? ==> r.error == BuildOptionsFromEndpoint(e).error
    ensures r.Success? ==>
      var eo := BuildOptionsFromEndpoint(e).value;
      && (SerializerKey in eo ==> (r.value.Some? <==> Truthy(eo[SerializerKey])))
      && (SerializerKey !in eo ==> (r.value.Some? <==> Truthy(lib.serializerFor(resource))))
      && (r.value.Some? ==>
            r.value.value == lib.construct(
              if SerializerKey in eo then eo[SerializerKey] else lib.serializerFor(resource),
              resource,
              PreparedOptions(eo, e, lib.arrayLike(resource), meta)))
  {
    var eo :- BuildOptionsFromEndpoint(e);
    var serializer := ChooseSerializer(lib, resource, eo);
    if !Truthy(serializer) then Success(None)
    else Success(Some(lib.construct(serializer, resource,
                                    PreparedOptions(eo, e, lib.arrayLike(resource), meta))))
  }

  /** `build_adapter_options_from_endpoint`: the default adapter options, `nil` read as `{}`. */
  function AdapterDefaults(e: Endpoint): (r: Options)
    ensures e.defaultAdapterOptions.None? ==> r == map[]
    ensures e.defaultAdapterOptions.Some? ==> r == e.defaultAdapterOptions.value
  {
    e.defaultAdapterOptions.GetOr(map[])
  }

  /** `options.fetch(:adapter, config.adapter)` over the endpoint's default adapter options. */
  function ChooseAdapter<R, S, A>(lib: Library<R, S, A>, e: Endpoint): (r: Value)
    ensures AdapterKey in AdapterDefaults(e) ==> r == AdapterDefaults(e)[AdapterKey]
    ensures AdapterKey !in AdapterDefaults(e) ==> r == lib.configAdapter
  {
    var defaults := AdapterDefaults(e);
    if AdapterKey in defaults then defaults[AdapterKey] else lib.configAdapter
  }

  /**
   * `fetch_adapter`: no adapter without a serializer; otherwise an adapter exactly when the
   * endpoint's default `adapter` entry (even a falsy one) or, lacking it, the global default
   * is truthy. The `ams_meta` adapter options take no part in that decision; they are merged
   * over the endpoint defaults, and win, in the options the adapter is created with.
   */
  function FetchAdapter<R, S, A>(lib: Library<R, S, A>, serializer: Option<S>, e: Endpoint,
                                 meta: Options): (r: Option<A>)
    ensures serializer.None? ==> r.None?
    ensures serializer.Some? && AdapterKey in AdapterDefaults(e) ==>
      (r.Some? <==> Truthy(AdapterDefaults(e)[AdapterKey]))
    ensures serializer.Some? && AdapterKey !in AdapterDefaults(e) ==>
      (r.Some? <==> Truthy(lib.configAdapter))
    ensures r.Some? ==> r.value == lib.createAdapter(serializer.value, AdapterDefaults(e) + meta)
  {
    if serializer.None? then None
    else
      var options := AdapterDefaults(e);
      if !Truthy(ChooseAdapter(lib, e)) then None
      else Some(lib.createAdapter(serializer.value, options + meta))
  }

  /** The rendering priority of `call`: the adapter first, then the serializer, then the resource. */
  function Render<R, S, A>(adapter: Option<A>, serializer: Option<S>, resource: R)
    : (r: Rendering<R, S, A>)
    ensures r.AdapterHash? <==> adapter.Some?
    ensures r.AdapterHash? ==> r.adapter == adapter.value
    ensures r.SerializedObject? <==> adapter.None? && serializer.Some?
    ensures r.SerializedObject? ==> r.serializer == serializer.value
    ensures r.GenericJson? <==> adapter.None? && serializer.None?
    ensures r.GenericJson? ==> r.resource == resource
  {
    if adapter.Some? then AdapterHash(adapter.value)
    else if serializer.Some? then SerializedObject(serializer.value)
    else GenericJson(resource)
  }

  /**
   * `ChooseSerializer` applied to the built endpoint options; it exists only to phrase
   * the contracts of `Respond` and `Call`.
   */
  function ChosenSerializer<R, S, A>(lib: Library<R, S, A>, resource: R, env: Env): Value
    requires BuildOptionsFromEndpoint(env.endpoint).Success?
  {
    ChooseSerializer(lib, resource, BuildOptionsFromEndpoint(env.endpoint).value)
  }

  /** The serializer instance `call` builds from the chosen class and the prepared options. */
  function BuiltSerializer<R, S, A>(lib: Library<R, S, A>, resource: R, env: Env): S
    requires BuildOptionsFromEndpoint(env.endpoint).Success?
  {
    var eo := BuildOptionsFromEndpoint(env.endpoint).value;
    var meta := PartitionOptions(AmsOptions(env)).1;
    lib.construct(ChosenSerializer(lib, resource, env), resource,
                  PreparedOptions(eo, env.endpoint, lib.arrayLike(resource), meta))
  }

  /** The adapter `call` builds around that serializer. */
  function BuiltAdapter<R, S, A>(lib: Library<R, S, A>, resource: R, env: Env): A
    requires BuildOptionsFromEndpoint(env.endpoint).Success?
  {
    var meta := PartitionOptions(AmsOptions(env)).0;
    lib.createAdapter(BuiltSerializer(lib, resource, env), AdapterDefaults(env.endpoint) + meta)
  }

  /**
   * The decision `call` makes. It raises exactly when the endpoint options cannot be
   * built; otherwise it renders the raw resource when no serializer is chosen, the
   * serializer's object when a serializer is chosen but no adapter, and the adapter's hash
   * when both are.
   */
  function Respond<R, S, A>(lib: Library<R, S, A>, resource: R, env: Env)
    : (r: Result<Rendering<R, S, A>, RubyError>)
    ensures r.Failure? <==> BuildOptionsFromEndpoint(env.endpoint).Failure?
    ensures r.Failure? ==> r.error == BuildOptionsFromEndpoint(env.endpoint).error
    ensures r.Success? ==>
      (r.value.GenericJson? <==> !Truthy(ChosenSerializer(lib, resource, env)))
    ensures r.Success? && r.value.GenericJson? ==> r.value.resource == resource
    ensures r.Success? ==>
      (r.value.SerializedObject? <==>
         Truthy(ChosenSerializer(lib, resource, env)) && !Truthy(ChooseAdapter(lib, env.endpoint)))
    ensures r.Success? && r.value.SerializedObject? ==>
      r.value.serializer == BuiltSerializer(lib, resource, env)
    ensures r.Success? ==>
      (r.value.AdapterHash? <==>
         Truthy(ChosenSerializer(lib, resource, env)) && Truthy(ChooseAdapter(lib, env.endpoint)))
    ensures r.Success? && r.value.AdapterHash? ==>
      r.value.adapter == BuiltAdapter(lib, resource, env)
  {
    var (adapterOptions, serializerOptions) := PartitionOptions(AmsOptions(env));
    var serializer :- FetchSerializer(lib, resource, env.endpoint, serializerOptions);
    var adapter := FetchAdapter(lib, serializer, env.endpoint, adapterOptions);
    Success(Render(adapter, serializer, resource))
  }

  /**
   * `call`: the JSON text of the chosen path — the adapter's serializable hash, else the
   * serializer's object, else the generic JSON formatter applied to the unchanged resource.
   */
  function Call<R, S, A>(lib: Library<R, S, A>, resource: R, env: Env): (r: Result<string, RubyError>)
    ensures r.Failure? <==> BuildOptionsFromEndpoint(env.endpoint).Failure?
    ensures r.Failure? ==> r.error == BuildOptionsFromEndpoint(env.endpoint).error
    ensures r.Success? && !Truthy(ChosenSerializer(lib, resource, env)) ==>
      r.value == lib.genericJson(resource)
    ensures r.Success? && Truthy(ChosenSerializer(lib, resource, env))
            && !Truthy(ChooseAdapter(lib, env.endpoint)) ==>
      r.value == lib.objectJson(BuiltSerializer(lib, resource, env))
    ensures r.Success? && Truthy(ChosenSerializer(lib, resource, env))
            && Truthy(ChooseAdapter(lib, env.endpoint)) ==>
      r.value == lib.adapterJson(BuiltAdapter(lib, resource, env))
  {
    var rendering :- Respond(lib, resource, env);
    match rendering
    case AdapterHash(adapter) => Success(lib.adapterJson(adapter))
    case SerializedObject(serializer) => Success(lib.objectJson(serializer))
    case GenericJson(res) => Success(lib.genericJson(res))
  }
}
