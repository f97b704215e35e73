# Grape ActiveModel::Serializers formatter, modelled in Dafny

This project models `Grape::Formatter::ActiveModelSerializers`, the JSON formatter that
connects a Grape API endpoint to ActiveModel::Serializers (AMS). For each response,
`call` does four things:

1. It splits the request's `ams_meta` hash into adapter options and serializer options.
   The adapter side gets the keys `:include`, `:fields`, `:root` and `:adapter`.
2. It builds the endpoint's serializer options by merging five option sources.
3. It picks a serializer and prepares its options: the `each_serializer` rename, the
   default `scope`, and the `resource_name` root for arrays.
4. It picks an adapter and renders through one of three paths: the adapter's hash, the
   serializer's object, or Grape's generic JSON formatter.

Modules:

- `Wrappers` (`wrappers.dfy`): `Option` stands for Ruby `nil`, and `Result` for a raised
  exception.
- `RubyValues` (`ruby_values.dfy`) defines:
  - hash keys: symbols and strings;
  - option values and option hashes (`map<Key, Value>`);
  - Ruby truthiness;
  - `reduce(:merge)`, as a right-biased fold.
- `PathSegments` (`path_segments.dfy`): `String#split('/')[-1]`, with Ruby's suppression
  of trailing empty fields. It also gives a split-free reference reading, and a proof
  that the two agree.
- `Formatter` (`formatter.dfy`): the endpoint record, the env, the collaborator record
  `Library`, and one function per method of the formatter.
- `FormatterProperties` (`formatter_properties.dfy`): lemmas that relate several calls,
  and concrete cases.

The code the formatter calls but does not define is passed in as the fields of a
`Library` value. Each field is a total function or a value:

- `serializer_for`;
- `serializer.new`;
- `config.adapter`;
- `Adapter.create`;
- `respond_to?(:to_ary)`;
- the three JSON encoders.

The model covers two of the exceptions `call` can raise, both as `Failure`:

- `endpoint.options` has no `:route_options`: `Hash#fetch` raises `KeyError`
  (formatter.rb:60).
- `:route_options` holds something that is not a hash: `Hash#merge` raises `TypeError`
  (formatter.rb:60).

Other exceptions `call` can raise are listed under "## Left out".

Behaviour worth noting:

- `ADAPTER_OPTION_KEYS` includes `:root` (formatter.rb:5).
- `ams_meta` is partitioned, and each half is merged last on its own side: the serializer
  half over the endpoint options (formatter.rb:52), the adapter half over the default
  adapter options (formatter.rb:35).
- The default adapter options take no part in the serializer options
  (formatter.rb:59-61).
- Serializer construction is not guarded: `fetch_serializer` has no `rescue`
  (formatter.rb:38-53).
- `adapter: false` in `ams_meta` does not disable the adapter. Only the endpoint's
  default adapter options, or else the global default, decide whether an adapter exists
  (formatter.rb:32-33; `MetaAdapterFalseDoesNotDisable`).
- For array-like resources `resource_name` is always set to the default root, overwriting
  an endpoint-supplied `resource_name` (formatter.rb:51).

## Model

| member | source | states |
|---|---|---|
| Formatter.AmsOptions | lib/grape-active_model_serializers/formatter.rb:55-57 | the request's `ams_meta` when present, otherwise an empty hash |
| Formatter.AdapterDefaults | lib/grape-active_model_serializers/formatter.rb:63-65 | the endpoint's default adapter options when present, otherwise an empty hash |
| Formatter.PartitionOptions | lib/grape-active_model_serializers/formatter.rb:5-10 | the adapter side holds exactly the `ams_meta` keys in `ADAPTER_OPTION_KEYS`, the serializer side the rest; the sides are disjoint and their union is `ams_meta` |
| FormatterProperties.MissingMetaGivesEmptyOptions | lib/grape-active_model_serializers/formatter.rb:55-57 | a request without `ams_meta` yields two empty option hashes |
| RubyValues.MergeAllLastWins | lib/grape-active_model_serializers/formatter.rb:60 | `reduce(:merge)` holds exactly the keys of the sources, each with the value from the last source that has it |
| RubyValues.MergeAllFive | lib/grape-active_model_serializers/formatter.rb:60 | reducing the five endpoint sources is the left-to-right chain of right-biased merges |
| Formatter.BuildOptionsFromEndpoint | lib/grape-active_model_serializers/formatter.rb:59-61 | raises `KeyError` without `options[:route_options]` and `TypeError` when it is not a hash; otherwise the keys are the union of the five sources and each value comes from the first of nested route options, options, route options, namespace options, default serializer options (nil read as empty) that has the key |
| Formatter.RenameEachSerializer | lib/grape-active_model_serializers/formatter.rb:45-47 | afterwards `each_serializer` is absent and, if it was present, `serializer` holds its former value; without it the hash is unchanged; no other key is touched |
| FormatterProperties.RenameEachSerializerIdempotent | lib/grape-active_model_serializers/formatter.rb:45-47 | renaming twice equals renaming once |
| Formatter.DefaultScope | lib/grape-active_model_serializers/formatter.rb:49 | `scope` is always present; an existing scope is kept unchanged, otherwise the endpoint is added and nothing else changes |
| FormatterProperties.DefaultScopeIdempotent | lib/grape-active_model_serializers/formatter.rb:49 | defaulting the scope twice equals defaulting it once |
| Formatter.DefaultRoot | lib/grape-active_model_serializers/formatter.rb:67-80 | the innermost namespace name when there is one; otherwise nil exactly when the first path is only slashes, else the path's last segment after trailing slashes are stripped |
| PathSegments.LastSegmentMatchesSpec | lib/grape-active_model_serializers/formatter.rb:79 | `split('/')[-1]` (fields, trailing empty fields dropped, last element) equals stripping trailing slashes and taking the text after the last slash |
| PathSegments.LastSegmentShape | lib/grape-active_model_serializers/formatter.rb:79 | the segment is nil iff the path is all slashes; otherwise it is non-empty, slash-free, ends the path once trailing slashes are removed, and follows a slash or starts the path |
| FormatterProperties.RootPathGivesNilResourceName | lib/grape-active_model_serializers/formatter.rb:76-80 | with no namespace and path `/`, the array root name is nil |
| FormatterProperties.TrailingSlashIsIgnored | lib/grape-active_model_serializers/formatter.rb:76-80 | with no namespace and path `/users/`, the array root name is `users` |
| Formatter.PreparedOptions | lib/grape-active_model_serializers/formatter.rb:45-52 | every `ams_meta` serializer option wins; `scope` is always set, from `ams_meta`, else the endpoint options, else the endpoint; `serializer` comes from `ams_meta`, else `each_serializer`, else `serializer`; `each_serializer` survives only from `ams_meta`; `resource_name` is the default root for arrays and is otherwise kept; every other key keeps its endpoint value |
| FormatterProperties.EachSerializerReachesSerializerKey | lib/grape-active_model_serializers/formatter.rb:45-49 | endpoint options `{each_serializer: Foo}` reach the serializer as exactly `{serializer: Foo, scope: endpoint}` |
| FormatterProperties.MetaScopeWins | lib/grape-active_model_serializers/formatter.rb:49-52 | a `scope` in `ams_meta` overrides both the endpoint's scope and the injected default |
| Formatter.ChooseSerializer | lib/grape-active_model_serializers/formatter.rb:42 | a `serializer` entry in the endpoint options is the choice whenever the key is present, whatever its value; only without the key does `serializer_for(resource)` decide |
| Formatter.FetchSerializer | lib/grape-active_model_serializers/formatter.rb:38-53 | raises exactly when the endpoint options cannot be built; an explicit `serializer` entry decides alone, even when nil, otherwise `serializer_for` decides; a falsy choice gives no serializer; otherwise the chosen class is constructed with the resource and the prepared options |
| Formatter.ChooseAdapter | lib/grape-active_model_serializers/formatter.rb:32 | an `adapter` entry among the endpoint's default adapter options is the choice whenever the key is present, whatever its value; only without it does the global default decide |
| Formatter.FetchAdapter | lib/grape-active_model_serializers/formatter.rb:26-36 | no adapter without a serializer; otherwise an adapter exists iff the endpoint's default `adapter` entry (even falsy) or, lacking it, the global default is truthy; it is created from the endpoint defaults merged with the `ams_meta` adapter options |
| FormatterProperties.MetaAdapterFalseDoesNotDisable | lib/grape-active_model_serializers/formatter.rb:32-35 | `adapter: false` in `ams_meta` does not suppress the adapter; it is only passed on in the adapter's options |
| FormatterProperties.EndpointAdapterFalseDisables | lib/grape-active_model_serializers/formatter.rb:32-33 | a falsy endpoint default `adapter` suppresses the adapter whatever `ams_meta` holds |
| Formatter.Render | lib/grape-active_model_serializers/formatter.rb:15-23 | the adapter path iff there is an adapter; the serializer-object path iff there is a serializer but no adapter; the generic path, on the unchanged resource, iff there is neither |
| Formatter.Respond | lib/grape-active_model_serializers/formatter.rb:8-24 | raises exactly when the endpoint options cannot be built; the generic path iff no serializer is chosen, on the unchanged resource; the serializer path iff a serializer is chosen and no adapter; the adapter path iff both, with the adapter built from that serializer |
| Formatter.Call | lib/grape-active_model_serializers/formatter.rb:8-24 | the JSON text is the adapter's hash if an adapter exists, else the serializer's object if a serializer exists, else the generic encoding of the resource |
| FormatterProperties.RenderPathIgnoresMeta | lib/grape-active_model_serializers/formatter.rb:9-12 | which rendering path is taken, and whether the call raises, do not depend on `ams_meta` |

## Left out

- JSON encoding is not modelled. `adapter.serializable_hash.to_json`,
  `serializer.object.to_json` and `Grape::Formatter::Json.call` are opaque `Library`
  functions. The generic formatter is given the resource but not the env.
- ActiveModel::Serializers internals are not modelled. `serializer_for`, `serializer.new`,
  `config.adapter` and `Adapter.create` are opaque `Library` members, and they are
  total. The formatter does not rescue, so an exception raised inside them would
  propagate; the model does not cover those exceptions.
- `respond_to?(:to_ary)` is Ruby reflection. It is the opaque `Library.arrayLike`.
- Grape endpoint introspection is not modelled. The `namespace_stackable` versus
  `settings.peek` branch becomes the field `Endpoint.innermostNamespace`.
- `options[:path][0].to_s` becomes the field `Endpoint.firstPath`. The model therefore
  does not cover the `NoMethodError` that a missing `:path` would raise.
- `env['ams_meta']`, `default_serializer_options` and `default_adapter_options` are
  modelled as a hash or nil (`Option<Options>`). A truthy non-hash value in any of them
  is not modelled.
- A missing `env['api.endpoint']` is not modelled. The formatter would raise
  `NoMethodError` at formatter.rb:39-40; `Env.endpoint` is always present.
- A truthy `serializer` entry that is not a serializer class is not modelled. The
  formatter would raise `NoMethodError` at formatter.rb:52; `Library.construct` is total.
- `RubyValues.Key` has only symbol and string keys. Hash keys of other kinds, such as
  integers, are not modelled. No key the formatter reads or writes is of another kind.
- `RubyValues.Value` is a closed set of kinds: nil, booleans, strings, nested hashes, the
  endpoint, and opaque objects. Any other Ruby value is an opaque `Obj`. The formatter
  only tests values for truthiness and hash-ness, and this set covers both.
- Hash insertion order is not modelled. Option hashes are finite maps.
- `Hash#fetch` evaluates its default (`serializer_for(resource)`) even when the key is
  present. The collaborators are pure here, so this makes no difference.
- The accessors `meta` and `meta_key` do not exist in the formatter, so they are not
  modelled. Only the out-of-date test file `formatter_spec.rb` refers to them.
