/** Properties of the formatter that relate several calls or pin down concrete cases. */
module FormatterProperties {
  import opened Wrappers
  import opened RubyValues
  import opened Formatter
  import PathSegments

  /** A request without `ams_meta` gives empty adapter and serializer options. */
  lemma MissingMetaGivesEmptyOptions(env: Env)
    requires env.amsMeta.None?
    ensures PartitionOptions(AmsOptions(env)) == (map[], map[])
  {
  }

  /** The `each_serializer` rename is idempotent: a second rename changes nothing. */
  lemma RenameEachSerializerIdempotent(m: Options)
    ensures RenameEachSerializer(RenameEachSerializer(m)) == RenameEachSerializer(m)
  {
  }

  /** Defaulting the scope twice is the same as once: the first default is kept. */
  lemma DefaultScopeIdempotent(m: Options, e: Endpoint)
    ensures DefaultScope(DefaultScope(m, e), e) == DefaultScope(m, e)
  {
  }

  /**
   * The rendering path (raise, generic JSON, serializer object, adapter hash) does not
   * depend on `ams_meta`: replacing it by any other hash, or removing it, keeps the path.
   */
  lemma RenderPathIgnoresMeta<R, S, A>(lib: Library<R, S, A>, resource: R, env: Env,
                                       otherMeta: Option<Options>)
    ensures var r1 := Respond(lib, resource, env);
            var r2 := Respond(lib, resource, env.(amsMeta := otherMeta));
            && (r1.Failure? <==> r2.Failure?)
            && (r1.Success? ==>
                  && (r1.value.GenericJson? <==> r2.value.GenericJson?)
                  && (r1.value.SerializedObject? <==> r2.value.SerializedObject?)
                  && (r1.value.AdapterHash? <==> r2.value.AdapterHash?))
  {
  }

  /**
   * An `adapter: false` entry in `ams_meta` does not switch the adapter off: with a
   * serializer, no endpoint default and a truthy global default, an adapter is still
   * created, and it receives `adapter: false` among its options.
   */
  lemma MetaAdapterFalseDoesNotDisable<R, S, A>(lib: Library<R, S, A>, serializer: S, e: Endpoint)
    requires AdapterKey !in AdapterDefaults(e)
    requires Truthy(lib.configAdapter)
    ensures var r := FetchAdapter(lib, Some(serializer), e, map[AdapterKey := Bool(false)]);
            && r.Some?
            && r.value == lib.createAdapter(serializer, AdapterDefaults(e)[AdapterKey := Bool(false)])
  {
    assert AdapterDefaults(e) + map[AdapterKey := Bool(false)]
        == AdapterDefaults(e)[AdapterKey := Bool(false)];
  }

  /**
   * A falsy `adapter` among the endpoint's default adapter options switches the adapter
   * off whatever the global default and `ams_meta` say.
   */
  lemma EndpointAdapterFalseDisables<R, S, A>(lib: Library<R, S, A>, serializer: S, e: Endpoint,
                                             meta: Options)
    requires AdapterKey in AdapterDefaults(e) && !Truthy(AdapterDefaults(e)[AdapterKey])
    ensures FetchAdapter(lib, Some(serializer), e, meta).None?
  {
  }

  /**
   * Endpoint options holding only `each_serializer: Foo`, for a resource that is not
   * array-like and an empty `ams_meta`, reach the serializer as `serializer: Foo` plus the
   * endpoint as scope.
   */
  lemma EachSerializerReachesSerializerKey(foo: Value, e: Endpoint)
    ensures PreparedOptions(map[EachSerializerKey := foo], e, false, map[])
            == map[SerializerKey := foo, ScopeKey := EndpointRef(e.id)]
  {
  }

  /** A caller-supplied scope in `ams_meta` beats both an endpoint scope and the default. */
  lemma MetaScopeWins(eo: Options, e: Endpoint, arrayLike: bool, scope: Value)
    ensures PreparedOptions(eo, e, arrayLike, map[ScopeKey := scope])[ScopeKey] == scope
  {
  }

  /** For an array under no namespace with the route path `/`, the root name is `nil`. */
  lemma RootPathGivesNilResourceName(e: Endpoint)
    requires e.innermostNamespace.None? && e.firstPath == "/"
    ensures DefaultRoot(e) == Nil
  {
  }

  /** For an array under no namespace, `/users/` gives the root name `users`. */
  lemma TrailingSlashIsIgnored(e: Endpoint)
    requires e.innermostNamespace.None? && e.firstPath == "/users/"
    ensures DefaultRoot(e) == Str("users")
  {
    UsersPathSegment();
  }

  /** The slash-trimming reading of `/users/` is `users`. */
  lemma UsersPathSegment()
    ensures PathSegments.LastSegmentSpec("/users/") == Some("users")
  {
    var path: string := "/users/";
    var t: string := "/users";
    assert path[..6] == t;
    assert PathSegments.TrimTrailingSlashes(path) == t;
    assert t[..1] == "/";
    assert PathSegments.AfterLastSlash("/") == "";
    assert t[..2][..1] == "/";
    assert PathSegments.AfterLastSlash(t[..2]) == "u";
    assert t[..3][..2] == t[..2];
    assert PathSegments.AfterLastSlash(t[..3]) == "us";
    assert t[..4][..3] == t[..3];
    assert PathSegments.AfterLastSlash(t[..4]) == "use";
    assert t[..5][..4] == t[..4];
    assert PathSegments.AfterLastSlash(t[..5]) == "user";
    assert t[..5] == t[..|t| - 1];
  }
}
