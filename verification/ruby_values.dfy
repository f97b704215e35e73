/** The Ruby values the formatter passes around: hash keys, option values and option hashes. */
module RubyValues {

  /** A hash key: a Ruby symbol (`:include`) or a Ruby string (`"include"`); the two never coincide. */
  datatype Key = Sym(name: string) | Text(text: string)

  /**
   * An option value. `Hash` is a nested option hash (as `options[:route_options]`),
   * `EndpointRef` is the Grape endpoint object with the given identity, and `Obj` is any
   * other Ruby object (a serializer class, an adapter name, a user object, ...).
   */
  datatype Value =
    | Nil
    | Bool(b: bool)
    | Str(s: string)
    | Hash(entries: map<Key, Value>)
    | EndpointRef(id: nat)
    | Obj(id: nat)

  /** A Ruby option hash. Insertion order is not modelled. */
  type Options = map<Key, Value>

  /** Ruby truthiness: everything except `nil` and `false`. */
  predicate Truthy(v: Value) {
    !(v.Nil? || v == Bool(false))
  }

  /**
   * The index of the LAST source that holds `k`, or -1 when none does:
   * the source whose value a left-to-right chain of `Hash#merge` keeps.
   */
  function Winner(sources: seq<Options>, k: Key): (i: int)
    ensures -1 <= i < |sources|
    ensures i >= 0 ==> k in sources[i]
    ensures forall j | i < j < |sources| :: k !in sources[j]
  {
    if |sources| == 0 then -1
    else if k in sources[|sources| - 1] then |sources| - 1
    else Winner(sources[..|sources| - 1], k)
  }

  /** `sources.reduce(:merge)`: a left-to-right chain of `Hash#merge` calls. */
  function MergeAll(sources: seq<Options>): Options
    requires |sources| > 0
  {
    if |sources| == 1 then sources[0]
    else MergeAll(sources[..|sources| - 1]) + sources[|sources| - 1]
  }

  /**
   * `Hash#merge` is right-biased, so the reduction holds exactly the keys of the sources,
   * and a key present in several sources takes its value from the last of them.
   */
  lemma {:induction false} MergeAllLastWins(sources: seq<Options>)
    requires |sources| > 0
    ensures forall k :: k in MergeAll(sources) <==> Winner(sources, k) >= 0
    ensures forall k | k in MergeAll(sources) :: MergeAll(sources)[k] == sources[Winner(sources, k)][k]
  {
    if |sources| > 1 {
      MergeAllLastWins(sources[..|sources| - 1]);
    }
  }

  /** Reducing five hashes with `merge` is the chain `a.merge(b).merge(c).merge(d).merge(f)`. */
  lemma {:induction false} MergeAllFive(a: Options, b: Options, c: Options, d: Options, f: Options)
    ensures MergeAll([a, b, c, d, f]) == a + b + c + d + f
  {
    assert MergeAll([a]) == a;
    MergeAllSnoc([a], b);
    assert [a] + [b] == [a, b];
    MergeAllSnoc([a, b], c);
    assert [a, b] + [c] == [a, b, c];
    MergeAllSnoc([a, b, c], d);
    assert [a, b, c] + [d] == [a, b, c, d];
    MergeAllSnoc([a, b, c, d], f);
    assert [a, b, c, d] + [f] == [a, b, c, d, f];
  }

  /** Merging one more hash onto a reduction is one more right-biased `merge`. */
  lemma {:induction false} MergeAllSnoc(sources: seq<Options>, last: Options)
    requires |sources| > 0
    ensures MergeAll(sources + [last]) == MergeAll(sources) + last
  {
  }
}
