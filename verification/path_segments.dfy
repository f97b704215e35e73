/**
 * Ruby's `path.split('/')[-1]`, used for the fallback array root name.
 * `String#split` with a separator and no limit keeps leading empty fields
 * but suppresses trailing ones, so `"/users/".split('/') == ["", "users"]` and
 * `"/".split('/') == []`, whose `[-1]` is `nil`.
 */
module PathSegments {
  import opened Wrappers

  /** Every field between `/` separators, empty ones included (n separators give n + 1 fields). */
  function Fields(s: string): (r: seq<string>)
    ensures |r| >= 1
  {
    if |s| == 0 then [""]
    else
      var init := Fields(s[..|s| - 1]);
      if s[|s| - 1] == '/' then init + [""]
      else init[..|init| - 1] + [init[|init| - 1] + [s[|s| - 1]]]
  }

  /** Drops the trailing empty fields, as `split` does when no limit is given. */
  function DropTrailingEmpty(xs: seq<string>): (r: seq<string>)
    ensures r <= xs
    ensures |r| == 0 || r[|r| - 1] != ""
    ensures forall i | |r| <= i < |xs| :: xs[i] == ""
  {
    if |xs| > 0 && xs[|xs| - 1] == "" then DropTrailingEmpty(xs[..|xs| - 1]) else xs
  }

  /** `s.split('/')`. */
  function Split(s: string): seq<string> {
    DropTrailingEmpty(Fields(s))
  }

  /** `s.split('/')[-1]`: the last element, or `nil` for an empty array. */
  function LastSegment(s: string): Option<string> {
    var parts := Split(s);
    if |parts| == 0 then None else Some(parts[|parts| - 1])
  }

  /** `s` with every trailing `/` removed. */
  function TrimTrailingSlashes(s: string): (t: string)
    ensures t <= s
    ensures |t| == 0 || t[|t| - 1] != '/'
    ensures forall i | |t| <= i < |s| :: s[i] == '/'
  {
    if |s| > 0 && s[|s| - 1] == '/' then TrimTrailingSlashes(s[..|s| - 1]) else s
  }

  /** The characters after the last `/` of `s` (all of `s` when it has none). */
  function AfterLastSlash(s: string): (t: string)
    ensures |t| <= |s| && t == s[|s| - |t|..]
    ensures forall i | 0 <= i < |t| :: t[i] != '/'
    ensures |t| < |s| ==> s[|s| - |t| - 1] == '/'
  {
    if |s| == 0 then ""
    else if s[|s| - 1] == '/' then ""
    else AfterLastSlash(s[..|s| - 1]) + [s[|s| - 1]]
  }

  /**
   * The intended reading of the last path segment, stated without splitting:
   * strip the trailing slashes, and if anything is left take what follows its last slash.
   */
  function LastSegmentSpec(s: string): Option<string> {
    var t := TrimTrailingSlashes(s);
    if |t| == 0 then None else Some(AfterLastSlash(t))
  }

  /** The last field of the unsuppressed split is whatever follows the last slash. */
  lemma {:induction false} LastFieldIsAfterLastSlash(s: string)
    ensures var f := Fields(s); f[|f| - 1] == AfterLastSlash(s)
  {
    if |s| > 0 && s[|s| - 1] != '/' {
      LastFieldIsAfterLastSlash(s[..|s| - 1]);
    }
  }

  /** `split('/')[-1]` agrees with the slash-trimming reading on every string. */
  lemma {:induction false} LastSegmentMatchesSpec(s: string)
    ensures LastSegment(s) == LastSegmentSpec(s)
  {
    if |s| == 0 {
    } else if s[|s| - 1] == '/' {
      var p := s[..|s| - 1];
      assert Fields(s) == Fields(p) + [""];
      DropTrailingEmptyOfEmptyLast(Fields(p));
      LastSegmentMatchesSpec(p);
    } else {
      LastFieldIsAfterLastSlash(s);
      var f := Fields(s);
      assert AfterLastSlash(s)[|AfterLastSlash(s)| - 1] == s[|s| - 1];
      assert f[|f| - 1] != "";
      assert Split(s) == f;
    }
  }

  /** One more empty field at the end is suppressed along with the others. */
  lemma DropTrailingEmptyOfEmptyLast(xs: seq<string>)
    ensures DropTrailingEmpty(xs + [""]) == DropTrailingEmpty(xs)
  {
  }

  /**
   * What the root name fallback can yield: `nil` exactly when the path is made only of
   * slashes (the empty path included), and otherwise a non-empty segment free of slashes
   * that ends the path once its trailing slashes are removed and is preceded by a slash
   * or by nothing.
   */
  lemma {:induction false} LastSegmentShape(s: string)
    ensures LastSegment(s).None? <==> forall i | 0 <= i < |s| :: s[i] == '/'
    ensures LastSegment(s).Some? ==>
      var x := LastSegment(s).value;
      && |x| > 0
      && (forall i | 0 <= i < |x| :: x[i] != '/')
      && (forall i | |TrimTrailingSlashes(s)| <= i < |s| :: s[i] == '/')
      && |x| <= |TrimTrailingSlashes(s)|
      && TrimTrailingSlashes(s)[|TrimTrailingSlashes(s)| - |x|..] == x
      && (|x| == |TrimTrailingSlashes(s)| ||
          TrimTrailingSlashes(s)[|TrimTrailingSlashes(s)| - |x| - 1] == '/')
  {
    LastSegmentMatchesSpec(s);
    var t := TrimTrailingSlashes(s);
    if |t| == 0 {
      assert LastSegment(s).None?;
    } else {
      var x := AfterLastSlash(t);
      assert LastSegment(s) == Some(x);
      assert x[|x| - 1] == t[|t| - 1] != '/';
      assert s[|t| - 1] == t[|t| - 1];
    }
  }
}
