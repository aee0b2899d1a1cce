/**
 * The scope concern mixed into tokens (Models::Scopes): a token holds its
 * scopes as a raw string, exposes the parsed set, and answers whether it
 * includes at least one of a list of wanted scopes.
 */
module Scopes {

  /** A parsed scope collection (OAuth::Scopes); `exists?` is membership. */
  type ScopeSet = set<string>

  /** `required.any? { |s| granted.exists?(s) }`. */
  function AnyGranted(granted: ScopeSet, required: seq<string>): (r: bool)
    ensures r <==> exists i :: 0 <= i < |required| && required[i] in granted
  {
    if |required| == 0 then false
    else required[0] in granted || AnyGranted(granted, required[1..])
  }

  /**
   * `includes_scope?(*required)`: vacuously true for no arguments, otherwise
   * true iff at least one wanted scope is granted (any-of, not all-of).
   */
  function IncludesScope(granted: ScopeSet, required: seq<string>): (r: bool)
    ensures |required| == 0 ==> r
    ensures |required| > 0 ==> (r <==> exists i :: 0 <= i < |required| && required[i] in granted)
  {
    |required| == 0 || AnyGranted(granted, required)
  }

  /** A single wanted scope is included exactly when it is granted. */
  lemma IncludesSingle(granted: ScopeSet, s: string)
    ensures IncludesScope(granted, [s]) <==> s in granted
  {
    assert [s][0] == s;
  }

  /** Asking for more scopes never turns a non-vacuous "yes" into "no". */
  lemma IncludesScopeMonotone(granted: ScopeSet, a: seq<string>, b: seq<string>)
    requires |a| > 0 && IncludesScope(granted, a)
    ensures IncludesScope(granted, a + b)
  {
    var i :| 0 <= i < |a| && a[i] in granted;
    assert (a + b)[i] == a[i];
  }

  /** The any-of test distributes over splitting the argument list. */
  lemma IncludesScopeConcat(granted: ScopeSet, a: seq<string>, b: seq<string>)
    requires |a| > 0 && |b| > 0
    ensures IncludesScope(granted, a + b) <==> IncludesScope(granted, a) || IncludesScope(granted, b)
  {
    if IncludesScope(granted, a + b) {
      var i :| 0 <= i < |a + b| && (a + b)[i] in granted;
      if i < |a| {
        assert a[i] == (a + b)[i];
      } else {
        assert b[i - |a|] == (a + b)[i];
      }
    }
    if IncludesScope(granted, b) {
      var j :| 0 <= j < |b| && b[j] in granted;
      assert (a + b)[|a| + j] == b[j];
    }
    if IncludesScope(granted, a) {
      IncludesScopeMonotone(granted, a, b);
    }
  }

  /** Only which scopes are wanted matters, not their order or repetition. */
  lemma IncludesScopeSameElements(granted: ScopeSet, a: seq<string>, b: seq<string>)
    requires |a| > 0 && |b| > 0
    requires forall s :: s in a <==> s in b
    ensures IncludesScope(granted, a) == IncludesScope(granted, b)
  {
    if IncludesScope(granted, a) {
      var i :| 0 <= i < |a| && a[i] in granted;
      assert a[i] in b;
    }
    if IncludesScope(granted, b) {
      var j :| 0 <= j < |b| && b[j] in granted;
      assert b[j] in a;
    }
  }
}
