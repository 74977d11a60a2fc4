/**
 * camelCase to snake_case: `str.replace(/([A-Z])/g, '_$1').toLowerCase().replace(/^_/, '')`.
 * Both generators carry this exact function; one definition serves both.
 */
module Naming {
  import opened Ascii

  /** `replace(/([A-Z])/g, '_$1')`: an underscore before every ASCII capital. */
  function Underscored(s: string): (r: string)
    ensures |r| >= |s|
  {
    if s == [] then [] else (if IsUpper(s[0]) then ['_', s[0]] else [s[0]]) + Underscored(s[1..])
  }

  /** `replace(/^_/, '')`: drops one leading underscore, if there is one. */
  function StripLeadingUnderscore(s: string): string
  {
    if |s| > 0 && s[0] == '_' then s[1..] else s
  }

  function ToSnakeCase(s: string): (r: string)
    ensures HasNoUpper(r)
  {
    StripLeadingUnderscore(Lower(Underscored(s)))
  }

  lemma {:induction false} UnderscoredAppend(a: string, b: string)
    ensures Underscored(a + b) == Underscored(a) + Underscored(b)
  {
    if a == [] {
      assert a + b == b;
    } else {
      assert (a + b)[0] == a[0] && (a + b)[1..] == a[1..] + b;
      UnderscoredAppend(a[1..], b);
    }
  }

  lemma {:induction false} UnderscoredWithoutUpper(s: string)
    requires HasNoUpper(s)
    ensures Underscored(s) == s
  {
    if s != [] {
      UnderscoredWithoutUpper(s[1..]);
    }
  }

  /** A name that is already lower snake case and does not start with `_` is left as it is. */
  lemma SnakeCaseFixesLowerNames(s: string)
    requires HasNoUpper(s)
    requires s == [] || s[0] != '_'
    ensures ToSnakeCase(s) == s
  {
    UnderscoredWithoutUpper(s);
    LowerWithoutUpper(s);
  }

  /** Snake-casing twice changes nothing exactly when the first result does not start with `_`. */
  lemma SnakeCaseIdempotent(s: string)
    ensures ToSnakeCase(ToSnakeCase(s)) == ToSnakeCase(s) <==> (ToSnakeCase(s) == [] || ToSnakeCase(s)[0] != '_')
  {
    var t := ToSnakeCase(s);
    if t == [] || t[0] != '_' {
      SnakeCaseFixesLowerNames(t);
    } else {
      UnderscoredWithoutUpper(t);
      LowerWithoutUpper(t);
      assert |ToSnakeCase(t)| == |t| - 1;
    }
  }

  /** Idempotence fails when only one of two leading underscores is stripped. */
  lemma SnakeCaseNotIdempotent()
    ensures ToSnakeCase("__a") == "_a"
    ensures ToSnakeCase("_a") == "a"
  {
    assert Underscored("__a") == "__a" by {
      UnderscoredWithoutUpper("__a");
    }
    assert Underscored("_a") == "_a" by {
      UnderscoredWithoutUpper("_a");
    }
    LowerWithoutUpper("__a");
    LowerWithoutUpper("_a");
  }

  /** Two different names can share a snake case: `aB` and `a_b` both become `a_b`. */
  lemma SnakeCaseNotInjective()
    ensures "aB" != "a_b"
    ensures ToSnakeCase("aB") == "a_b"
    ensures ToSnakeCase("a_b") == "a_b"
  {
    assert Underscored("B") == "_B";
    UnderscoredAppend("a", "B");
    assert "aB" == "a" + "B";
    UnderscoredWithoutUpper("a");
    assert Lower("a_B") == "a_b";
    SnakeCaseFixesLowerNames("a_b");
  }

  /**
   * The foreign-key column `${parent}_id`, snake-cased, is the snake-cased parent
   * followed by `_id`, whenever the parent name is not empty.
   */
  lemma SnakeCaseAppendId(parent: string)
    requires parent != ""
    ensures ToSnakeCase(parent + "_id") == ToSnakeCase(parent) + "_id"
  {
    UnderscoredAppend(parent, "_id");
    UnderscoredWithoutUpper("_id");
    var u := Underscored(parent);
    LowerAppend(u, "_id");
    LowerWithoutUpper("_id");
    assert |Lower(u)| > 0;
    assert (Lower(u) + "_id")[0] == Lower(u)[0];
    if Lower(u)[0] == '_' {
      assert (Lower(u) + "_id")[1..] == Lower(u)[1..] + "_id";
    }
  }

  /** With an empty parent name the foreign-key column collapses to `id`. */
  lemma SnakeCaseEmptyParentId()
    ensures ToSnakeCase("" + "_id") == "id"
  {
    assert "" + "_id" == "_id";
    UnderscoredWithoutUpper("_id");
    LowerWithoutUpper("_id");
    assert "_id"[1..] == "id";
  }
}
