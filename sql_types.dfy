/** Column-type inference for PostgreSQL: `inferPostgresType`, `isDateString` and `isUUID`. */
module SqlTypes {
  import opened Seqs
  import opened Ascii
  import opened JsonValues

  predicate IsDigit(c: char)
  {
    '0' <= c <= '9'
  }

  predicate IsHexDigit(c: char)
  {
    IsDigit(c) || 'a' <= c <= 'f' || 'A' <= c <= 'F'
  }

  /** `/^\d{4}-\d{2}-\d{2}/`: a year-month-day prefix. */
  predicate HasDatePrefix(s: string)
  {
    && |s| >= 10
    && IsDigit(s[0]) && IsDigit(s[1]) && IsDigit(s[2]) && IsDigit(s[3])
    && s[4] == '-'
    && IsDigit(s[5]) && IsDigit(s[6])
    && s[7] == '-'
    && IsDigit(s[8]) && IsDigit(s[9])
  }

  /**
   * `!isNaN(new Date(s).getTime())` is the engine's date parser, passed in as
   * `parsesAsDate`; the string must also start with a year-month-day prefix. The
   * pattern is anchored only at the start, so only the first ten characters are checked.
   */
  predicate IsDateString(s: string, parsesAsDate: string -> bool)
    ensures IsDateString(s, parsesAsDate) <==> parsesAsDate(s) && |s| >= 10 && HasDatePrefix(s[..10])
  {
    parsesAsDate(s) && HasDatePrefix(s)
  }

  predicate IsUuidDash(i: int)
  {
    i == 8 || i == 13 || i == 18 || i == 23
  }

  /**
   * `/^[0-9a-f]{8}-[0-9a-f]{4}-[0-9a-f]{4}-[0-9a-f]{4}-[0-9a-f]{12}$/i`. A UUID never has a
   * date prefix (index 4 is a hex digit, not a dash), so the order of the two string tests
   * is immaterial.
   */
  predicate IsUuid(s: string)
    ensures IsUuid(s) ==> |s| == 36 && !HasDatePrefix(s)
  {
    var r := |s| == 36 && forall i :: 0 <= i < 36 ==> if IsUuidDash(i) then s[i] == '-' else IsHexDigit(s[i]);
    assert r ==> !IsUuidDash(4) && IsHexDigit(s[4]);
    r
  }

  /**
   * A non-empty array is typed by its element 0 followed by `[]`; every other value gets
   * one of the scalar type names.
   */
  function InferPostgresType(v: Json, parsesAsDate: string -> bool): (r: string)
    ensures (v.JArr? && |v.elems| > 0) <==> EndsWith(r, "[]")
    ensures !(v.JArr? && |v.elems| > 0) ==> IsScalarType(r)
  {
    match v
    case JNull => "TEXT"
    case JStr(s) =>
      if IsDateString(s, parsesAsDate) then "TIMESTAMP"
      else if IsUuid(s) then "UUID"
      else if |s| > 255 then "TEXT"
      else "VARCHAR(255)"
    case JNum(x) => if IsInteger(x) then "INTEGER" else "DECIMAL(10,2)"
    case JBool(_) => "BOOLEAN"
    case JArr(xs) =>
      if |xs| > 0 then InferPostgresType(xs[0], parsesAsDate) + "[]" else "JSONB"
    case JObj(_) => "JSONB"
  }

  /** The type names a value that is not a non-empty array can get. */
  predicate IsScalarType(t: string)
  {
    t in {"TEXT", "TIMESTAMP", "UUID", "VARCHAR(255)", "INTEGER", "DECIMAL(10,2)", "BOOLEAN", "JSONB"}
  }

  /** Follows element 0 down through non-empty arrays. */
  function InnermostSample(v: Json): (r: Json)
    ensures !(r.JArr? && |r.elems| > 0)
  {
    if v.JArr? && |v.elems| > 0 then InnermostSample(v.elems[0]) else v
  }

  /** How many non-empty arrays `InnermostSample` passes through. */
  function ArrayDepth(v: Json): nat
  {
    if v.JArr? && |v.elems| > 0 then 1 + ArrayDepth(v.elems[0]) else 0
  }

  function Brackets(n: nat): string
  {
    if n == 0 then "" else Brackets(n - 1) + "[]"
  }

  /** Classification of a non-string value. */
  lemma NonStringTypes(v: Json, parsesAsDate: string -> bool)
    requires !v.JStr?
    ensures v.JNull? ==> InferPostgresType(v, parsesAsDate) == "TEXT"
    ensures v.JNum? ==> InferPostgresType(v, parsesAsDate) == (if IsInteger(v.n) then "INTEGER" else "DECIMAL(10,2)")
    ensures v.JBool? ==> InferPostgresType(v, parsesAsDate) == "BOOLEAN"
    ensures v.JObj? ==> InferPostgresType(v, parsesAsDate) == "JSONB"
    ensures v.JArr? && v.elems == [] ==> InferPostgresType(v, parsesAsDate) == "JSONB"
    ensures v.JArr? && v.elems != [] ==>
      InferPostgresType(v, parsesAsDate) == InferPostgresType(v.elems[0], parsesAsDate) + "[]"
  {
  }

  /** Strings are tried as a timestamp first, then as a UUID, then by length. */
  lemma StringTypes(s: string, parsesAsDate: string -> bool)
    ensures InferPostgresType(JStr(s), parsesAsDate) == "TIMESTAMP" <==> parsesAsDate(s) && HasDatePrefix(s)
    ensures InferPostgresType(JStr(s), parsesAsDate) == "UUID" <==> !IsDateString(s, parsesAsDate) && IsUuid(s)
    ensures InferPostgresType(JStr(s), parsesAsDate) == "VARCHAR(255)" <==>
      !IsDateString(s, parsesAsDate) && !IsUuid(s) && |s| <= 255
    ensures InferPostgresType(JStr(s), parsesAsDate) == "TEXT" <==>
      !IsDateString(s, parsesAsDate) && !IsUuid(s) && |s| > 255
  {
  }

  /** The `i` flag: a string is a UUID exactly when its lower-cased form is. */
  lemma UuidCaseInsensitive(s: string)
    ensures IsUuid(s) <==> IsUuid(Lower(s))
  {
    forall i | 0 <= i < |s|
      ensures IsHexDigit(s[i]) <==> IsHexDigit(Lower(s)[i])
      ensures s[i] == '-' <==> Lower(s)[i] == '-'
    {
      assert Lower(s)[i] == LowerChar(s[i]);
    }
  }

  /** The type of any value is the type of its innermost sample followed by one `[]` per array level. */
  lemma {:induction false} ArrayTypeNesting(v: Json, parsesAsDate: string -> bool)
    ensures InferPostgresType(v, parsesAsDate) ==
      InferPostgresType(InnermostSample(v), parsesAsDate) + Brackets(ArrayDepth(v))
    ensures IsScalarType(InferPostgresType(InnermostSample(v), parsesAsDate))
  {
    if v.JArr? && |v.elems| > 0 {
      ArrayTypeNesting(v.elems[0], parsesAsDate);
      var inner := InferPostgresType(InnermostSample(v), parsesAsDate);
      var d := ArrayDepth(v.elems[0]);
      assert Brackets(ArrayDepth(v)) == Brackets(d) + "[]";
      assert inner + Brackets(d) + "[]" == inner + (Brackets(d) + "[]");
    }
  }

  /** No inferred type ends in `L`, so it cannot be mistaken for the ` NOT NULL` suffix. */
  lemma TypeLastChar(v: Json, parsesAsDate: string -> bool)
    ensures |InferPostgresType(v, parsesAsDate)| > 0
    ensures InferPostgresType(v, parsesAsDate)[|InferPostgresType(v, parsesAsDate)| - 1] != 'L'
  {
  }
}
