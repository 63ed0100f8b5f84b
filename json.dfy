/** The shapes of the Gson values the components read: primitives, null,
    objects (whose members these reads never look at) and arrays. */
module Json {
  import opened Common

  /** A `JsonPrimitive`; a number keeps the text it was written as. */
  datatype JsonPrimitive = JBool(b: bool) | JNumber(text: string) | JString(s: string)

  /** A `JsonElement`. */
  datatype JsonValue = JPrim(p: JsonPrimitive) | JNull | JObject | JArray(elements: seq<JsonValue>)

  /** A named member of a `JsonObject`: absent, or present with a value
      (`has(name)` holds for a member whose value is null). */
  datatype Field = Missing | Present(v: JsonValue)

  /** `JsonPrimitive.getAsString()`. */
  function AsString(p: JsonPrimitive): string {
    match p
    case JBool(b) => if b then "true" else "false"
    case JNumber(t) => t
    case JString(s) => s
  }

  /** ASCII case-insensitive comparison with "true", as done by
      `Boolean.parseBoolean`. */
  predicate IsTrueIgnoringCase(s: string) {
    |s| == 4
    && (s[0] == 't' || s[0] == 'T') && (s[1] == 'r' || s[1] == 'R')
    && (s[2] == 'u' || s[2] == 'U') && (s[3] == 'e' || s[3] == 'E')
  }

  /** `JsonPrimitive.getAsBoolean()`: a boolean is itself, anything else is
      `Boolean.parseBoolean(getAsString())`, which is false for the text of
      a number. */
  function AsBoolean(p: JsonPrimitive): bool {
    match p
    case JBool(b) => b
    case JNumber(_) => false
    case JString(s) => IsTrueIgnoringCase(s)
  }

  /** The primitive that the scalar reads of Gson (`getAsString`,
      `getAsBoolean`) reach: a primitive is read as itself, an array of
      exactly one element is read through that element, and anything else
      (null, an object, an array of another size) throws (`None`). */
  function SingleValue(v: JsonValue): Option<JsonPrimitive> {
    match v
    case JPrim(p) => Some(p)
    case JArray(es) => if |es| == 1 then SingleValue(es[0]) else None
    case _ => None
  }

  /** `p` wrapped in `n` one-element arrays. */
  function Nested(p: JsonPrimitive, n: nat): JsonValue {
    if n == 0 then JPrim(p) else JArray([Nested(p, n - 1)])
  }

  /** The scalar reads succeed exactly on a primitive nested in one-element
      arrays, and then they read that primitive. */
  lemma {:induction false} SingleValueIsNested(v: JsonValue, p: JsonPrimitive)
    ensures SingleValue(v) == Some(p) <==> exists n: nat :: v == Nested(p, n)
  {
    match v
    case JPrim(q) =>
      if q == p {
        assert v == Nested(p, 0);
      }
      forall n: nat | v == Nested(p, n) ensures q == p {
        assert n == 0;
      }
    case JArray(es) =>
      if |es| == 1 {
        SingleValueIsNested(es[0], p);
        if SingleValue(v) == Some(p) {
          var n: nat :| es[0] == Nested(p, n);
          assert v == Nested(p, n + 1);
        }
      }
      forall n: nat | v == Nested(p, n) ensures SingleValue(v) == Some(p) {
        assert n > 0 && es == [Nested(p, n - 1)];
        NestedReads(p, n - 1);
      }
    case _ =>
      forall n: nat ensures v != Nested(p, n) {}
  }

  /** Reading a nested primitive reads the primitive. */
  lemma {:induction false} NestedReads(p: JsonPrimitive, n: nat)
    ensures SingleValue(Nested(p, n)) == Some(p)
  {
    if n > 0 {
      NestedReads(p, n - 1);
    }
  }

  /** `JsonElement.getAsString()`; `None` is the exception it throws. */
  function GetAsString(v: JsonValue): (r: Option<string>)
    ensures r.Some? <==> SingleValue(v).Some?
    ensures v.JPrim? ==> r == Some(AsString(v.p))
  {
    match SingleValue(v)
    case Some(p) => Some(AsString(p))
    case None => None
  }

  /** `JsonElement.getAsBoolean()`; `None` is the exception it throws. */
  function GetAsBoolean(v: JsonValue): (r: Option<bool>)
    ensures r.Some? <==> SingleValue(v).Some?
    ensures v.JPrim? ==> r == Some(AsBoolean(v.p))
  {
    match SingleValue(v)
    case Some(p) => Some(AsBoolean(p))
    case None => None
  }

  /** A present member whose string read throws. */
  predicate ReadThrows(f: Field) {
    f.Present? && GetAsString(f.v).None?
  }

  /** The text of a present member whose string read succeeds. */
  function TextOf(f: Field): string
    requires f.Present? && !ReadThrows(f)
  {
    GetAsString(f.v).value
  }
}
