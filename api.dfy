/**
 * The request/response vocabulary shared by the serializers and views:
 * HTTP methods, the error responses Django REST framework produces, and the
 * primitive values a serializer puts into a JSON object.
 */
module Api {

  /** The HTTP methods a request can carry. */
  datatype Method = GET | HEAD | OPTIONS | POST | PUT | PATCH | DELETE

  /** Django REST framework's SAFE_METHODS: the read-only methods. */
  const SafeMethods: set<Method> := {GET, HEAD, OPTIONS}

  const AllMethods: set<Method> := {GET, HEAD, OPTIONS, POST, PUT, PATCH, DELETE}

  predicate IsSafe(m: Method) {
    m in SafeMethods
  }

  lemma AllMethodsComplete(m: Method)
    ensures m in AllMethods
    ensures IsSafe(m) <==> !(m == POST || m == PUT || m == PATCH || m == DELETE)
  {
  }

  /**
   * The error responses: a permission check that failed (403), a lookup that
   * found nothing (404) and a serializer validation error (400), which maps
   * each field in error to its message ("non_field_errors" for errors raised
   * in validate()).
   */
  datatype ApiError =
    | Forbidden
    | NotFound
    | ValidationError(errors: map<string, string>)

  /** A primitive value inside a serialized JSON object. A datetime is kept as its instant. */
  datatype Value = Int(i: int) | Bool(b: bool) | Str(s: string) | Null | Time(t: int)

  /** A serialized object: field name to value. */
  type Object = map<string, Value>

  /** The set of names listed in a serializer's `fields`. */
  function FieldSet(fields: seq<string>): (r: set<string>)
    ensures forall f :: f in r <==> f in fields
  {
    set f | f in fields
  }
}
