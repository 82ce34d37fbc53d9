/** The zod building blocks the schemas are made of, as explicit parsers of
    one field of a raw object. A failure names the field it rejects. */
module Zod {
  import opened Wrappers
  import opened Js

  /** `z.string()`: the field must be present and a string. */
  function RequiredString(q: RawQuery, field: string): (r: Result<string, Failure>)
    ensures r.Ok? <==> Get(q, field).Some? && Get(q, field).value.JString?
    ensures r.Ok? ==> Get(q, field) == Some(JString(r.value))
  {
    match Get(q, field)
    case Some(JString(s)) => Ok(s)
    case _ => Err(Invalid(field))
  }

  /** `z.string().optional()`: absent, or a string. */
  function OptionalString(q: RawQuery, field: string): (r: Result<Option<string>, Failure>)
    ensures r.Ok? <==> Get(q, field).None? || Get(q, field).value.JString?
    ensures r == Ok(None) <==> Get(q, field).None?
    ensures forall s :: r == Ok(Some(s)) <==> Get(q, field) == Some(JString(s))
  {
    match Get(q, field)
    case None => Ok(None)
    case Some(JString(s)) => Ok(Some(s))
    case _ => Err(Invalid(field))
  }

  /** `z.enum(values)`: a present string that is one of `values`. */
  function RequiredEnum(q: RawQuery, field: string, values: seq<string>): (r: Result<string, Failure>)
    ensures r.Ok? ==> r.value in values && Get(q, field) == Some(JString(r.value))
    ensures forall s :: Get(q, field) == Some(JString(s)) && s in values ==> r == Ok(s)
  {
    match Get(q, field)
    case Some(JString(s)) => if s in values then Ok(s) else Err(Invalid(field))
    case _ => Err(Invalid(field))
  }

  /** `z.enum(values).optional()`. */
  function OptionalEnum(q: RawQuery, field: string, values: seq<string>): (r: Result<Option<string>, Failure>)
    ensures r == Ok(None) <==> Get(q, field).None?
    ensures forall s :: r == Ok(Some(s)) <==> Get(q, field) == Some(JString(s)) && s in values
  {
    match Get(q, field)
    case None => Ok(None)
    case Some(JString(s)) => if s in values then Ok(Some(s)) else Err(Invalid(field))
    case _ => Err(Invalid(field))
  }

  /** `z.enum(values).optional().default(d)`: `d` only when the field is absent. */
  function EnumOrDefault(q: RawQuery, field: string, values: seq<string>, d: string): (r: Result<string, Failure>)
    requires d in values
    ensures Get(q, field).None? ==> r == Ok(d)
    ensures r.Ok? ==> r.value in values
    ensures forall s :: Get(q, field) == Some(JString(s)) ==> (r.Ok? <==> s in values) && (r.Ok? ==> r.value == s)
  {
    match OptionalEnum(q, field, values)
    case Ok(None) => Ok(d)
    case Ok(Some(s)) => Ok(s)
    case Err(e) => Err(e)
  }

  /** `z.boolean().optional().default(d)`. */
  function BoolOrDefault(q: RawQuery, field: string, d: bool): (r: Result<bool, Failure>)
    ensures Get(q, field).None? ==> r == Ok(d)
    ensures forall b :: Get(q, field) == Some(JBool(b)) ==> r == Ok(b)
    ensures r.Ok? ==> Get(q, field).None? || Get(q, field).value.JBool?
  {
    match Get(q, field)
    case None => Ok(d)
    case Some(JBool(b)) => Ok(b)
    case _ => Err(Invalid(field))
  }

  /** A boolean field as a query string carries it: a JSON boolean, or the
      text `true` or `false` that serialising a boolean produces; `d` when the
      field is absent. Any other text is rejected, `"false"` included among
      the accepted ones (unlike `Boolean(text)`). */
  function BoolTextOrDefault(q: RawQuery, field: string, d: bool): (r: Result<bool, Failure>)
    ensures Get(q, field).None? ==> r == Ok(d)
    ensures forall b :: Get(q, field) == Some(JBool(b)) ==> r == Ok(b)
    ensures forall b :: Get(q, field) == Some(JString(BoolText(b))) ==> r == Ok(b)
    ensures r.Ok? ==> || Get(q, field).None? || Get(q, field).value.JBool?
                      || Get(q, field) == Some(JString(BoolText(r.value)))
  {
    match Get(q, field)
    case None => Ok(d)
    case Some(JBool(b)) => Ok(b)
    case Some(JString(s)) =>
      if s == "true" then Ok(true) else if s == "false" then Ok(false) else Err(Invalid(field))
    case _ => Err(Invalid(field))
  }
}
