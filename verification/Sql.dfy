/** SQL's three-valued logic, as far as the schema's CHECK expressions use it. */
module Sql {
  import opened Prelude

  datatype Tri = True | False | Unknown

  function Of(b: bool): Tri {
    if b then True else False
  }

  function Not(a: Tri): Tri {
    match a
    case True => False
    case False => True
    case Unknown => Unknown
  }

  function And(a: Tri, b: Tri): Tri {
    if a == False || b == False then False
    else if a == True && b == True then True
    else Unknown
  }

  function Or(a: Tri, b: Tri): Tri {
    Not(And(Not(a), Not(b)))
  }

  /** `a = b` between two boolean expressions. */
  function Same(a: Tri, b: Tri): Tri {
    if a == Unknown || b == Unknown then Unknown else Of(a == b)
  }

  /** `e IS TRUE`, which is never unknown. */
  function IsTrue(a: Tri): Tri {
    Of(a == True)
  }

  function IsNull<T>(column: Option<T>): Tri {
    Of(column.None?)
  }

  function Equals<T(==)>(column: Option<T>, value: T): Tri {
    if column.None? then Unknown else Of(column.value == value)
  }

  function In<T(==)>(column: Option<T>, values: set<T>): Tri {
    if column.None? then Unknown else Of(column.value in values)
  }

  /** `a >= b`; unknown when either side is NULL. */
  function AtLeast(a: Option<real>, b: Option<real>): Tri {
    if a.None? || b.None? then Unknown else Of(a.value >= b.value)
  }

  function GreaterThan(a: Option<real>, b: Option<real>): Tri {
    if a.None? || b.None? then Unknown else Of(a.value > b.value)
  }

  function Sum(a: Option<real>, b: Option<real>): Option<real> {
    if a.None? || b.None? then None else Some(a.value + b.value)
  }

  /** A CHECK refuses a row only when its expression is FALSE; NULL passes. */
  predicate Passes(check: Tri) {
    check != False
  }
}
