/** SQL's three-valued conditions over nullable columns. A `WHERE` keeps the rows that are True. */
module Sql {
  import opened Common

  datatype Truth = True | False | Unknown

  function Equals<T(==)>(a: Option<T>, b: Option<T>): Truth {
    if a.None? || b.None? then Unknown else if a.value == b.value then True else False
  }

  function Or(a: Truth, b: Truth): Truth {
    if a.True? || b.True? then True else if a.False? && b.False? then False else Unknown
  }

  function And(a: Truth, b: Truth): Truth {
    if a.False? || b.False? then False else if a.True? && b.True? then True else Unknown
  }

  /** `a IN (SELECT ...)`, where the selected column is `NOT NULL`. */
  function In<T(==)>(a: Option<T>, s: set<T>): Truth {
    if s == {} then False else if a.None? then Unknown else if a.value in s then True else False
  }
}
