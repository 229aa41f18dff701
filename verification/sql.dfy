/**
 * SQL value semantics used by the dashboard backend: nullable column values,
 * the three-valued logic of comparisons against NULL, JavaScript truthiness of
 * request fields (the `x || null` coercions of the insert routes), and the
 * orderings that the queries' ORDER BY clauses use.
 */
module SqlValues {

  /** A nullable column value: `None` is SQL NULL. */
  datatype Option<+T> = None | Some(value: T)

  /** The truth values of SQL predicates: comparing against NULL gives Unknown. */
  datatype Truth = True | False | Unknown

  /** Kleene conjunction, as SQL's AND. */
  function And(x: Truth, y: Truth): (t: Truth)
    ensures t == True <==> x == True && y == True
    ensures t == False <==> x == False || y == False
  {
    if x == False || y == False then False
    else if x == True && y == True then True
    else Unknown
  }

  /** Kleene disjunction, as SQL's OR. */
  function Or(x: Truth, y: Truth): (t: Truth)
    ensures t == True <==> x == True || y == True
    ensures t == False <==> x == False && y == False
  {
    if x == True || y == True then True
    else if x == False && y == False then False
    else Unknown
  }

  function FromBool(b: bool): Truth {
    if b then True else False
  }

  /** `a <= b` for a nullable numeric column `a`. */
  function AtMost(a: Option<real>, b: real): (t: Truth)
    ensures t == Unknown <==> a.None?
    ensures t == True <==> a.Some? && a.value <= b
  {
    if a.None? then Unknown else FromBool(a.value <= b)
  }

  /** `a >= b` for a nullable numeric column `a`. */
  function AtLeast(a: Option<real>, b: real): (t: Truth)
    ensures t == Unknown <==> a.None?
    ensures t == True <==> a.Some? && a.value >= b
  {
    if a.None? then Unknown else FromBool(a.value >= b)
  }

  /** `a BETWEEN lo AND hi`, which SQL defines as `a >= lo AND a <= hi`. */
  function Between(a: Option<real>, lo: real, hi: real): (t: Truth)
    ensures t == True <==> a.Some? && lo <= a.value <= hi
    ensures t == Unknown <==> a.None?
  {
    And(AtLeast(a, lo), AtMost(a, hi))
  }

  /** `a = b` for a nullable text column `a` and a literal `b`. */
  function TextEq(a: Option<string>, b: string): (t: Truth)
    ensures t == True <==> a == Some(b)
    ensures t == Unknown <==> a.None?
  {
    if a.None? then Unknown else FromBool(a.value == b)
  }

  /** `a IN (b, c)`, which SQL defines as `a = b OR a = c`. */
  function InPair(a: Option<string>, b: string, c: string): (t: Truth)
    ensures t == True <==> a == Some(b) || a == Some(c)
    ensures t == Unknown <==> a.None?
  {
    Or(TextEq(a, b), TextEq(a, c))
  }

  // ---------------------------------------------------------------------
  // JavaScript truthiness of request-body fields
  // ---------------------------------------------------------------------

  /** A text field of a JSON body is truthy when present, non-null and non-empty. */
  predicate TruthyText(v: Option<string>) {
    v.Some? && v.value != ""
  }

  /** A numeric field of a JSON body is truthy when present, non-null and non-zero. */
  predicate TruthyNum(v: Option<real>) {
    v.Some? && v.value != 0.0
  }

  /** `v || null` on a text field: a falsy value is stored as NULL. */
  function TextOrNull(v: Option<string>): (r: Option<string>)
    ensures r.Some? <==> TruthyText(v)
    ensures r.Some? ==> r == v
    ensures r != Some("")
  {
    if TruthyText(v) then v else None
  }

  /** `v || null` on a numeric field: a falsy value (absent, null or 0) is stored as NULL. */
  function NumOrNull(v: Option<real>): (r: Option<real>)
    ensures r.Some? <==> TruthyNum(v)
    ensures r.Some? ==> r == v
    ensures r != Some(0.0)
  {
    if TruthyNum(v) then v else None
  }

  /** `v || 0` on an integer field: absent, null and 0 all become 0. */
  function IntOrZero(v: Option<int>): (r: int)
    ensures v.Some? ==> r == v.value
    ensures v.None? ==> r == 0
  {
    if v.Some? && v.value != 0 then v.value else 0
  }

  // ---------------------------------------------------------------------
  // Orderings used by ORDER BY
  // ---------------------------------------------------------------------

  /** Lexicographic order of strings by character code. */
  predicate TextLe(a: string, b: string) {
    |a| == 0 || (|b| > 0 && (a[0] < b[0] || (a[0] == b[0] && TextLe(a[1..], b[1..]))))
  }

  /** Strictly before in lexicographic order. */
  predicate TextLt(a: string, b: string) {
    TextLe(a, b) && a != b
  }

  lemma {:induction false} TextLeTotal(a: string, b: string)
    ensures TextLe(a, b) || TextLe(b, a)
    decreases |a|
  {
    if |a| > 0 && |b| > 0 && a[0] == b[0] {
      TextLeTotal(a[1..], b[1..]);
    }
  }

  lemma {:induction false} TextLeTrans(a: string, b: string, c: string)
    requires TextLe(a, b) && TextLe(b, c)
    ensures TextLe(a, c)
    decreases |a|
  {
    if |a| > 0 && a[0] == b[0] && b[0] == c[0] {
      TextLeTrans(a[1..], b[1..], c[1..]);
    }
  }

  /** ORDER BY a nullable text column, ascending: MySQL sorts NULL first. */
  predicate NullableTextLe(a: Option<string>, b: Option<string>) {
    match (a, b)
    case (None, _) => true
    case (Some(_), None) => false
    case (Some(x), Some(y)) => TextLe(x, y)
  }

  lemma NullableTextLeTotal(a: Option<string>, b: Option<string>)
    ensures NullableTextLe(a, b) || NullableTextLe(b, a)
  {
    if a.Some? && b.Some? {
      TextLeTotal(a.value, b.value);
    }
  }

  /** ORDER BY a nullable timestamp, descending: MySQL sorts NULL last. */
  predicate NullableTimeDesc(a: Option<int>, b: Option<int>) {
    match (a, b)
    case (_, None) => true
    case (None, Some(_)) => false
    case (Some(x), Some(y)) => x >= y
  }

  /** ORDER BY a nullable number, descending: MySQL sorts NULL last. */
  predicate NullableNumDesc(a: Option<real>, b: Option<real>) {
    match (a, b)
    case (_, None) => true
    case (None, Some(_)) => false
    case (Some(x), Some(y)) => x >= y
  }
}
