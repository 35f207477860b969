/** The decoded API body as a Python value, and the few Python operations the core applies to it. */
module PyJson {
  import opened Wrappers
  import opened Errors

  /** A value produced by decoding a JSON body: None, a bool, an int, a str, a list or a dict. */
  datatype Json =
    | JNull
    | JBool(b: bool)
    | JInt(i: int)
    | JStr(s: string)
    | JList(items: seq<Json>)
    | JObject(fields: map<string, Json>)

  /** Python's name for the value's type, as it appears in TypeError texts. */
  function TypeName(j: Json): string
  {
    match j
    case JNull => "NoneType"
    case JBool(_) => "bool"
    case JInt(_) => "int"
    case JStr(_) => "str"
    case JList(_) => "list"
    case JObject(_) => "dict"
  }

  /** `needle` occurs in `hay` starting at index `i`. */
  predicate OccursAt(needle: string, hay: string, i: int)
  {
    0 <= i <= |hay| - |needle| && hay[i..i + |needle|] == needle
  }

  /** An occurrence after the first character of `hay` is an occurrence in its tail. */
  lemma OccursAtShift(needle: string, hay: string, i: int)
    requires hay != [] && 0 < i
    ensures OccursAt(needle, hay, i) <==> OccursAt(needle, hay[1..], i - 1)
  {
    if 0 < i <= |hay| - |needle| {
      assert hay[1..][i - 1..i - 1 + |needle|] == hay[i..i + |needle|];
    }
  }

  /** `needle in hay` for two Python strs: a substring test. */
  function IsSubstring(needle: string, hay: string): (r: bool)
    ensures r <==> exists i :: OccursAt(needle, hay, i)
    decreases |hay|
  {
    if needle <= hay then
      assert OccursAt(needle, hay, 0);
      true
    else if hay == [] then
      false
    else
      assert !OccursAt(needle, hay, 0);
      assert forall i :: 0 < i && OccursAt(needle, hay, i) ==> OccursAt(needle, hay[1..], i - 1) by {
        forall i | 0 < i { OccursAtShift(needle, hay, i); }
      }
      assert forall j :: OccursAt(needle, hay[1..], j) ==> OccursAt(needle, hay, j + 1) by {
        forall j | OccursAt(needle, hay[1..], j) { OccursAtShift(needle, hay, j + 1); }
      }
      IsSubstring(needle, hay[1..])
  }

  /** `key in container`: dict membership, substring test on a str, element test on a list;
      None, bools and ints are not containers and raise TypeError. */
  function Contains(container: Json, key: string): (r: Result<bool, Error>)
    ensures container.JObject? ==> r == Ok(key in container.fields)
    ensures container.JList? ==> r == Ok(JStr(key) in container.items)
    ensures container.JStr? ==> r == Ok(IsSubstring(key, container.s))
    ensures r.Err? <==> container.JNull? || container.JBool? || container.JInt?
  {
    match container
    case JObject(fields) => Ok(key in fields)
    case JStr(s) => Ok(IsSubstring(key, s))
    case JList(items) => Ok(JStr(key) in items)
    case _ => Err(NotIterable(TypeName(container)))
  }

  /** `fields.get(key)`: the value under `key`, or None when it is absent. */
  function DictGet(fields: map<string, Json>, key: string): Json
  {
    if key in fields then fields[key] else JNull
  }

  /** Every character of `r` is a decimal digit. */
  predicate AllDigits(r: string)
  {
    forall k :: 0 <= k < |r| ==> '0' <= r[k] <= '9'
  }

  /** The number a string of decimal digits denotes, most significant digit first. */
  function DecimalValue(r: string): nat
    requires AllDigits(r)
  {
    if r == [] then 0
    else DecimalValue(r[..|r| - 1]) * 10 + (r[|r| - 1] as int - '0' as int)
  }

  /** The decimal digits of a natural number, as `str` writes them: they denote `n`, and
      there is no leading zero except in "0" itself. */
  function Digits(n: nat): (r: string)
    ensures |r| > 0 && AllDigits(r)
    ensures DecimalValue(r) == n
    ensures r[0] == '0' ==> r == "0"
  {
    if n < 10 then [(('0' as int) + n) as char]
    else
      var r := Digits(n / 10) + [(('0' as int) + n % 10) as char];
      assert r[..|r| - 1] == Digits(n / 10);
      r
  }

  /** `str(value)` for the scalar values a homework name can hold. A list or dict name is
      rendered as the empty string: the model's dict does not keep Python's key order. */
  function PyStr(j: Json): (r: string)
    ensures j.JStr? ==> r == j.s
    ensures j.JNull? ==> r == "None"
    ensures j.JBool? ==> r == (if j.b then "True" else "False")
    // an int is written in decimal, with a minus sign exactly when it is negative
    ensures j.JInt? ==>
              |r| > 0 && (r[0] == '-' <==> j.i < 0) &&
              var digits := if j.i < 0 then r[1..] else r;
              |digits| > 0 && AllDigits(digits) && DecimalValue(digits) == (if j.i < 0 then -j.i else j.i) &&
              (digits[0] == '0' ==> digits == "0")
  {
    match j
    case JStr(s) => s
    case JNull => "None"
    case JBool(b) => if b then "True" else "False"
    case JInt(i) =>
      if i < 0 then
        var r := "-" + Digits(-i);
        assert r[1..] == Digits(-i);
        r
      else Digits(i)
    case _ => ""
  }
}
