/**
 * The values `response.json()` decodes an API answer into, with the parts of
 * Python's semantics the bot relies on: truthiness, `dict.get`, `str()` and `repr()`.
 */
module PyValues {

  /**
   * A decoded JSON value. An object keeps its members in the order of the
   * text, which is also the order Python's dict iterates in.
   */
  datatype Json =
    | JNull
    | JBool(b: bool)
    | JInt(i: int)
    | JStr(s: string)
    | JList(items: seq<Json>)
    | JDict(fields: seq<(string, Json)>)

  /** Python's `bool(v)`: exactly None, False, 0, '' and the empty list and dict are falsy. */
  predicate Truthy(v: Json)
    ensures !Truthy(v) <==> v in {JNull, JBool(false), JInt(0), JStr(""), JList([]), JDict([])}
  {
    match v
    case JNull => false
    case JBool(b) => b
    case JInt(i) => i != 0
    case JStr(s) => s != ""
    case JList(items) => items != []
    case JDict(fields) => fields != []
  }

  predicate HasKey(fields: seq<(string, Json)>, key: string) {
    exists i :: 0 <= i < |fields| && fields[i].0 == key
  }

  /**
   * `d.get(key)`: the value stored under `key`, None when there is none.
   * Of repeated keys the last one wins, as when Python's decoder builds the dict.
   */
  function Get(fields: seq<(string, Json)>, key: string): (v: Json)
    ensures !HasKey(fields, key) ==> v == JNull
    ensures HasKey(fields, key) ==>
      exists i :: 0 <= i < |fields| && fields[i] == (key, v) &&
                  forall j :: i < j < |fields| ==> fields[j].0 != key
  {
    if fields == [] then JNull
    else if fields[|fields| - 1].0 == key then fields[|fields| - 1].1
    else Get(fields[..|fields| - 1], key)
  }

  /** The name `type(v).__name__` gives. */
  function TypeName(v: Json): string {
    match v
    case JNull => "NoneType"
    case JBool(_) => "bool"
    case JInt(_) => "int"
    case JStr(_) => "str"
    case JList(_) => "list"
    case JDict(_) => "dict"
  }

  /** Python's `str(v)`: a string is itself, anything else its repr, which is never empty. */
  function Str(v: Json): (r: string)
    ensures v.JStr? ==> r == v.s
    ensures !v.JStr? ==> r == Repr(v) && r != ""
  {
    match v
    case JStr(s) => s
    case _ => Repr(v)
  }

  /** Python's `repr(v)`. */
  function Repr(v: Json): (r: string)
    ensures r != ""
    decreases v
  {
    match v
    case JNull => "None"
    case JBool(b) => if b then "True" else "False"
    case JInt(i) => Decimal(i)
    case JStr(s) => StrRepr(s)
    case JList(items) =>
      "[" + Join(seq(|items|, k requires 0 <= k < |items| => Repr(items[k]))) + "]"
    case JDict(fields) =>
      "{" + Join(seq(|fields|, k requires 0 <= k < |fields| =>
                       StrRepr(fields[k].0) + ": " + Repr(fields[k].1))) + "}"
  }

  /** `', '.join(parts)` */
  function Join(parts: seq<string>): string {
    if parts == [] then ""
    else if |parts| == 1 then parts[0]
    else parts[0] + ", " + Join(parts[1..])
  }

  /** The decimal numeral Python prints for an integer. */
  function Decimal(i: int): string {
    if i < 0 then "-" + Digits(-i) else Digits(i)
  }

  function Digits(n: nat): (r: string)
    ensures |r| >= 1
    decreases n
  {
    if n < 10 then [DigitChar(n)] else Digits(n / 10) + [DigitChar(n % 10)]
  }

  function DigitChar(d: nat): char
    requires d < 16
  {
    "0123456789abcdef"[d]
  }

  /**
   * `repr` of a str: single quotes, or double quotes when the text holds a
   * single quote and no double quote; backslash, the chosen quote, tab, newline
   * and carriage return are escaped, and the other control characters are
   * written `\xhh`.
   */
  function StrRepr(s: string): string {
    var quote := if '\'' in s && '"' !in s then '"' else '\'';
    [quote] + Escape(s, quote) + [quote]
  }

  function Escape(s: string, quote: char): string {
    if s == [] then "" else EscapeChar(s[0], quote) + Escape(s[1..], quote)
  }

  function EscapeChar(c: char, quote: char): string {
    if c == quote || c == '\\' then ['\\', c]
    else if c == '\t' then "\\t"
    else if c == '\n' then "\\n"
    else if c == '\r' then "\\r"
    else if c as int < 0x20 || 0x7f <= c as int < 0xa0 then
      "\\x" + [DigitChar(c as int / 16), DigitChar(c as int % 16)]
    else [c]
  }
}
