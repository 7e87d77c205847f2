/** JSON values as they travel in request bodies and in the serialised plan, and the
    text `JSON.stringify` produces for them. Numbers are integers: the schema only
    stores index directions in them. */
module JsonValues {
  import opened JsValues

  datatype Json =
    | JBool(b: bool)
    | JNum(n: int)
    | JStr(s: string)
    | JObj(members: seq<(string, Json)>)

  /** The marker `{ __op: 'Delete' }` that asks the server to remove what it stands for. */
  const DeleteOp: Json := JObj([("__op", JStr("Delete"))])

  /** The member `key` of an object value, or `undefined`. */
  function Member(j: Json, key: string): Option<Json> {
    if j.JObj? then Get(j.members, key) else None
  }

  /** A property whose value may be `undefined`: such a property is absent from the
      serialised object, as `JSON.stringify` and the HTTP client leave it out. */
  function Optional(key: string, value: Option<Json>): seq<(string, Json)> {
    if value.Some? then [(key, value.value)] else []
  }

  function HexDigit(d: int): char
    requires 0 <= d < 16
  {
    "0123456789abcdef"[d]
  }

  /** How `JSON.stringify` writes one character inside a string literal. */
  function EscapeChar(c: char): string {
    var n := c as int;
    if c == '"' then "\\\""
    else if c == '\\' then "\\\\"
    else if n == 8 then "\\b"
    else if n == 9 then "\\t"
    else if n == 10 then "\\n"
    else if n == 12 then "\\f"
    else if n == 13 then "\\r"
    else if n < 32 then "\\u00" + [HexDigit(n / 16), HexDigit(n % 16)]
    else [c]
  }

  function EscapeString(s: string): string {
    if s == [] then "" else EscapeChar(s[0]) + EscapeString(s[1..])
  }

  /** A string as a JSON string literal. */
  function Quote(s: string): string {
    "\"" + EscapeString(s) + "\""
  }

  /** `JSON.stringify(j)`. */
  function Stringify(j: Json): string
    decreases j
  {
    match j
    case JBool(b) => if b then "true" else "false"
    case JNum(n) => IntToDecimal(n)
    case JStr(s) => Quote(s)
    case JObj(ms) =>
      "{" + Join(seq(|ms|, i requires 0 <= i < |ms| =>
                      assert ms[i] in ms; Quote(ms[i].0) + ":" + Stringify(ms[i].1)), ",") + "}"
  }
}
