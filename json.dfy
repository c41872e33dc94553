/** JSON values as Python's `json` module and pydantic hand them to the core:
    webhook payloads, rendered Feishu cards and the `meta` of channel events.
    Numbers are integers only. Objects keep key order. */
module JsonValues {
  import opened Common
  import opened Dicts

  datatype Json =
    | JNull
    | JBool(b: bool)
    | JInt(n: int)
    | JStr(s: string)
    | JArr(items: seq<Json>)
    | JObj(fields: Dict<Json>)

  /** Python truthiness of a decoded JSON value. */
  predicate Truthy(j: Json) {
    match j
    case JNull => false
    case JBool(b) => b
    case JInt(n) => n != 0
    case JStr(s) => s != ""
    case JArr(a) => a != []
    case JObj(o) => o != []
  }

  /** The outcome of a Python expression that may raise. */
  datatype Outcome<T> = Value(value: T) | Raised

  /** `obj.get(key, default)`: raises unless `obj` is a dict. */
  function PyGet(obj: Json, key: string, default: Json): (r: Outcome<Json>)
    ensures r.Raised? <==> !obj.JObj?
    ensures obj.JObj? && key !in Keys(obj.fields) ==> r == Value(default)
  {
    match obj
    case JObj(o) => Value(GetOr(o, key, default))
    case _ => Raised
  }

  /** A dict of strings (pydantic's `dict[str, str]`), or None if `j` is not one. */
  function AsStringDict(j: Json): (r: Option<Dict<string>>)
    ensures r.Some? ==> j.JObj? && Keys(r.value) == Keys(j.fields)
  {
    match j
    case JObj(o) =>
      if forall i :: 0 <= i < |o| ==> o[i].1.JStr? then
        Some(seq(|o|, i requires 0 <= i < |o| => (o[i].0, o[i].1.s)))
      else None
    case _ => None
  }

  // ---------------------------------------------------------------- str()

  /** The quote Python's `repr` puts around a string: a double quote when the
      text holds a single quote and no double quote, else a single quote. */
  function ReprQuote(s: string): (q: char)
    ensures q == '\'' || q == '"'
    ensures q in s ==> q == '\'' && '"' in s
  {
    if '\'' in s && '"' !in s then '"' else '\''
  }

  /** One character of a string's `repr` between quotes `q`: the backslash and
      the quote are escaped, so are newline, carriage return and tab, and the
      other control characters (C0, DEL and C1) are written `\xNN`. */
  function ReprChar(c: char, q: char): (r: string)
    ensures |r| >= 1
    ensures r == [c] || r[0] == '\\'
  {
    if c == '\\' then "\\\\"
    else if c == q then ['\\', q]
    else if c == '\n' then "\\n"
    else if c == '\r' then "\\r"
    else if c == '\t' then "\\t"
    else if c as int < 0x20 || 0x7F <= c as int <= 0xA0 then
      ['\\', 'x', HexDigit(c as int / 16), HexDigit(c as int % 16)]
    else [c]
  }

  function ReprBody(s: string, q: char): (r: string)
    ensures |r| >= |s|
  {
    if s == [] then [] else ReprChar(s[0], q) + ReprBody(s[1..], q)
  }

  /** `repr(s)` of a string, as `str` shows it inside a list or a dict. */
  function ReprStr(s: string): (r: string)
    ensures |r| >= |s| + 2
    ensures r[0] == r[|r| - 1] == ReprQuote(s)
  {
    [ReprQuote(s)] + ReprBody(s, ReprQuote(s)) + [ReprQuote(s)]
  }

  /** `repr(j)` of a decoded JSON value. */
  function PyRepr(j: Json): (r: string)
    ensures |r| >= 1
  {
    match j
    case JNull => "None"
    case JBool(b) => if b then "True" else "False"
    case JInt(n) => IntToString(n)
    case JStr(s) => ReprStr(s)
    case JArr(a) => "[" + Join(", ", seq(|a|, i requires 0 <= i < |a| => PyRepr(a[i]))) + "]"
    case JObj(o) => "{" + Join(", ", seq(|o|, i requires 0 <= i < |o| => ReprStr(o[i].0) + ": " + PyRepr(o[i].1))) + "}"
  }

  /** `str(j)`: a string is itself, anything else is its `repr`. This is what
      an f-string such as `f"[{source}] {title}"` shows for a value. */
  function PyStr(j: Json): string {
    if j.JStr? then j.s else PyRepr(j)
  }

  /** A value that is not a string never prints as the empty string, and the
      first character of its text says which kind of value it was. */
  lemma PyStrKinds(j: Json)
    ensures !j.JStr? ==> PyStr(j) != ""
    ensures PyStr(j) != "" && !j.JStr? ==>
      (PyStr(j)[0] == '[' <==> j.JArr?) && (PyStr(j)[0] == '{' <==> j.JObj?)
      && (PyStr(j)[0] == 'N' <==> j.JNull?) && (j.JBool? <==> PyStr(j)[0] in {'T', 'F'})
      && (j.JInt? <==> PyStr(j)[0] == '-' || '0' <= PyStr(j)[0] <= '9')
  {
    if j.JInt? {
      if j.n >= 0 {
        assert PyStr(j)[0] == NatToString(j.n)[0];
      }
    }
  }

  /** Text of printable ASCII with neither quote nor backslash is shown
      verbatim between single quotes. */
  lemma {:induction false} ReprPlainText(s: string)
    requires forall i :: 0 <= i < |s| ==> 0x20 <= s[i] as int < 0x7F && s[i] !in "'\"\\"
    ensures ReprStr(s) == "'" + s + "'"
  {
    ReprBodyPlain(s, '\'');
  }

  lemma {:induction false} ReprBodyPlain(s: string, q: char)
    requires q == '\'' || q == '"'
    requires forall i :: 0 <= i < |s| ==> 0x20 <= s[i] as int < 0x7F && s[i] !in "'\"\\"
    ensures ReprBody(s, q) == s
  {
    if s != [] {
      ReprBodyPlain(s[1..], q);
    }
  }
}
