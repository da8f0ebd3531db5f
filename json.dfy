/** Decoded JSON as the integration sees it after `response.json()`: Python
    `None`, `bool`, `int`, `str`, `list` and `dict`, with the three Python
    idioms the code relies on — truthiness (`if not x`, `all([...])`),
    `dict.get(key, default)` and `str()` inside f-strings. */
module Json {
  import opened PyStr

  datatype JValue =
    | JNull
    | JBool(b: bool)
    | JNum(n: int)
    | JStr(s: string)
    | JList(items: seq<JValue>)
    | JObj(fields: map<string, JValue>)

  /** The `{}` default of `.get(key, {})`. */
  const EmptyObj: JValue := JObj(map[])

  /** The `[]` default of `.get(key, [])`. */
  const EmptyList: JValue := JList([])

  /** Python truthiness: None, False, 0, "", [] and {} are falsy. */
  predicate Truthy(v: JValue)
  {
    match v
    case JNull => false
    case JBool(b) => b
    case JNum(n) => n != 0
    case JStr(s) => |s| > 0
    case JList(xs) => |xs| > 0
    case JObj(m) => |m| > 0
  }

  /** `d.get(key, default)` on a dict `d`: a key that is present yields its
      value, even when that value is JSON null. */
  function Get(d: map<string, JValue>, key: string, default: JValue): JValue
  {
    if key in d then d[key] else default
  }

  /** Lists and dicts cannot be set members or dict keys in Python (TypeError). */
  predicate Hashable(v: JValue)
  {
    !v.JList? && !v.JObj?
  }

  /** `str(v)`, which is what an f-string placeholder renders. */
  function Str(v: JValue): string
  {
    match v
    case JNull => "None"
    case JBool(b) => if b then "True" else "False"
    case JNum(n) => IntToString(n)
    case JStr(s) => s
    case JList(_) => "[...]"
    case JObj(_) => "{...}"
  }
}
