/** The Python values that decoded JSON (and the program's own dict literals) are made of,
    with the Python operations the program applies to them: `str()` and `repr()`,
    `d.get(key, default)`, truthiness, `needle in value` and iteration. A dict is kept as
    its list of (key, value) pairs in insertion order, as Python keeps it. */
module Json {
  import opened Wrappers
  import Decimal
  import PyText

  datatype Value =
    | Null
    | Bool(b: bool)
    | Int(i: int)
    | Float(f: real)
    | Str(s: string)
    | List(items: seq<Value>)
    | Dict(entries: seq<(string, Value)>)

  /** `type(v).__name__`, as Python's error messages name it. */
  function TypeName(v: Value): string {
    match v
    case Null => "NoneType"
    case Bool(_) => "bool"
    case Int(_) => "int"
    case Float(_) => "float"
    case Str(_) => "str"
    case List(_) => "list"
    case Dict(_) => "dict"
  }

  /** The value stored under `key`: the first pair with that key. */
  function Lookup(entries: seq<(string, Value)>, key: string): (r: Option<Value>)
    ensures r.None? <==> forall k :: 0 <= k < |entries| ==> entries[k].0 != key
  {
    if entries == [] then None
    else if entries[0].0 == key then Some(entries[0].1)
    else Lookup(entries[1..], key)
  }

  predicate HasKey(entries: seq<(string, Value)>, key: string) {
    exists k :: 0 <= k < |entries| && entries[k].0 == key
  }

  /** `v.get(key, default)`: only a dict has `get`; anything else raises AttributeError. */
  function Get(v: Value, key: string, default: Value): (r: Result<Value>)
    ensures v.Dict? <==> r.Ok?
    ensures v.Dict? && !HasKey(v.entries, key) ==> r == Ok(default)
    ensures v.Dict? && HasKey(v.entries, key) ==> Lookup(v.entries, key).Some? && r == Ok(Lookup(v.entries, key).value)
  {
    if v.Dict? then Ok(Lookup(v.entries, key).GetOr(default))
    else Err("'" + TypeName(v) + "' object has no attribute 'get'")
  }

  /** `v[key]` for a string key: a dict raises KeyError (whose message is the key's repr) when the
      key is missing, and anything else raises TypeError. */
  function Subscript(v: Value, key: string): (r: Result<Value>)
    ensures r.Ok? <==> v.Dict? && HasKey(v.entries, key)
    ensures r.Ok? ==> Lookup(v.entries, key) == Some(r.value)
  {
    match v
    case Dict(entries) =>
      (match Lookup(entries, key)
       case Some(x) => Ok(x)
       case None => Err(QuoteStr(key)))
    case Str(_) => Err("string indices must be integers, not 'str'")
    case List(_) => Err("list indices must be integers or slices, not str")
    case _ => Err("'" + TypeName(v) + "' object is not subscriptable")
  }

  /** `[f(x) for x in xs]` where `f` may raise: the first element that raises ends it. */
  function MapResult<T>(xs: seq<Value>, f: Value -> Result<T>): (r: Result<seq<T>>)
    ensures r.Ok? <==> forall i :: 0 <= i < |xs| ==> f(xs[i]).Ok?
    ensures r.Ok? ==> |r.value| == |xs| && forall i :: 0 <= i < |xs| ==> f(xs[i]) == Ok(r.value[i])
    ensures r.Err? ==> exists i :: 0 <= i < |xs| && f(xs[i]) == Err(r.error) && forall j :: 0 <= j < i ==> f(xs[j]).Ok?
    decreases |xs|
  {
    if xs == [] then Ok([])
    else
      var head :- f(xs[0]);
      var tail :- MapResult(xs[1..], f);
      assert forall i :: 1 <= i < |xs| ==> xs[i] == xs[1..][i - 1];
      Ok([head] + tail)
  }

  /** `bool(v)`. */
  predicate Truthy(v: Value) {
    match v
    case Null => false
    case Bool(b) => b
    case Int(i) => i != 0
    case Float(f) => f != 0.0
    case Str(s) => s != ""
    case List(items) => items != []
    case Dict(entries) => entries != []
  }

  /** `needle in v` for a string needle: a substring test on a str, element equality on a list,
      key membership on a dict, and TypeError on anything else. */
  function In(needle: string, v: Value): (r: Result<bool>)
    ensures r.Err? <==> !(v.Str? || v.List? || v.Dict?)
    ensures v.Str? ==> r == Ok(PyText.Contains(v.s, needle))
  {
    match v
    case Str(s) => Ok(PyText.Contains(s, needle))
    case List(items) => Ok(Str(needle) in items)
    case Dict(entries) => Ok(HasKey(entries, needle))
    case _ => Err("argument of type '" + TypeName(v) + "' is not iterable")
  }

  /** `for x in v`: the items of a list, the characters of a str, the keys of a dict. */
  function Iterate(v: Value): (r: Result<seq<Value>>)
    ensures v.List? ==> r == Ok(v.items)
    ensures r.Err? <==> !(v.Str? || v.List? || v.Dict?)
  {
    match v
    case List(items) => Ok(items)
    case Str(s) => Ok(seq(|s|, i requires 0 <= i < |s| => Str([s[i]])))
    case Dict(entries) => Ok(seq(|entries|, i requires 0 <= i < |entries| => Str(entries[i].0)))
    case _ => Err("'" + TypeName(v) + "' object is not iterable")
  }

  /** A list of Python strings. */
  function Strs(ss: seq<string>): seq<Value> {
    seq(|ss|, i requires 0 <= i < |ss| => Str(ss[i]))
  }

  /** `str(v)`, which is also what an f-string `{v}` and `str.format` insert. */
  function ToStr(v: Value): string
  {
    if v.Str? then v.s else Repr(v)
  }

  /** `repr(v)`; inside a str, characters above U+00FF are written raw (see `EscapeChar`). */
  function Repr(v: Value): string
    decreases v
  {
    match v
    case Null => "None"
    case Bool(b) => if b then "True" else "False"
    case Int(i) => Decimal.IntToString(i)
    case Float(f) => FloatRepr(f)
    case Str(s) => QuoteStr(s)
    case List(items) =>
      "[" + PyText.Join(seq(|items|, k requires 0 <= k < |items| => Repr(items[k])), ", ") + "]"
    case Dict(entries) =>
      "{" + PyText.Join(seq(|entries|, k requires 0 <= k < |entries| =>
                          QuoteStr(entries[k].0) + ": " + Repr(entries[k].1)), ", ") + "}"
  }

  /** `repr(s)` for a str: single quotes unless the text holds a single quote and no double quote. */
  function QuoteStr(s: string): string {
    var q := if '\'' in s && '"' !in s then '"' else '\'';
    [q] + EscapeStr(s, q) + [q]
  }

  function EscapeStr(s: string, q: char): string {
    if s == [] then "" else EscapeChar(s[0], q) + EscapeStr(s[1..], q)
  }

  /** The escape `repr` writes for one character of a str quoted with `q`. Up to U+00FF this is
      CPython's escape; above it, every character is kept as it is. */
  function EscapeChar(c: char, q: char): string {
    if c == '\\' then "\\\\"
    else if c == q then ['\\', q]
    else if c == '\n' then "\\n"
    else if c == '\r' then "\\r"
    else if c == '\t' then "\\t"
    else if Latin1Unprintable(c) then "\\x" + [HexDigit(c as int / 16), HexDigit(c as int % 16)]
    else [c]
  }

  /** The characters up to U+00FF that `str.isprintable()` rejects: the C0 and C1 controls,
      U+007F, the no-break space U+00A0 and the soft hyphen U+00AD. `repr` writes each as `\xHH`. */
  predicate Latin1Unprintable(c: char) {
    c < ' ' || ('\U{7f}' <= c <= '\U{a0}') || c == '\U{ad}'
  }

  /** Up to U+00FF, a character other than the backslash and the quote is kept as it is if and
      only if it is printable. Otherwise it is written in printable ASCII: as `\n`, `\r` or `\t`, or
      as the four characters `\xHH`. */
  lemma EscapeCharLatin1(c: char, q: char)
    requires c <= '\U{ff}' && c != '\\' && c != q
    ensures EscapeChar(c, q) == [c] <==> !Latin1Unprintable(c)
    ensures Latin1Unprintable(c) ==>
      EscapeChar(c, q)[0] == '\\' &&
      forall k :: 0 <= k < |EscapeChar(c, q)| ==> ' ' <= EscapeChar(c, q)[k] < '\U{7f}'
    ensures Latin1Unprintable(c) && c != '\n' && c != '\r' && c != '\t' ==>
      |EscapeChar(c, q)| == 4 && EscapeChar(c, q)[..2] == "\\x"
  {
    if Latin1Unprintable(c) && c != '\n' && c != '\r' && c != '\t' {
      var hi, lo := HexDigit(c as int / 16), HexDigit(c as int % 16);
      assert EscapeChar(c, q) == ['\\', 'x', hi, lo];
    }
  }

  /** A no-break space in a str comes out of `repr` as the four characters `\xa0`. */
  lemma QuoteNoBreakSpace()
    ensures QuoteStr("a\U{a0}b") == "'a\\xa0b'"
  {
    assert HexDigit(10) == 'a' && HexDigit(0) == '0';
    assert EscapeChar('\U{a0}', '\'') == "\\xa0";
    assert "a\U{a0}b"[1..] == "\U{a0}b" && "\U{a0}b"[1..] == "b" && "b"[1..] == "";
  }

  lemma QuoteUser()
    ensures QuoteStr("user") == "'user'"
  {
    assert "user"[1..] == "ser" && "ser"[1..] == "er" && "er"[1..] == "r" && "r"[1..] == "";
    assert EscapeStr("r", '\'') == "r";
    assert EscapeStr("er", '\'') == "er";
    assert EscapeStr("ser", '\'') == "ser";
    assert EscapeStr("user", '\'') == "user";
  }

  /** `repr([v])` is `repr(v)` in brackets. */
  lemma ReprSingletonList(v: Value)
    ensures Repr(List([v])) == "[" + Repr(v) + "]"
  {
    var items := [v];
    var outer := seq(|items|, k requires 0 <= k < |items| => Repr(items[k]));
    assert outer == [Repr(v)];
  }

  /** `repr({key: v})` is the quoted key, a colon and `repr(v)`, in braces. */
  lemma ReprSingletonDict(key: string, v: Value)
    ensures Repr(Dict([(key, v)])) == "{" + QuoteStr(key) + ": " + Repr(v) + "}"
  {
    var entries := [(key, v)];
    var inner := seq(|entries|, k requires 0 <= k < |entries| =>
                   QuoteStr(entries[k].0) + ": " + Repr(entries[k].1));
    assert inner == [QuoteStr(key) + ": " + Repr(v)];
  }

  /** ... and so it does inside a list of dicts, the shape of a chat history. */
  lemma ReprNoBreakSpace()
    ensures Repr(List([Dict([("user", Str("a\U{a0}b"))])])) == "[{'user': 'a\\xa0b'}]"
  {
    QuoteNoBreakSpace();
    QuoteUser();
    ReprSingletonDict("user", Str("a\U{a0}b"));
    ReprSingletonList(Dict([("user", Str("a\U{a0}b"))]));
  }

  function HexDigit(d: nat): (h: char)
    requires d < 16
    ensures '0' <= h <= 'f'
  {
    "0123456789abcdef"[d]
  }

  /** `repr(f)` for a float: the integer part, a point, and the fraction digits (at least one). */
  function FloatRepr(f: real): string {
    if f < 0.0 then "-" + UnsignedFloatRepr(-f) else UnsignedFloatRepr(f)
  }

  function UnsignedFloatRepr(f: real): string
    requires f >= 0.0
  {
    var whole := f.Floor;
    var digits := FractionDigits(f - whole as real, MaxFractionDigits);
    Decimal.IntToString(whole) + "." + (if digits == "" then "0" else digits)
  }

  /** A double carries at most 17 significant decimal digits. */
  const MaxFractionDigits: nat := 17

  function FractionDigits(x: real, fuel: nat): string
    requires 0.0 <= x < 1.0
    decreases fuel
  {
    if x == 0.0 || fuel == 0 then ""
    else
      var d := (x * 10.0).Floor;
      [Decimal.DigitChar(d)] + FractionDigits(x * 10.0 - d as real, fuel - 1)
  }
}
