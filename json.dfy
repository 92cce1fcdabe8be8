/**
 * JSON values as Python's `json` module hands them to the pipeline: objects are dicts that keep
 * insertion order, so they are ordered sequences of key/value pairs. Also the few Python built-ins
 * the pipeline applies to them: truthiness, `dict.get`, `str()`, `int()`, iteration and `json.dumps`.
 */
module JsonModel {
  import opened Wrappers
  import opened PyStrings

  datatype Json =
    | JNull
    | JBool(b: bool)
    | JInt(n: int)
    | JStr(s: string)
    | JArr(items: seq<Json>)
    | JObj(fields: seq<(string, Json)>)

  type Fields = seq<(string, Json)>

  /** The library parsers the pipeline calls: `JSONDecoder.raw_decode(s, idx)` giving the value and
      the index just past it, and `json.loads(s)`. Either returns None where Python raises. */
  datatype Decoder = Decoder(rawDecode: (string, nat) -> Option<(Json, nat)>, loads: string -> Option<Json>)

  /** `list(d.keys())` */
  function Keys(fs: Fields): (ks: seq<string>)
    ensures |ks| == |fs| && forall i :: 0 <= i < |fs| ==> ks[i] == fs[i].0
  {
    seq(|fs|, i requires 0 <= i < |fs| => fs[i].0)
  }

  /** `list(d.values())`, and the second components of any list of pairs. */
  function Values<K, V>(fs: seq<(K, V)>): (vs: seq<V>)
    ensures |vs| == |fs| && forall i :: 0 <= i < |fs| ==> vs[i] == fs[i].1
  {
    seq(|fs|, i requires 0 <= i < |fs| => fs[i].1)
  }

  predicate HasKey(fs: Fields, k: string) {
    k in Keys(fs)
  }

  /** `d[k]` if present: the value of the first pair with key `k`. */
  function Get(fs: Fields, k: string): (r: Option<Json>)
    ensures r.Some? <==> HasKey(fs, k)
    ensures r.Some? ==> exists i :: 0 <= i < |fs| && fs[i] == (k, r.value)
  {
    if fs == [] then None
    else if fs[0].0 == k then Some(fs[0].1)
    else
      var r := Get(fs[1..], k);
      assert Keys(fs) == [fs[0].0] + Keys(fs[1..]);
      if r.Some? then
        assert exists i :: 0 <= i < |fs[1..]| && fs[1..][i] == (k, r.value);
        r
      else r
  }

  /** `d.get(k)`: the value, or None when the key is absent. */
  function Lookup(fs: Fields, k: string): Json {
    Get(fs, k).GetOr(JNull)
  }

  /** `d.get(k, default)` */
  function GetDefault(fs: Fields, k: string, default: Json): Json {
    Get(fs, k).GetOr(default)
  }

  lemma GetCons(p: (string, Json), rest: Fields, k: string)
    ensures Get([p] + rest, k) == if p.0 == k then Some(p.1) else Get(rest, k)
    ensures Keys([p] + rest) == [p.0] + Keys(rest)
  {
    assert ([p] + rest)[1..] == rest;
  }

  /** `d[k] = v`: an existing key keeps its place, a new key goes last. */
  function Set(fs: Fields, k: string, v: Json): (r: Fields)
    ensures |r| == if HasKey(fs, k) then |fs| else |fs| + 1
  {
    if fs == [] then [(k, v)]
    else if fs[0].0 == k then
      [(k, v)] + fs[1..]
    else
      GetCons(fs[0], fs[1..], k);
      assert fs == [fs[0]] + fs[1..];
      [fs[0]] + Set(fs[1..], k, v)
  }

  /** After `d[k] = v` the keys are the old ones, plus `k` at the end if it was new. */
  lemma {:induction false} SetKeys(fs: Fields, k: string, v: Json)
    ensures Keys(Set(fs, k, v)) == if HasKey(fs, k) then Keys(fs) else Keys(fs) + [k]
  {
    if fs != [] {
      assert fs == [fs[0]] + fs[1..];
      GetCons(fs[0], fs[1..], k);
      if fs[0].0 == k {
        GetCons((k, v), fs[1..], k);
      } else {
        SetKeys(fs[1..], k, v);
        GetCons(fs[0], Set(fs[1..], k, v), k);
      }
    }
  }

  /** After `d[k] = v`, `d[k]` is `v` and every other key reads as before. */
  lemma {:induction false} SetGet(fs: Fields, k: string, v: Json, k': string)
    ensures Get(Set(fs, k, v), k') == if k' == k then Some(v) else Get(fs, k')
  {
    if fs != [] {
      assert fs == [fs[0]] + fs[1..];
      GetCons(fs[0], fs[1..], k');
      if fs[0].0 == k {
        GetCons((k, v), fs[1..], k');
      } else {
        SetGet(fs[1..], k, v, k');
        GetCons(fs[0], Set(fs[1..], k, v), k');
      }
    }
  }

  /** `d.get(k, default)` on a value that must be a dict; anything else has no `.get`. */
  function DictGet(j: Json, k: string, default: Json): (r: Result<Json>)
    ensures r.Ok? <==> j.JObj?
    ensures j.JObj? && HasKey(j.fields, k) ==> r == Ok(Get(j.fields, k).value)
    ensures j.JObj? && !HasKey(j.fields, k) ==> r == Ok(default)
  {
    if j.JObj? then Ok(GetDefault(j.fields, k, default)) else Err(AttributeError("get"))
  }

  /** Python truthiness: None, False, 0, "" and empty containers are false. */
  predicate Truthy(j: Json) {
    match j
    case JNull => false
    case JBool(b) => b
    case JInt(n) => n != 0
    case JStr(s) => s != ""
    case JArr(xs) => xs != []
    case JObj(fs) => fs != []
  }

  /** `a or b or ...`: the first truthy operand, else the last one. */
  function OrChain(vs: seq<Json>): (r: Json)
    requires |vs| > 0
    ensures r in vs
    ensures Truthy(r) <==> exists i :: 0 <= i < |vs| && Truthy(vs[i])
    ensures forall i :: 0 <= i < |vs| && Truthy(vs[i]) ==> Truthy(r)
  {
    if |vs| == 1 || Truthy(vs[0]) then vs[0] else OrChain(vs[1..])
  }

  /** `repr(x)`; strings are shown in single quotes without the escaping Python applies. */
  function Repr(j: Json): string
    decreases j
  {
    match j
    case JNull => "None"
    case JBool(b) => if b then "True" else "False"
    case JInt(n) => IntToString(n)
    case JStr(s) => "'" + s + "'"
    case JArr(xs) => "[" + Join(", ", seq(|xs|, i requires 0 <= i < |xs| => Repr(xs[i]))) + "]"
    case JObj(fs) =>
      "{" + Join(", ", seq(|fs|, i requires 0 <= i < |fs| => "'" + fs[i].0 + "': " + Repr(fs[i].1))) + "}"
  }

  /** `str(x)`, which is also what an f-string interpolates. */
  function PyStr(j: Json): string {
    if j.JStr? then j.s else Repr(j)
  }

  /** `int(x)`: None where Python raises (None, containers, malformed strings). */
  function PyInt(j: Json): Option<int> {
    match j
    case JInt(n) => Some(n)
    case JBool(b) => Some(if b then 1 else 0)
    case JStr(s) => ParseInt(s)
    case _ => None
  }

  /** What a `for` loop visits: list items, the one-character strings of a string, or a dict's keys;
      None where Python raises "not iterable". */
  function PyIter(j: Json): (r: Option<seq<Json>>)
    ensures j.JArr? ==> r == Some(j.items)
    ensures r.Some? <==> (j.JArr? || j.JStr? || j.JObj?)
  {
    match j
    case JArr(xs) => Some(xs)
    case JStr(s) => Some(seq(|s|, i requires 0 <= i < |s| => JStr([s[i]])))
    case JObj(fs) => Some(seq(|fs|, i requires 0 <= i < |fs| => JStr(fs[i].0)))
    case _ => None
  }

  /** A value whose `.get` is called: a dict, else AttributeError. */
  function AsDict(j: Json): (r: Result<Fields>)
    ensures r.Ok? <==> j.JObj?
    ensures r.Ok? ==> r.value == j.fields
  {
    if j.JObj? then Ok(j.fields) else Err(AttributeError("get"))
  }

  /** A value a `for` loop walks over, else TypeError. */
  function Iter(j: Json): (r: Result<seq<Json>>)
    ensures r.Ok? <==> PyIter(j).Some?
    ensures r.Ok? ==> r.value == PyIter(j).value
  {
    match PyIter(j)
    case Some(xs) => Ok(xs)
    case None => Err(TypeError("not iterable"))
  }

  /** `int(x)`, raising where Python raises. */
  function ToInt(j: Json): (r: Result<int>)
    ensures r.Ok? <==> PyInt(j).Some?
    ensures r.Ok? ==> r.value == PyInt(j).value
  {
    match PyInt(j)
    case Some(n) => Ok(n)
    case None => Err(ValueError("int()"))
  }

  /** `state[k]`, raising KeyError when the key is absent. */
  function Field(fs: Fields, k: string): (r: Result<Json>)
    ensures r.Ok? <==> HasKey(fs, k)
    ensures r.Ok? ==> Get(fs, k) == Some(r.value)
  {
    match Get(fs, k)
    case Some(v) => Ok(v)
    case None => Err(KeyError(k))
  }

  /** A list of strings as a JSON array. */
  function StrList(ss: seq<string>): (j: Json)
    ensures j.JArr? && |j.items| == |ss|
    ensures forall i :: 0 <= i < |ss| ==> j.items[i] == JStr(ss[i])
  {
    JArr(seq(|ss|, i requires 0 <= i < |ss| => JStr(ss[i])))
  }

  function HexDigit(d: nat): char
    requires d < 16
  {
    if d < 10 then ('0' as int + d) as char else ('a' as int + d - 10) as char
  }

  /** `\uXXXX` for a UTF-16 code unit. */
  function Hex4(u: nat): string
    requires u < 0x1_0000
  {
    "\\u" + [HexDigit(u / 0x1000), HexDigit(u / 0x100 % 16), HexDigit(u / 16 % 16), HexDigit(u % 16)]
  }

  /** JSON escaping of one character inside a string literal; with `ensureAscii` every character
      from 0x7f up becomes `\uXXXX`, as a surrogate pair above 0xffff. */
  function EscapeChar(c: char, ensureAscii: bool): string {
    if c == '"' then "\\\""
    else if c == '\\' then "\\\\"
    else if c == '\n' then "\\n"
    else if c == '\r' then "\\r"
    else if c == '\t' then "\\t"
    else if c == '\U{08}' then "\\b"
    else if c == '\U{0C}' then "\\f"
    else if (c as int) < 0x20 then Hex4(c as int)
    else if !ensureAscii || (c as int) < 0x7f then [c]
    else if (c as int) < 0x1_0000 then Hex4(c as int)
    else
      var v := c as int - 0x1_0000;
      Hex4(0xD800 + v / 0x400) + Hex4(0xDC00 + v % 0x400)
  }

  function Quote(s: string, ensureAscii: bool): string {
    "\"" + Escaped(s, ensureAscii) + "\""
  }

  function Escaped(s: string, ensureAscii: bool): string {
    if s == [] then "" else EscapeChar(s[0], ensureAscii) + Escaped(s[1..], ensureAscii)
  }

  /** `json.dumps(x)` (`ensureAscii` true, Python's default) or `json.dumps(x, ensure_ascii=False)`,
      with the default separators `", "` and `": "`. */
  function Dumps(j: Json, ensureAscii: bool): string
    decreases j
  {
    match j
    case JNull => "null"
    case JBool(b) => if b then "true" else "false"
    case JInt(n) => IntToString(n)
    case JStr(s) => Quote(s, ensureAscii)
    case JArr(xs) => "[" + Join(", ", seq(|xs|, i requires 0 <= i < |xs| => Dumps(xs[i], ensureAscii))) + "]"
    case JObj(fs) =>
      "{" + Join(", ", seq(|fs|, i requires 0 <= i < |fs| =>
        Quote(fs[i].0, ensureAscii) + ": " + Dumps(fs[i].1, ensureAscii))) + "}"
  }

  /** With `ensure_ascii` the text is plain ASCII. */
  lemma {:induction false} EscapedAscii(s: string)
    ensures forall i :: 0 <= i < |Escaped(s, true)| ==> (Escaped(s, true)[i] as int) < 0x80
  {
    if s != [] {
      EscapedAscii(s[1..]);
      var c := s[0];
      var e := EscapeChar(c, true);
      assert forall i :: 0 <= i < |e| ==> (e[i] as int) < 0x80;
    }
  }

  /** `str()` of a string is the string, and `int()` of a number is the number. */
  lemma ConversionsOnOwnType(s: string, n: int)
    ensures PyStr(JStr(s)) == s
    ensures PyInt(JInt(n)) == Some(n)
  {
  }

  /** `int(str(n)) == n`, going through a JSON string. */
  lemma PyIntOfDecimal(n: int)
    ensures PyInt(JStr(IntToString(n))) == Some(n)
  {
    ParseIntOfIntToString(n);
  }
}
