/** JSON-like values as the gateway sees them: request bodies, stored items and
    response bodies, with the few JavaScript built-ins the core relies on
    (truthiness, object spread, `String.prototype.trim`). */
module Json {

  /** `undefined` versus a present value. */
  datatype Option<+T> = None | Some(value: T)

  /** A JSON value. Numbers are modelled as integers. */
  datatype Value =
    | Null
    | Bool(b: bool)
    | Num(n: int)
    | Str(s: string)
    | Arr(elems: seq<Value>)
    | Obj(fields: map<string, Value>)

  /** A record: an object from field name to value. */
  type Record = map<string, Value>

  /** JavaScript truthiness of a value. */
  predicate Truthy(v: Value) {
    match v
    case Null => false
    case Bool(b) => b
    case Num(n) => n != 0
    case Str(s) => s != ""
    case Arr(_) => true
    case Obj(_) => true
  }

  /** The object spread `{...base, ...top}`: fields of `top` win, the other
      fields of `base` are kept. */
  function Overlay(base: Record, top: Record): (r: Record)
    ensures r.Keys == base.Keys + top.Keys
    ensures forall f :: f in top ==> r[f] == top[f]
    ensures forall f :: f in base && f !in top ==> r[f] == base[f]
  {
    base + top
  }

  /** The record without its null-valued fields. */
  function WithoutNulls(r: Record): (s: Record)
    ensures s.Keys <= r.Keys
    ensures forall f :: f in s ==> s[f] == r[f]
    ensures forall f :: f in r ==> (f in s <==> r[f] != Null)
  {
    map f | f in r && r[f] != Null :: r[f]
  }

  /** The characters JavaScript's `trim` removes: white space and line terminators. */
  predicate IsSpace(c: char) {
    || c == '\t' || c == '\n' || c == '\U{000B}' || c == '\U{000C}' || c == '\r'
    || c == ' ' || c == '\U{00A0}' || c == '\U{1680}'
    || ('\U{2000}' <= c <= '\U{200A}')
    || c == '\U{2028}' || c == '\U{2029}' || c == '\U{202F}' || c == '\U{205F}'
    || c == '\U{3000}' || c == '\U{FEFF}'
  }

  predicate AllSpace(s: string) {
    forall i :: 0 <= i < |s| ==> IsSpace(s[i])
  }

  /** `s` without its leading white space. */
  function TrimStart(s: string): (r: string)
    ensures |r| <= |s| && r == s[|s| - |r|..]
    ensures AllSpace(s[..|s| - |r|])
    ensures r != "" ==> !IsSpace(r[0])
  {
    if s != "" && IsSpace(s[0]) then
      var r := TrimStart(s[1..]);
      assert s[1..][..|s| - 1 - |r|] == s[1..|s| - |r|];
      r
    else s
  }

  /** `s` without its trailing white space. */
  function TrimEnd(s: string): (r: string)
    ensures |r| <= |s| && r == s[..|r|]
    ensures AllSpace(s[|r|..])
    ensures r != "" ==> !IsSpace(r[|r| - 1])
  {
    if s != "" && IsSpace(s[|s| - 1]) then TrimEnd(s[..|s| - 1]) else s
  }

  /** `String.prototype.trim`. */
  function Trim(s: string): string {
    TrimEnd(TrimStart(s))
  }

  /** A string trims to the empty string exactly when it is all white space. */
  lemma TrimEmptyIff(s: string)
    ensures Trim(s) == "" <==> AllSpace(s)
  {
    var t := TrimStart(s);
    if Trim(s) == "" {
      assert AllSpace(t[0..]);
      assert t == "";
      forall i | 0 <= i < |s| ensures IsSpace(s[i]) {
        assert s[..|s|][i] == s[i];
      }
    }
  }

  /** Lower-cases ASCII letters, as `toLowerCase` does on them. */
  function ToLower(s: string): (r: string)
    ensures |r| == |s|
    ensures forall i :: 0 <= i < |s| ==> r[i] == (if 'A' <= s[i] <= 'Z' then (s[i] as int + 32) as char else s[i])
  {
    if s == "" then ""
    else
      var c := s[0];
      [if 'A' <= c <= 'Z' then (c as int + 32) as char else c] + ToLower(s[1..])
  }

  /** Decimal rendering of an integer, as a template literal prints it. */
  function IntToString(n: int): string
    decreases if n < 0 then 1 - n else n
  {
    if n < 0 then "-" + IntToString(-n)
    else if n < 10 then ["0123456789"[n]]
    else IntToString(n / 10) + ["0123456789"[n % 10]]
  }
}
