/** The Python values and exceptions the playlist mover's core works with:
    JSON-shaped data as `json.loads` and the request parsers produce it, the
    operators the core applies to such data (`in`, `[key]`, `.get`, iteration,
    truth testing, `str()`), exceptions, and HTTP error responses. */
module PyValues {

  datatype Option<+T> = None | Some(value: T)

  /** A JSON-shaped Python value. An object keeps its key/value pairs in
      insertion order, as a Python dict does; lookups take the first pair
      with the key, which is the dict's value whenever the keys are unique
      (`UniqueKeys`, `LookupUnique`). */
  datatype Json =
    | JNull
    | JBool(b: bool)
    | JInt(i: int)
    | JStr(s: string)
    | JArr(items: seq<Json>)
    | JObj(pairs: seq<(string, Json)>)

  /** The exception classes the core raises or inspects. The classes declared in
      logic/exceptions.py and in utils/exceptions.py are distinct classes even
      where their names agree. */
  datatype ExcClass =
    | LogicBadRequest | LogicUnauthorized | LogicInternalServer
    | UtilsBadRequest | UtilsInternalServer
    | KeyError | TypeError | AttributeError | UnicodeEncodeError

  /** An exception instance: its class and the arguments it was built with. */
  datatype Exception = Exception(cls: ExcClass, args: seq<Json>)

  /** The result of evaluating Python code that may raise. */
  datatype Outcome<+T> = Returned(value: T) | Raised(exc: Exception) {
    predicate IsFailure() { Raised? }
    function PropagateFailure<U>(): Outcome<U>
      requires Raised?
    {
      Raised(exc)
    }
    function Extract(): T
      requires Returned?
    {
      value
    }
  }

  /** A framework response: HTTP status code and JSON payload. */
  datatype Response = Response(status: int, data: Json)

  /** The payload `{"success": False, "error": text}` of every error response. */
  function ErrorData(text: string): Json {
    JObj([("success", JBool(false)), ("error", JStr(text))])
  }

  function TypeName(j: Json): string {
    match j
    case JNull => "NoneType"
    case JBool(_) => "bool"
    case JInt(_) => "int"
    case JStr(_) => "str"
    case JArr(_) => "list"
    case JObj(_) => "dict"
  }

  // The fixed parts of the interpreter's error texts.
  const ListIndexText := "list indices must be integers or slices, not str"
  const StrIndexText := "string indices must be integers, not 'str'"
  const NotSubscriptableText := " object is not subscriptable"
  const NotIterableText := " object is not iterable"
  const ArgumentOfTypeText := "argument of type "
  const IsNotIterableText := " is not iterable"
  const NoAttributeText := " object has no attribute "

  /** `s` in single quotes, as the interpreter's messages name types and
      attributes. */
  function Quoted(s: string): string {
    "'" + s + "'"
  }

  function TypeErr(text: string): Exception {
    Exception(TypeError, [JStr(text)])
  }

  function NoAttribute(j: Json, attribute: string): Exception {
    Exception(AttributeError, [JStr(Quoted(TypeName(j)) + NoAttributeText + Quoted(attribute))])
  }

  // ---------------------------------------------------------------- dicts

  predicate HasKey(pairs: seq<(string, Json)>, key: string) {
    exists i :: 0 <= i < |pairs| && pairs[i].0 == key
  }

  /** The value stored under `key`, if any. */
  function Lookup(pairs: seq<(string, Json)>, key: string): (r: Option<Json>)
    ensures r.Some? <==> HasKey(pairs, key)
    ensures r.Some? ==> (key, r.value) in pairs
  {
    if pairs == [] then None
    else if pairs[0].0 == key then Some(pairs[0].1)
    else
      var r := Lookup(pairs[1..], key);
      assert HasKey(pairs[1..], key) ==> HasKey(pairs, key) by {
        if HasKey(pairs[1..], key) {
          var i :| 0 <= i < |pairs[1..]| && pairs[1..][i].0 == key;
          assert pairs[i + 1].0 == key;
        }
      }
      r
  }

  /** The value under the first occurrence of a key. */
  lemma {:induction false} LookupAt(pairs: seq<(string, Json)>, key: string, i: int)
    requires 0 <= i < |pairs| && pairs[i].0 == key
    requires forall j :: 0 <= j < i ==> pairs[j].0 != key
    ensures Lookup(pairs, key) == Some(pairs[i].1)
    decreases i
  {
    if i > 0 {
      LookupAt(pairs[1..], key, i - 1);
    }
  }

  /** No key occurs twice: the pair lists a Python dict (and so `json.loads`,
      which keeps the last of repeated keys) can produce. */
  predicate UniqueKeys(pairs: seq<(string, Json)>) {
    forall i, j :: 0 <= i < j < |pairs| ==> pairs[i].0 != pairs[j].0
  }

  /** On a pair list without repeated keys the first match is the only one,
      so `Lookup` gives what a dict holds under the key. */
  lemma LookupUnique(pairs: seq<(string, Json)>, key: string, value: Json)
    requires UniqueKeys(pairs) && (key, value) in pairs
    ensures Lookup(pairs, key) == Some(value)
  {
    var i :| 0 <= i < |pairs| && pairs[i] == (key, value);
    LookupAt(pairs, key, i);
  }

  // ---------------------------------------------------------------- operators

  predicate OccursAt(x: string, s: string, i: int) {
    0 <= i <= |s| - |x| && s[i..i + |x|] == x
  }

  predicate IsSubstring(x: string, s: string) {
    exists i | 0 <= i <= |s| - |x| :: OccursAt(x, s, i)
  }

  /** `x in container` for a string `x`: key membership for a dict, element
      membership for a list, substring test for a str, TypeError otherwise. */
  function Contains(container: Json, x: string): (r: Outcome<bool>)
    ensures container.JObj? ==> r == Returned(HasKey(container.pairs, x))
    ensures r.Raised? <==> container.JNull? || container.JBool? || container.JInt?
  {
    match container
    case JObj(ps) => Returned(Lookup(ps, x).Some?)
    case JArr(xs) => Returned(JStr(x) in xs)
    case JStr(s) => Returned(IsSubstring(x, s))
    case _ => Raised(TypeErr(ArgumentOfTypeText + Quoted(TypeName(container)) + IsNotIterableText))
  }

  /** `j[key]` for a string `key`. */
  function Subscript(j: Json, key: string): (r: Outcome<Json>)
    ensures r.Returned? <==> j.JObj? && HasKey(j.pairs, key)
    ensures r.Returned? ==> (key, r.value) in j.pairs
  {
    match j
    case JObj(ps) =>
      (match Lookup(ps, key)
       case Some(v) => Returned(v)
       case None => Raised(Exception(KeyError, [JStr(key)])))
    case JArr(_) => Raised(TypeErr(ListIndexText))
    case JStr(_) => Raised(TypeErr(StrIndexText))
    case _ => Raised(TypeErr(Quoted(TypeName(j)) + NotSubscriptableText))
  }

  /** `j.get(key, default)`: only a dict has `get`. */
  function Get(j: Json, key: string, default: Json): (r: Outcome<Json>)
    ensures r.Returned? <==> j.JObj?
    ensures j.JObj? && !HasKey(j.pairs, key) ==> r == Returned(default)
    ensures j.JObj? && HasKey(j.pairs, key) ==> (key, r.value) in j.pairs
  {
    match j
    case JObj(ps) =>
      (match Lookup(ps, key)
       case Some(v) => Returned(v)
       case None => Returned(default))
    case _ => Raised(NoAttribute(j, "get"))
  }

  /** The keys of a dict, in order, as str values. */
  function KeysOf(pairs: seq<(string, Json)>): seq<Json> {
    if pairs == [] then [] else [JStr(pairs[0].0)] + KeysOf(pairs[1..])
  }

  /** The one-character strs of a str, in order. */
  function CharsOf(s: string): seq<Json> {
    if s == [] then [] else [JStr([s[0]])] + CharsOf(s[1..])
  }

  /** The items a `for` loop visits: list elements, dict keys, or the
      characters of a str. */
  function Iterate(j: Json): (r: Outcome<seq<Json>>)
    ensures j.JArr? ==> r == Returned(j.items)
    ensures r.Raised? <==> j.JNull? || j.JBool? || j.JInt?
  {
    match j
    case JArr(xs) => Returned(xs)
    case JObj(ps) => Returned(KeysOf(ps))
    case JStr(s) => Returned(CharsOf(s))
    case _ => Raised(TypeErr(Quoted(TypeName(j)) + NotIterableText))
  }

  /** Python truth testing (`if x`, `not x`). */
  predicate Truthy(j: Json) {
    match j
    case JNull => false
    case JBool(b) => b
    case JInt(i) => i != 0
    case JStr(s) => s != ""
    case JArr(xs) => xs != []
    case JObj(ps) => ps != []
  }

  // ---------------------------------------------------------------- strings

  /** `sep.join(parts)`. */
  function Join(parts: seq<string>, sep: string): (r: string)
    ensures parts == [] ==> r == ""
    ensures |parts| == 1 ==> r == parts[0]
  {
    if parts == [] then ""
    else if |parts| == 1 then parts[0]
    else parts[0] + sep + Join(parts[1..], sep)
  }

  /** Joining non-empty names gives the empty string exactly when there are none. */
  lemma {:induction false} JoinEmptyIff(parts: seq<string>, sep: string)
    requires forall i :: 0 <= i < |parts| ==> parts[i] != ""
    ensures Join(parts, sep) == "" <==> parts == []
  {
    if |parts| > 1 {
      assert |Join(parts, sep)| >= |parts[0]| > 0;
    }
  }

  /** `str.upper()` on ASCII letters. */
  function Upper(s: string): (r: string)
    ensures |r| == |s|
  {
    seq(|s|, i requires 0 <= i < |s| => if 'a' <= s[i] <= 'z' then (s[i] as int - 32) as char else s[i])
  }

  function DigitChar(d: int): char
    requires 0 <= d < 10
  {
    ('0' as int + d) as char
  }

  /** The decimal rendering of `n` (`str(n)`). */
  function NatToString(n: nat): (r: string)
    ensures |r| > 0
  {
    if n < 10 then [DigitChar(n)] else NatToString(n / 10) + [DigitChar(n % 10)]
  }

  function IntToString(i: int): (r: string)
    ensures |r| > 0
  {
    if i < 0 then "-" + NatToString(-i) else NatToString(i)
  }

  /** The body of a quoted string literal: backslash, the chosen quote and the
      usual control characters escaped. */
  function Escaped(s: string, quote: char): string {
    if s == [] then ""
    else
      var c := s[0];
      var e :=
        if c == '\\' then "\\\\"
        else if c == quote then ['\\', quote]
        else if c == '\n' then "\\n"
        else if c == '\r' then "\\r"
        else if c == '\t' then "\\t"
        else [c];
      e + Escaped(s[1..], quote)
  }

  /** `repr()` of a str: single quotes unless the text holds a single quote
      and no double quote. */
  function StrRepr(s: string): (r: string)
    ensures |r| >= 2
  {
    if '\'' in s && '"' !in s then "\"" + Escaped(s, '"') + "\""
    else "'" + Escaped(s, '\'') + "'"
  }

  /** `repr()` of a JSON-shaped value. */
  function Repr(j: Json): (r: string)
    ensures |r| > 0
    decreases j, 1
  {
    match j
    case JNull => "None"
    case JBool(b) => if b then "True" else "False"
    case JInt(i) => IntToString(i)
    case JStr(s) => StrRepr(s)
    case JArr(_) => "[" + Join(ReprItems(j, 0), ", ") + "]"
    case JObj(_) => "{" + Join(ReprPairs(j, 0), ", ") + "}"
  }

  /** The reprs of a list's items from index `k` on. */
  function ReprItems(j: Json, k: nat): seq<string>
    requires j.JArr? && k <= |j.items|
    decreases j, 0, |j.items| - k
  {
    if k == |j.items| then []
    else
      assert j.items[k] in j.items;
      [Repr(j.items[k])] + ReprItems(j, k + 1)
  }

  /** The `key: value` renderings of a dict's pairs from index `k` on. */
  function ReprPairs(j: Json, k: nat): seq<string>
    requires j.JObj? && k <= |j.pairs|
    decreases j, 0, |j.pairs| - k
  {
    if k == |j.pairs| then []
    else
      assert j.pairs[k] in j.pairs;
      [StrRepr(j.pairs[k].0) + ": " + Repr(j.pairs[k].1)] + ReprPairs(j, k + 1)
  }

  /** `str()` of a JSON-shaped value (and `"{}".format(value)`). */
  function Str(j: Json): string {
    if j.JStr? then j.s else Repr(j)
  }

  /** `"{}".format(value)` for a value that is a str or None, such as the
      result of `os.getenv`. */
  function FormatOptional(v: Option<string>): string {
    if v.Some? then v.value else "None"
  }

  /** `str(exception)`: empty without arguments, `str` of the argument for one
      (its `repr` for a KeyError), and the tuple rendering of all of them
      otherwise. */
  function ExceptionText(e: Exception): (r: string)
    ensures |e.args| == 1 && e.args[0].JStr? && e.cls != KeyError ==> r == e.args[0].s
    ensures |e.args| > 1 ==> |r| > 0 && r[0] == '('
  {
    if |e.args| == 0 then ""
    else if |e.args| == 1 then (if e.cls == KeyError then Repr(e.args[0]) else Str(e.args[0]))
    else "(" + Join(ReprItems(JArr(e.args), 0), ", ") + ")"
  }
}
