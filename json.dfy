/** Values of the Python runtime that the scrapers handle: the JSON documents
    that json.loads produces, optional values, the outcome of a call that may
    raise, Python's str() and the whitespace rules of str.strip(). */
module Json {

  datatype Option<T> = None | Some(value: T)

  /** The exceptions the modelled code can raise; none of them is caught, so
      each propagates to the driver that called the scraper. */
  datatype PyError =
    | AttributeError   // `.get` on a value that is not a dict
    | TypeError        // len(), iteration or a regex scan on a value of the wrong type
    | KeyError         // subscripting a non-empty dict with 0
    | RequestException // any other failure of requests.get: a connection error, a timeout,
                       // too many redirects, a malformed URL (subclasses of requests.RequestException)

  /** The result of a Python call: a value, or the exception it raised. */
  datatype Outcome<T> = Ok(value: T) | Raises(error: PyError)

  /** A JSON value as json.loads returns it. An object keeps its entries in
      insertion order, as a Python dict does; integers stand for all numbers. */
  datatype Json =
    | JNull
    | JBool(b: bool)
    | JNum(n: int)
    | JStr(s: string)
    | JList(items: seq<Json>)
    | JObject(entries: seq<(string, Json)>)

  /** A JSON value that is a Python dict. */
  type Dict = j: Json | j.JObject? witness JObject([])

  /** The value stored under `key` (the first entry with that key). */
  function Lookup(entries: seq<(string, Json)>, key: string): (r: Option<Json>)
    ensures r.None? <==> forall i :: 0 <= i < |entries| ==> entries[i].0 != key
    ensures r.Some? ==> exists i :: 0 <= i < |entries| && entries[i] == (key, r.value)
  {
    if entries == [] then None
    else if entries[0].0 == key then Some(entries[0].1)
    else
      var r := Lookup(entries[1..], key);
      assert r.Some? ==> exists i :: 0 <= i < |entries| - 1 && entries[1..][i] == (key, r.value);
      r
  }

  /** `d.get(key, default)`. */
  function GetOr(d: Dict, key: string, default: Json): Json {
    match Lookup(d.entries, key)
    case Some(v) => v
    case None => default
  }

  /** `d.get(key)`: a missing key reads as None. */
  function Get(d: Dict, key: string): Json {
    GetOr(d, key, JNull)
  }

  /** `v.get(key)`: None for a missing key; a value that is not a dict has no
      `.get` and raises. */
  function DictGet(v: Json, key: string): (r: Outcome<Json>)
    ensures r.Raises? <==> !v.JObject?
    ensures r.Raises? ==> r.error == AttributeError
    ensures v.JObject? ==> r == Ok(Get(v, key))
  {
    if v.JObject? then Ok(Get(v, key)) else Raises(AttributeError)
  }

  /** `len(v)`: the number of elements, keys or characters; other values raise. */
  function Len(v: Json): (r: Outcome<nat>)
    ensures r.Raises? <==> !(v.JList? || v.JObject? || v.JStr?)
    ensures v.JList? ==> r == Ok(|v.items|)
    ensures v.JObject? ==> r == Ok(|v.entries|)
    ensures v.JStr? ==> r == Ok(|v.s|)
  {
    match v
    case JList(items) => Ok(|items|)
    case JObject(entries) => Ok(|entries|)
    case JStr(s) => Ok(|s|)
    case _ => Raises(TypeError)
  }

  /** Python truthiness of a JSON value. */
  predicate Truthy(v: Json) {
    match v
    case JNull => false
    case JBool(b) => b
    case JNum(n) => n != 0
    case JStr(s) => s != ""
    case JList(items) => items != []
    case JObject(entries) => entries != []
  }

  /** What `for x in v` iterates over: the elements of a list, the keys of a
      dict, the one-character strings of a string; any other value raises. */
  function Iterate(v: Json): (r: Outcome<seq<Json>>)
    ensures v.JList? ==> r == Ok(v.items)
    ensures r.Raises? <==> !(v.JList? || v.JObject? || v.JStr?)
    ensures r.Ok? && v.JObject? ==> |r.value| == |v.entries|
  {
    match v
    case JList(items) => Ok(items)
    case JObject(entries) => Ok(seq(|entries|, i requires 0 <= i < |entries| => JStr(entries[i].0)))
    case JStr(s) => Ok(seq(|s|, i requires 0 <= i < |s| => JStr([s[i]])))
    case _ => Raises(TypeError)
  }

  function DigitChar(d: nat): char
    requires d < 10
  {
    "0123456789"[d]
  }

  /** The decimal digits of a natural number. */
  function NatToString(n: nat): (r: string)
    ensures |r| > 0
  {
    if n < 10 then [DigitChar(n)] else NatToString(n / 10) + [DigitChar(n % 10)]
  }

  /** Python's repr() of a JSON value (string escaping is not modelled). */
  function Repr(v: Json): string
    decreases v, 1
  {
    match v
    case JNull => "None"
    case JBool(b) => if b then "True" else "False"
    case JNum(n) => if n < 0 then "-" + NatToString(-n) else NatToString(n)
    case JStr(s) => "'" + s + "'"
    case JList(items) => "[" + ReprItems(v, items) + "]"
    case JObject(entries) => "{" + ReprEntries(v, entries) + "}"
  }

  function ReprItems(ghost parent: Json, items: seq<Json>): string
    requires forall i :: 0 <= i < |items| ==> items[i] < parent
    decreases parent, 0, |items|
  {
    if items == [] then ""
    else Repr(items[0]) + (if |items| == 1 then "" else ", " + ReprItems(parent, items[1..]))
  }

  function ReprEntries(ghost parent: Json, entries: seq<(string, Json)>): string
    requires forall i :: 0 <= i < |entries| ==> entries[i].1 < parent
    decreases parent, 0, |entries|
  {
    if entries == [] then ""
    else
      "'" + entries[0].0 + "': " + Repr(entries[0].1)
      + (if |entries| == 1 then "" else ", " + ReprEntries(parent, entries[1..]))
  }

  /** Python's str() of a JSON value: a string is itself, anything else its repr. */
  function PyStr(v: Json): (r: string)
    ensures v.JStr? ==> r == v.s
    ensures !v.JStr? ==> r != ""
  {
    if v.JStr? then v.s else Repr(v)
  }

  /** Python's str.isspace() for one character. */
  predicate IsSpace(c: char) {
    ('\t' <= c <= '\r') || ('\U{1C}' <= c <= ' ') || c == '\U{85}' || c == '\U{A0}'
    || c == '\U{1680}' || ('\U{2000}' <= c <= '\U{200A}') || c == '\U{2028}' || c == '\U{2029}'
    || c == '\U{202F}' || c == '\U{205F}' || c == '\U{3000}'
  }

  /** The characters a strip removes: whitespace (no argument) or the one
      character given as argument. */
  datatype Strippable = Whitespace | Only(c: char)

  predicate Strips(k: Strippable, c: char) {
    match k
    case Whitespace => IsSpace(c)
    case Only(d) => c == d
  }

  /** Drop the leading characters of kind `k`. */
  function TrimLeft(s: string, k: Strippable): (r: string)
    ensures |r| <= |s| && r == s[|s| - |r|..]
    ensures r == [] || !Strips(k, r[0])
    ensures forall i :: 0 <= i < |s| - |r| ==> Strips(k, s[i])
  {
    if s != [] && Strips(k, s[0]) then TrimLeft(s[1..], k) else s
  }

  /** Drop the trailing characters of kind `k`. */
  function TrimRight(s: string, k: Strippable): (r: string)
    ensures |r| <= |s| && r == s[..|r|]
    ensures r == [] || !Strips(k, r[|r| - 1])
    ensures forall i :: |r| <= i < |s| ==> Strips(k, s[i])
  {
    if s != [] && Strips(k, s[|s| - 1]) then TrimRight(s[..|s| - 1], k) else s
  }

  /** `s.strip()`: whitespace removed from both ends. */
  function Strip(s: string): string {
    TrimRight(TrimLeft(s, Whitespace), Whitespace)
  }

  /** `s.strip(c)` for a one-character argument. */
  function StripChar(s: string, c: char): string {
    TrimRight(TrimLeft(s, Only(c)), Only(c))
  }

  /** A string that neither starts nor ends with a character of kind `k` is
      left as it is by both trims. */
  lemma TrimKeeps(s: string, k: Strippable)
    requires s == [] || (!Strips(k, s[0]) && !Strips(k, s[|s| - 1]))
    ensures TrimRight(TrimLeft(s, k), k) == s
  {
  }

  /** A string that str.strip() turns into "": empty or all whitespace. */
  lemma {:induction false} StripEmptyIffBlank(s: string)
    ensures Strip(s) == "" <==> forall i :: 0 <= i < |s| ==> IsSpace(s[i])
  {
    var l := TrimLeft(s, Whitespace);
    if l != [] {
      assert !IsSpace(l[0]);
      assert !IsSpace(s[|s| - |l|]);
    }
  }

  /** A string with a character other than whitespace does not strip to "". */
  lemma StripNonBlank(s: string, i: nat)
    requires i < |s| && !IsSpace(s[i])
    ensures Strip(s) != ""
  {
    StripEmptyIffBlank(s);
  }
}
