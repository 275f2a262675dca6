/** The Talos IOC reports (talos.py): a report wraps one IOC JSON document
    and reads a title, a blog URL, a date and the techniques out of it. The
    documents come in three shapes (a STIX bundle with "objects", a package
    document with "related_packages", a MISP export with "response"), and
    each reader tries them in that order. */
module Talos {
  import opened Json
  import opened TtpTokens
  import opened Techniques
  import opened Mitre

  // ---------------------------------------------------------------------
  // get_nested

  /** One key of a get_nested walk from `d`: the value it leads to, None where
      the walk gives up and returns the default, or what the step raises.
      "[0]" first asks for len(d), which raises on a value without one; a
      non-empty dict subscripted with 0 raises KeyError, since JSON keys
      are strings. */
  function Step(d: Json, key: string): (r: Outcome<Option<Json>>)
    ensures key != "[0]" ==> r.Ok?
  {
    if key == "[0]" && Len(d).Raises? then Raises(TypeError)
    else if key == "[0]" && Len(d).value > 0 then
      match d
      case JList(items) => Ok(Some(items[0]))
      case JStr(s) => Ok(Some(JStr([s[0]])))
      case _ => Raises(KeyError)
    else if d.JObject? && Lookup(d.entries, key).Some? then Ok(Some(Lookup(d.entries, key).value))
    else Ok(None)
  }

  /** The walk along `keys`: the value reached, None for "return default". */
  function Walk(d: Json, keys: seq<string>): Outcome<Option<Json>>
    decreases |keys|
  {
    if keys == [] then Ok(Some(d))
    else
      match Step(d, keys[0])
      case Raises(e) => Raises(e)
      case Ok(None) => Ok(None)
      case Ok(Some(v)) => Walk(v, keys[1..])
  }

  /** get_nested(d, keys, default). */
  function Nested(d: Json, keys: seq<string>, default: Json): Outcome<Json> {
    match Walk(d, keys)
    case Raises(e) => Raises(e)
    case Ok(None) => Ok(default)
    case Ok(Some(v)) => Ok(v)
  }

  /** The rest of a walk, once its first part has ended in `o`. */
  function WalkOn(o: Outcome<Option<Json>>, keys: seq<string>): Outcome<Option<Json>> {
    match o
    case Raises(e) => Raises(e)
    case Ok(None) => Ok(None)
    case Ok(Some(v)) => Walk(v, keys)
  }

  /** Walking a path is walking its first part and then the rest from where
      the first part arrived. */
  lemma {:induction false} WalkAppend(d: Json, k1: seq<string>, k2: seq<string>)
    ensures Walk(d, k1 + k2) == WalkOn(Walk(d, k1), k2)
    decreases |k1|
  {
    if k1 != [] {
      assert (k1 + k2)[0] == k1[0] && (k1 + k2)[1..] == k1[1..] + k2;
      match Step(d, k1[0]) {
        case Raises(e) =>
        case Ok(None) =>
        case Ok(Some(v)) => WalkAppend(v, k1[1..], k2);
      }
    } else {
      assert k1 + k2 == k2;
    }
  }

  /** The empty path returns the value itself. */
  lemma NestedEmptyPath(d: Json, default: Json)
    ensures Nested(d, [], default) == Ok(d)
  {
  }

  /** A key missing from a dict, or any key but "[0]" on a value that is not
      a dict, ends the walk with the default. */
  lemma NestedMissingKey(d: Json, key: string, rest: seq<string>, default: Json)
    requires key != "[0]" && (!d.JObject? || Lookup(d.entries, key).None?)
    ensures Nested(d, [key] + rest, default) == Ok(default)
  {
    assert ([key] + rest)[0] == key;
  }

  /** A key present in a dict moves the walk to its value. */
  lemma NestedKey(d: Json, key: string, rest: seq<string>, default: Json)
    requires key != "[0]" && d.JObject? && Lookup(d.entries, key).Some?
    ensures Nested(d, [key] + rest, default) == Nested(Lookup(d.entries, key).value, rest, default)
  {
    assert ([key] + rest)[0] == key && ([key] + rest)[1..] == rest;
  }

  /** "[0]" takes the first element of a non-empty list; on an empty list the
      walk returns the default. */
  lemma NestedFirstElement(items: seq<Json>, rest: seq<string>, default: Json)
    ensures items != [] ==> Nested(JList(items), ["[0]"] + rest, default) == Nested(items[0], rest, default)
    ensures items == [] ==> Nested(JList(items), ["[0]"] + rest, default) == Ok(default)
  {
    assert (["[0]"] + rest)[0] == "[0]" && (["[0]"] + rest)[1..] == rest;
  }

  /** "[0]" raises on a value without a length, and on a non-empty dict. */
  lemma NestedFirstRaises(d: Json, rest: seq<string>, default: Json)
    requires d.JNull? || d.JBool? || d.JNum? || (d.JObject? && d.entries != [])
    ensures Nested(d, ["[0]"] + rest, default).Raises?
  {
    assert (["[0]"] + rest)[0] == "[0]";
  }

  // ---------------------------------------------------------------------
  // format_url

  const TalosHost: string := "blog.talosintelligence.com"

  predicate StartsWith(s: string, p: string) {
    |p| <= |s| && s[..|p|] == p
  }

  /** The length of the `https?://` the text starts with, 0 when it has none. */
  function SchemeLength(url: string): (n: nat)
    ensures n <= |url|
  {
    if StartsWith(url, "https://") then 8 else if StartsWith(url, "http://") then 7 else 0
  }

  /** Where `$` matches: the end of the text, or a newline that ends it. */
  predicate AtEnd(s: string) {
    s == "" || s == "\n"
  }

  /** `(/.*)?$` at the start of `r`: the text of the group ("" when the group
      does not take part), or None when the match fails. `.` takes any
      character but a newline. */
  function OptionalPath(r: string): (p: Option<string>)
    ensures p.Some? ==> |p.value| <= |r| && r[..|p.value|] == p.value && AtEnd(r[|p.value|..])
    ensures p.Some? ==> p.value == "" || p.value[0] == '/'
    ensures p.Some? ==> forall k :: 0 <= k < |p.value| ==> p.value[k] != '\n'
  {
    if r != [] && r[0] == '/' then
      var n := LineRun(r, 0);
      if AtEnd(r[n..]) then Some(r[..n]) else None
    else if AtEnd(r) then Some("")
    else None
  }

  /** The path group of `^(?:https?://)?(blog\.talosintelligence\.com)(/.*)?$`
      ("" when absent), or None when the URL is not a Talos blog URL. */
  function TalosPath(url: string): Option<string> {
    var s := url[SchemeLength(url)..];
    if StartsWith(s, TalosHost) then OptionalPath(s[|TalosHost|..]) else None
  }

  /** `/YYYY/MM`. */
  predicate IsDateSegment(s: string) {
    |s| == 8 && s[0] == '/' && AllDigits(s[1..5]) && s[5] == '/' && AllDigits(s[6..8])
  }

  /** The path with a leading `/YYYY/MM` segment removed: the rest group of
      `^/(\d{4})/(\d{2})(/.*)?$`, or the path itself when that fails. Either
      way nothing but a date segment is ever removed. */
  function DateStripped(path: string): (r: string)
    ensures r == path || (|path| >= 8 && IsDateSegment(path[..8]) && StartsWith(path[8..], r))
  {
    if |path| >= 8 && IsDateSegment(path[..8]) then
      match OptionalPath(path[8..])
      case Some(rest) => rest
      case None => path
    else path
  }

  lemma HttpsPrefix(x: string)
    ensures StartsWith("https://" + x, "https://") && SchemeLength("https://" + x) == 8
    ensures ("https://" + x)[8..] == x
  {
    assert ("https://" + x)[..8] == "https://";
  }

  /** The URL of another host, forced to https: `http://` becomes `https://`,
      an https URL stays, anything else gets `https://` in front. */
  function ForceHttps(s: string): (r: string)
    ensures StartsWith(r, "https://")
    ensures r == "https://" + s[SchemeLength(s)..]
    ensures StartsWith(s, "https://") ==> r == s
  {
    if StartsWith(s, "http://") then
      assert !StartsWith(s, "https://") by { assert s[4] == s[..7][4] == ':'; }
      HttpsPrefix(s[7..]); "https://" + s[7..]
    else if !StartsWith(s, "https://") then HttpsPrefix(s); "https://" + s
    else s
  }

  /** A non-blank URL as format_url rewrites it. */
  function TalosOrForced(s: string): string {
    match TalosPath(s)
    case Some(path) => "https://" + TalosHost + DateStripped(path)
    case None => ForceHttps(s)
  }

  /** format_url: a value that is not a string, and a blank string, come back
      unchanged; a Talos blog URL becomes https, the host and the path without
      its date segment; any other URL is forced to https. */
  function FormatUrl(u: Json): (r: Json)
    ensures u.JStr? ==> r.JStr?
  {
    if !u.JStr? || Strip(u.s) == "" then u else JStr(TalosOrForced(u.s))
  }

  /** A text without newlines is one line: `.*` takes all of it. */
  lemma OneLine(p: string)
    requires forall k :: 0 <= k < |p| ==> p[k] != '\n'
    ensures LineRun(p, 0) == |p|
  {
  }

  lemma OptionalPathWhole(p: string)
    requires p == "" || p[0] == '/'
    requires forall k :: 0 <= k < |p| ==> p[k] != '\n'
    ensures OptionalPath(p) == Some(p)
  {
    if p != "" {
      OneLine(p);
      assert p[|p|..] == "" && p[..|p|] == p;
    }
  }

  /** A value that is not a string, and a string of whitespace only, come
      back unchanged. */
  lemma FormatUrlKeeps(u: Json)
    requires !u.JStr? || forall i :: 0 <= i < |u.s| ==> IsSpace(u.s[i])
    ensures FormatUrl(u) == u
  {
    if u.JStr? {
      StripEmptyIffBlank(u.s);
    }
  }

  /** What format_url does to a string that is not blank. */
  lemma FormatUrlNonBlank(s: string, i: nat)
    requires i < |s| && !IsSpace(s[i])
    ensures FormatUrl(JStr(s)) == JStr(TalosOrForced(s))
  {
    StripNonBlank(s, i);
  }

  /** Every string with a character other than whitespace comes out as an
      https URL. */
  lemma FormatUrlHttps(s: string, i: nat)
    requires i < |s| && !IsSpace(s[i])
    ensures FormatUrl(JStr(s)).JStr? && StartsWith(FormatUrl(JStr(s)).s, "https://")
  {
    FormatUrlNonBlank(s, i);
    if TalosPath(s).Some? {
      HttpsPrefix(TalosHost + DateStripped(TalosPath(s).value));
    }
  }

  lemma SchemeOfTalosUrl(scheme: string, rest: string)
    requires scheme == "" || scheme == "http://" || scheme == "https://"
    ensures SchemeLength(scheme + TalosHost + rest) == |scheme|
    ensures (scheme + TalosHost + rest)[|scheme|..] == TalosHost + rest
    ensures (scheme + TalosHost + rest)[|scheme|] == 'b'
  {
    var url := scheme + TalosHost + rest;
    assert url[|scheme|..] == TalosHost + rest;
    if scheme == "" {
      assert url[0] == 'b';
    } else if scheme == "http://" {
      assert url[..7] == "http://" && url[4] == ':';
    } else {
      assert url[..8] == "https://";
    }
  }

  /** A Talos blog URL, with any of the schemes or none, becomes
      `https://blog.talosintelligence.com` and its path less the date
      segment. */
  lemma FormatUrlTalos(scheme: string, path: string)
    requires scheme == "" || scheme == "http://" || scheme == "https://"
    requires path == "" || path[0] == '/'
    requires forall k :: 0 <= k < |path| ==> path[k] != '\n'
    ensures FormatUrl(JStr(scheme + TalosHost + path)) == JStr("https://" + TalosHost + DateStripped(path))
  {
    var url := scheme + TalosHost + path;
    SchemeOfTalosUrl(scheme, path);
    assert (TalosHost + path)[..|TalosHost|] == TalosHost && (TalosHost + path)[|TalosHost|..] == path;
    OptionalPathWhole(path);
    StripNonBlank(url, |scheme|);
  }

  /** The date segment goes, and the rest of the path stays. */
  lemma DateStrippedSegment(y: string, m: string, rest: string)
    requires |y| == 4 && AllDigits(y) && |m| == 2 && AllDigits(m)
    requires rest == "" || rest[0] == '/'
    requires forall k :: 0 <= k < |rest| ==> rest[k] != '\n'
    ensures DateStripped("/" + y + "/" + m + rest) == rest
  {
    var path := "/" + y + "/" + m + rest;
    assert path[1..5] == y && path[6..8] == m && path[8..] == rest;
    OptionalPathWhole(rest);
  }

  /** A non-blank URL that is not a Talos blog URL is only forced to https:
      `http://` is replaced, an https URL is kept, and anything else gets
      `https://` in front. */
  lemma FormatUrlOtherHost(s: string, i: nat)
    requires i < |s| && !IsSpace(s[i]) && TalosPath(s).None?
    ensures FormatUrl(JStr(s)) == JStr(ForceHttps(s))
  {
    FormatUrlNonBlank(s, i);
  }

  /** The three rewrites of forcing: `http://x` becomes `https://x`, an https
      URL is kept, anything else gets `https://` in front. */
  lemma ForceHttpsCases(s: string)
    ensures StartsWith(s, "http://") ==> ForceHttps(s) == "https://" + s[7..]
    ensures StartsWith(s, "https://") ==> ForceHttps(s) == s
    ensures !StartsWith(s, "http://") && !StartsWith(s, "https://") ==> ForceHttps(s) == "https://" + s
  {
    if StartsWith(s, "http://") {
      assert !StartsWith(s, "https://") by { assert s[4] == ':'; }
    }
  }

  /** A URL of any other host is put right in one step: the second call leaves
      it as the first made it. */
  lemma FormatUrlOtherHostIdempotent(s: string)
    requires TalosPath(s).None?
    ensures FormatUrl(FormatUrl(JStr(s))) == FormatUrl(JStr(s))
  {
    var r := ForceHttps(s);
    ForceHttpsSameTail(s);
    if Strip(s) != "" {
      assert r[0] == 'h';
      FormatUrlNonBlank(r, 0);
    }
  }

  /** Forcing https keeps what follows the scheme, so the Talos pattern sees
      the same text, and a second forcing changes nothing. */
  lemma ForceHttpsSameTail(s: string)
    ensures TalosPath(ForceHttps(s)) == TalosPath(s)
    ensures ForceHttps(ForceHttps(s)) == ForceHttps(s)
  {
    var r := ForceHttps(s);
    if StartsWith(s, "http://") {
      assert !StartsWith(s, "https://") by { assert s[4] == ':'; }
      HttpsPrefix(s[7..]);
    } else if !StartsWith(s, "https://") {
      HttpsPrefix(s);
    }
    assert !StartsWith(r, "http://") by { assert r[4] == 's'; }
  }

  // ---------------------------------------------------------------------
  // find_url

  /** A character that may follow `/` in a blog link: anything but whitespace
      and the characters `'")]}>,.;:`. */
  predicate BlogPathChar(c: char) {
    !IsSpace(c) && c !in "'\")]}>,.;:"
  }

  /** The number of blog-path characters of `t` from position `i`. */
  function BlogPathRun(t: string, i: nat): (n: nat)
    requires i <= |t|
    ensures i + n <= |t|
    decreases |t| - i
  {
    if i < |t| && BlogPathChar(t[i]) then 1 + BlogPathRun(t, i + 1) else 0
  }

  /** The path run takes only blog-path characters, and stops at the end of
      the text or at the first other character. */
  lemma {:induction false} BlogPathRunChars(t: string, i: nat)
    requires i <= |t|
    ensures forall k :: i <= k < i + BlogPathRun(t, i) ==> BlogPathChar(t[k])
    ensures i + BlogPathRun(t, i) == |t| || !BlogPathChar(t[i + BlogPathRun(t, i)])
    decreases |t| - i
  {
    if i < |t| && BlogPathChar(t[i]) {
      BlogPathRunChars(t, i + 1);
    }
  }

  /** The scheme that TALOS_BLOG_REGEX takes at `i`: the length of `https://`
      or `http://` when the host follows it, 0 when the host itself starts at
      `i`, None when no match starts there. */
  function BlogSchemeAt(t: string, i: nat): (r: Option<nat>)
    ensures r.Some? ==> r.value in {0, 7, 8} && OccursAt(t, i + r.value, TalosHost)
    ensures r == Some(8) ==> OccursAt(t, i, "https://")
    ensures r == Some(7) ==> OccursAt(t, i, "http://")
  {
    if OccursAt(t, i, "https://") && OccursAt(t, i + 8, TalosHost) then Some(8)
    else if OccursAt(t, i, "http://") && OccursAt(t, i + 7, TalosHost) then Some(7)
    else if OccursAt(t, i, TalosHost) then Some(0)
    else None
  }

  /** The length of the TALOS_BLOG_REGEX match at `i`, 0 when there is none:
      the scheme, the host, and `/` with the path characters after it when
      the host is followed by `/`. */
  function BlogMatchAt(t: string, i: nat): (n: nat)
    ensures n > 0 ==> i + n <= |t|
  {
    match BlogSchemeAt(t, i)
    case None => 0
    case Some(k) =>
      var e := i + k + |TalosHost|;
      if e < |t| && t[e] == '/' then k + |TalosHost| + 1 + BlogPathRun(t, e + 1)
      else k + |TalosHost|
  }

  /** The leftmost position at or after `from` where TALOS_BLOG_REGEX
      matches, |t| when there is none. */
  function FirstBlogPos(t: string, from: nat): (j: nat)
    requires from <= |t|
    ensures from <= j <= |t|
    ensures forall i :: from <= i < j ==> BlogMatchAt(t, i) == 0
    ensures j < |t| ==> BlogMatchAt(t, j) > 0
    decreases |t| - from
  {
    if from == |t| || BlogMatchAt(t, from) > 0 then from
    else FirstBlogPos(t, from + 1)
  }

  /** The first element of re.findall(TALOS_BLOG_REGEX, t): the match at the
      leftmost matching position. */
  function FirstBlogMatch(t: string): Option<string> {
    var j := FirstBlogPos(t, 0);
    if j < |t| then Some(t[j..j + BlogMatchAt(t, j)]) else None
  }

  /** find_url over `dumped`, the text of json.dumps(contents): the first blog
      link in it put through format_url, "" when there is none. */
  function FindUrl(dumped: string): string {
    match FirstBlogMatch(dumped)
    case None => ""
    case Some(link) => FormatUrl(JStr(link)).s
  }

  /** A slice whose middle part is `h`, cut into its three parts. */
  lemma SliceJoin(t: string, a: nat, b: nat, c: nat, d: nat, h: string)
    requires a <= b <= c <= d <= |t| && t[b..c] == h
    ensures t[a..d] == t[a..b] + h + t[c..d]
  {
    assert t[a..d] == t[a..b] + t[b..c] + t[c..d];
  }

  /** The scheme of a blog match is one of the three the pattern allows, and
      the host follows it. */
  lemma BlogSchemeText(t: string, i: nat)
    requires BlogSchemeAt(t, i).Some?
    ensures var k := BlogSchemeAt(t, i).value;
      && i + k + |TalosHost| <= |t| && t[i + k..i + k + |TalosHost|] == TalosHost
      && (t[i..i + k] == "" || t[i..i + k] == "http://" || t[i..i + k] == "https://")
  {
  }

  /** The host follows the scheme of a blog match. */
  lemma BlogHostText(t: string, i: nat)
    requires BlogSchemeAt(t, i).Some?
    ensures HostEnd(t, i) <= |t| && t[i + BlogSchemeAt(t, i).value..HostEnd(t, i)] == TalosHost
  {
  }

  /** A blog path holds no newline. */
  lemma BlogPathOneLine(t: string, e: nat, end: nat)
    requires e < end <= |t| && t[e] == '/'
    requires forall k :: e < k < end ==> BlogPathChar(t[k])
    ensures forall j :: 0 <= j < |t[e..end]| ==> t[e..end][j] != '\n'
  {
    forall j | 0 <= j < end - e ensures t[e..end][j] != '\n' {
      assert t[e..end][j] == t[e + j];
      if j > 0 {
        assert BlogPathChar(t[e + j]);
      }
    }
  }

  /** The end of the host in a blog match at `i`. */
  function HostEnd(t: string, i: nat): nat
    requires BlogSchemeAt(t, i).Some?
  {
    i + BlogSchemeAt(t, i).value + |TalosHost|
  }

  /** A blog match is its scheme, the host and the rest (BlogSchemeText
      says which schemes). */
  lemma BlogMatchSplit(t: string, i: nat)
    requires BlogMatchAt(t, i) > 0
    ensures HostEnd(t, i) <= i + BlogMatchAt(t, i)
    ensures var k := BlogSchemeAt(t, i).value;
      t[i..i + BlogMatchAt(t, i)] == t[i..i + k] + TalosHost + t[HostEnd(t, i)..i + BlogMatchAt(t, i)]
  {
    var k := BlogSchemeAt(t, i).value;
    var n := BlogMatchAt(t, i);
    var e := HostEnd(t, i);
    BlogHostText(t, i);
    assert e <= i + n;
    SliceJoin(t, i, i + k, e, i + n, TalosHost);
  }

  /** What follows the host in a blog match is empty or a `/` and a path
      without newlines. */
  lemma BlogMatchPath(t: string, i: nat)
    requires BlogMatchAt(t, i) > 0
    ensures HostEnd(t, i) <= i + BlogMatchAt(t, i)
    ensures var p := t[HostEnd(t, i)..i + BlogMatchAt(t, i)];
      && (p == "" || p[0] == '/')
      && (forall j :: 0 <= j < |p| ==> p[j] != '\n')
  {
    var e := HostEnd(t, i);
    if e < |t| && t[e] == '/' {
      BlogPathRunChars(t, e + 1);
      BlogPathOneLine(t, e, i + BlogMatchAt(t, i));
    }
  }

  /** find_url returns "" exactly when the text holds no blog link. */
  lemma FindUrlNoLink(dumped: string)
    ensures FindUrl(dumped) == "" <==> forall i :: 0 <= i < |dumped| ==> BlogMatchAt(dumped, i) == 0
  {
    var j := FirstBlogPos(dumped, 0);
    if j < |dumped| {
      FindUrlOfFirstLink(dumped, j);
      LongerThanEmpty("https://", TalosHost + DateStripped(dumped[HostEnd(dumped, j)..j + BlogMatchAt(dumped, j)]));
    }
  }

  lemma LongerThanEmpty(a: string, b: string)
    requires a != ""
    ensures a + b != ""
  {
    assert |a + b| > 0;
  }

  /** With the leftmost blog link at `i`, find_url returns
      `https://blog.talosintelligence.com` and the path of that link, its
      date segment removed; later links are ignored. */
  lemma FindUrlOfFirstLink(dumped: string, i: nat)
    requires i < |dumped| && BlogMatchAt(dumped, i) > 0
    requires forall j :: 0 <= j < i ==> BlogMatchAt(dumped, j) == 0
    ensures HostEnd(dumped, i) <= i + BlogMatchAt(dumped, i)
    ensures FindUrl(dumped) ==
      "https://" + TalosHost + DateStripped(dumped[HostEnd(dumped, i)..i + BlogMatchAt(dumped, i)])
  {
    var j := FirstBlogPos(dumped, 0);
    assert j == i;
    var p := BlogLinkFormatted(dumped, i);
  }

  /** The blog match at `i` put through format_url: the https host and the
      path `p` of the match, less its date segment. */
  lemma BlogLinkFormatted(t: string, i: nat) returns (p: string)
    requires BlogMatchAt(t, i) > 0
    ensures HostEnd(t, i) <= i + BlogMatchAt(t, i) && p == t[HostEnd(t, i)..i + BlogMatchAt(t, i)]
    ensures FormatUrl(JStr(t[i..i + BlogMatchAt(t, i)])) == JStr("https://" + TalosHost + DateStripped(p))
  {
    BlogMatchSplit(t, i);
    BlogMatchPath(t, i);
    BlogSchemeText(t, i);
    var k := BlogSchemeAt(t, i).value;
    p := t[HostEnd(t, i)..i + BlogMatchAt(t, i)];
    FormatUrlTalos(t[i..i + k], p);
  }

  // ---------------------------------------------------------------------
  // find_title, find_date

  const PackageTitlePath: seq<string> :=
    ["related_packages", "related_packages", "[0]", "package", "incidents", "[0]", "title"]
  const EventInfoPath: seq<string> := ["response", "[0]", "Event", "info"]
  const EventDatePath: seq<string> := ["response", "[0]", "Event", "date"]

  /** The loop over a bundle's objects: the `field` value of the first object
      whose "type" is `kind` (None when there is none). `.get` raises on an
      object that is not a dict and is reached before a match. */
  function FirstOfType(objs: seq<Json>, kind: string, field: string): (r: Outcome<Option<Json>>)
    ensures r.Raises? ==> r.error == AttributeError
    decreases |objs|
  {
    if objs == [] then Ok(None)
    else
      match DictGet(objs[0], "type")
      case Raises(e) => Raises(e)
      case Ok(ty) =>
        if ty == JStr(kind) then Ok(Some(DictGet(objs[0], field).value))
        else FirstOfType(objs[1..], kind, field)
  }

  /** An object of type `kind` preceded only by dicts of other types is the
      one the loop returns from. */
  predicate FirstOfKindAt(objs: seq<Json>, kind: string, k: nat) {
    && k < |objs|
    && objs[k].JObject? && Get(objs[k], "type") == JStr(kind)
    && forall j :: 0 <= j < k ==> objs[j].JObject? && Get(objs[j], "type") != JStr(kind)
  }

  lemma {:induction false} FirstOfTypeAt(objs: seq<Json>, kind: string, field: string, k: nat)
    requires FirstOfKindAt(objs, kind, k)
    ensures FirstOfType(objs, kind, field) == Ok(Some(Get(objs[k], field)))
    decreases k
  {
    if k > 0 {
      assert FirstOfKindAt(objs[1..], kind, k - 1) by {
        forall j | 0 <= j < k - 1 ensures objs[1..][j].JObject? && Get(objs[1..][j], "type") != JStr(kind) {
          assert objs[1..][j] == objs[j + 1];
        }
      }
      FirstOfTypeAt(objs[1..], kind, field, k - 1);
    }
  }

  /** The loop ends without a match exactly when every object is a dict of
      another type. */
  lemma {:induction false} FirstOfTypeNone(objs: seq<Json>, kind: string, field: string)
    ensures FirstOfType(objs, kind, field) == Ok(None) <==>
      forall j :: 0 <= j < |objs| ==> objs[j].JObject? && Get(objs[j], "type") != JStr(kind)
    decreases |objs|
  {
    if objs != [] {
      FirstOfTypeNone(objs[1..], kind, field);
      assert forall j :: 1 <= j < |objs| ==> objs[j] == objs[1..][j - 1];
    }
  }

  /** The bundle stage of find_title and find_date: `contents.get("objects")`
      and, when it is not None, the loop over it. */
  function BundleField(contents: Json, kind: string, field: string): Outcome<Option<Json>> {
    match DictGet(contents, "objects")
    case Raises(e) => Raises(e)
    case Ok(objects) =>
      if objects == JNull then Ok(None)
      else
        match Iterate(objects)
        case Raises(e) => Raises(e)
        case Ok(objs) => FirstOfType(objs, kind, field)
  }

  /** A stage's value when it is not None, the next stage otherwise; an
      exception stops the chain. */
  function OrElse(o: Outcome<Json>, next: Outcome<Json>): Outcome<Json> {
    match o
    case Raises(e) => Raises(e)
    case Ok(v) => if v != JNull then Ok(v) else next
  }

  /** find_title: the name of the first "report" object of a bundle, else the
      package incident title, else the MISP event info, else "". */
  function Title(contents: Json): Outcome<Json> {
    match BundleField(contents, "report", "name")
    case Raises(e) => Raises(e)
    case Ok(Some(name)) => Ok(name)
    case Ok(None) =>
      OrElse(Nested(contents, PackageTitlePath, JNull),
        OrElse(Nested(contents, EventInfoPath, JNull), Ok(JStr(""))))
  }

  /** find_date: the "created" of the first "identity" object of a bundle,
      else the "timestamp" field, else the MISP event date, else "". */
  function Date(contents: Json): Outcome<Json> {
    match BundleField(contents, "identity", "created")
    case Raises(e) => Raises(e)
    case Ok(Some(created)) => Ok(created)
    case Ok(None) =>
      OrElse(DictGet(contents, "timestamp"),
        OrElse(Nested(contents, EventDatePath, JNull), Ok(JStr(""))))
  }

  /** Both readers call `.get` on the document first, so a document that
      is not a dict raises AttributeError. */
  lemma ReadersNeedDict(contents: Json)
    requires !contents.JObject?
    ensures Title(contents) == Raises(AttributeError)
    ensures Date(contents) == Raises(AttributeError)
  {
  }

  /** In a bundle the first "report" object gives the title, whatever else
      the document holds. */
  lemma BundleTitle(contents: Dict, objs: seq<Json>, r: nat)
    requires Get(contents, "objects") == JList(objs)
    requires FirstOfKindAt(objs, "report", r)
    ensures Title(contents) == Ok(Get(objs[r], "name"))
  {
    FirstOfTypeAt(objs, "report", "name", r);
  }

  /** In a bundle the first "identity" object gives the date, whatever else
      the document holds. */
  lemma BundleDate(contents: Dict, objs: seq<Json>, i: nat)
    requires Get(contents, "objects") == JList(objs)
    requires FirstOfKindAt(objs, "identity", i)
    ensures Date(contents) == Ok(Get(objs[i], "created"))
  {
    FirstOfTypeAt(objs, "identity", "created", i);
  }

  /** When the bundle stage finds no identity object, a "timestamp" that is
      not None is the date. */
  lemma TimestampDate(contents: Dict, ts: Json)
    requires BundleField(contents, "identity", "created") == Ok(None)
    requires Lookup(contents.entries, "timestamp") == Some(ts) && ts != JNull
    ensures Date(contents) == Ok(ts)
  {
  }

  /** Without "objects", a document's "timestamp" that is not None is its
      date. */
  lemma TimestampDateNoBundle(contents: Dict, ts: Json)
    requires Lookup(contents.entries, "objects").None?
    requires Lookup(contents.entries, "timestamp") == Some(ts) && ts != JNull
    ensures Date(contents) == Ok(ts)
  {
    TimestampDate(contents, ts);
  }

  /** A dict with none of the keys the readers know has title "" and date "". */
  lemma ReadersDefault(contents: Dict)
    requires forall key :: key in {"objects", "related_packages", "timestamp", "response"} ==>
      Lookup(contents.entries, key).None?
    ensures Title(contents) == Ok(JStr(""))
    ensures Date(contents) == Ok(JStr(""))
  {
    NestedMissingKey(contents, "related_packages", PackageTitlePath[1..], JNull);
    assert PackageTitlePath == ["related_packages"] + PackageTitlePath[1..];
    NestedMissingKey(contents, "response", EventInfoPath[1..], JNull);
    assert EventInfoPath == ["response"] + EventInfoPath[1..];
    NestedMissingKey(contents, "response", EventDatePath[1..], JNull);
    assert EventDatePath == ["response"] + EventDatePath[1..];
  }

  /** A package document's incident title is its title when it has no
      "objects" entry. */
  lemma PackageTitle(contents: Dict, title: Json)
    requires Lookup(contents.entries, "objects").None?
    requires Nested(contents, PackageTitlePath, JNull) == Ok(title) && title != JNull
    ensures Title(contents) == Ok(title)
  {
  }

  /** A MISP export holding one event: `{"response": [{"Event": event}]}`. */
  function MispDocument(event: Dict): Dict {
    JObject([("response", JList([JObject([("Event", event)])]))])
  }

  const EventPath: seq<string> := ["response", "[0]", "Event"]

  lemma {:induction false} MispEventWalk(event: Dict)
    ensures Walk(MispDocument(event), EventPath) == Ok(Some(event))
  {
    var entry := JObject([("Event", event)]);
    assert EventPath == ["response"] + ["[0]"] + ["Event"];
    WalkAppend(MispDocument(event), ["response"] + ["[0]"], ["Event"]);
    WalkAppend(MispDocument(event), ["response"], ["[0]"]);
    assert Walk(MispDocument(event), ["response"]) == Ok(Some(JList([entry])));
    assert Walk(JList([entry]), ["[0]"]) == Ok(Some(entry));
    assert Walk(entry, ["Event"]) == Ok(Some(event));
  }

  /** The event field `key` of a MISP export. */
  lemma MispEventField(event: Dict, key: string, v: Json)
    requires key != "[0]" && Lookup(event.entries, key) == Some(v)
    ensures Nested(MispDocument(event), EventPath + [key], JNull) == Ok(v)
  {
    MispEventWalk(event);
    WalkAppend(MispDocument(event), EventPath, [key]);
    assert [key][1..] == [];
    assert Walk(event, [key]) == Ok(Some(v));
  }

  /** A MISP export takes its title from the event's "info" and its date
      from the event's "date". */
  lemma MispReaders(event: Dict, info: Json, date: Json)
    requires Lookup(event.entries, "info") == Some(info) && info != JNull
    requires Lookup(event.entries, "date") == Some(date) && date != JNull
    ensures Title(MispDocument(event)) == Ok(info)
    ensures Date(MispDocument(event)) == Ok(date)
  {
    var contents := MispDocument(event);
    NestedMissingKey(contents, "related_packages", PackageTitlePath[1..], JNull);
    assert PackageTitlePath == ["related_packages"] + PackageTitlePath[1..];
    assert EventInfoPath == EventPath + ["info"] && EventDatePath == EventPath + ["date"];
    MispEventField(event, "info", info);
    MispEventField(event, "date", date);
  }

  // ---------------------------------------------------------------------
  // find_ttps

  /** The three document shapes find_ttps reads technique objects from, in
      the order it tries them. */
  datatype Tier = BundleTier | PackageTier | GalaxyTier

  const PackageTtpsPath: seq<string> :=
    ["related_packages", "related_packages", "[0]", "package", "ttps", "ttps"]
  const BehaviourTitlePath: seq<string> := ["behavior", "attack_patterns", "[0]", "title"]
  const GalaxyClusterPath: seq<string> := ["response", "[0]", "Event", "Galaxy", "[0]", "GalaxyCluster"]

  /** The container a tier loops over, None when it is missing. */
  function TierContainer(contents: Json, tier: Tier): Outcome<Json> {
    match tier
    case BundleTier => DictGet(contents, "objects")
    case PackageTier => Nested(contents, PackageTtpsPath, JNull)
    case GalaxyTier => Nested(contents, GalaxyClusterPath, JNull)
  }

  /** The objects of a tier: None when its container is None; iterating
      a container that is not a list, dict or string raises. */
  function TierObjects(contents: Json, tier: Tier): Outcome<Option<seq<Json>>> {
    match TierContainer(contents, tier)
    case Raises(e) => Raises(e)
    case Ok(c) =>
      if c == JNull then Ok(None)
      else
        match Iterate(c)
        case Raises(e) => Raises(e)
        case Ok(objs) => Ok(Some(objs))
  }

  /** The text an object offers to the token pattern, None when it offers
      none: the "name" of an "attack-pattern" object of a bundle, the title of
      a package TTP's first attack pattern, the "value" of a galaxy cluster. */
  function TierText(tier: Tier, obj: Json): Outcome<Json> {
    match tier
    case BundleTier =>
      (match DictGet(obj, "type")
       case Raises(e) => Raises(e)
       case Ok(ty) => if ty == JStr("attack-pattern") then DictGet(obj, "name") else Ok(JNull))
    case PackageTier => Nested(obj, BehaviourTitlePath, JNull)
    case GalaxyTier => DictGet(obj, "value")
  }

  /** `tids = re.findall(TTP_REGEX, text)` and its first element: None when
      there is no text or no token; a text that is not a string raises. */
  function FirstToken(text: Json): (r: Outcome<Option<string>>)
    ensures r.Ok? && r.value.Some? ==>
      text.JStr? && TtpTokens.FindTtps(text.s) != [] && r.value.value == TtpTokens.FindTtps(text.s)[0]
    ensures r.Ok? && r.value.None? <==> text.JNull? || (text.JStr? && TtpTokens.FindTtps(text.s) == [])
    ensures r.Raises? ==> r.error == TypeError
  {
    match text
    case JNull => Ok(None)
    case JStr(s) => if TtpTokens.FindTtps(s) == [] then Ok(None) else Ok(Some(TtpTokens.FindTtps(s)[0]))
    case _ => Raises(TypeError)
  }

  /** The first token of the text an object offers, None when it offers no
      text or no token. */
  function ObjectTid(tier: Tier, obj: Json): (r: Outcome<Option<string>>)
    ensures r.Ok? && r.value.Some? ==> IsTidShape(r.value.value)
  {
    match TierText(tier, obj)
    case Raises(e) => Raises(e)
    case Ok(text) => FirstToken(text)
  }

  /** What one object adds to a tier's records: nothing when it offers no
      token, the resolved record of its first token otherwise. */
  function ObjectRecord(tier: Tier, obj: Json, resolve: Resolver): Outcome<Option<Technique>> {
    match ObjectTid(tier, obj)
    case Raises(e) => Raises(e)
    case Ok(None) => Ok(None)
    case Ok(Some(tid)) =>
      match resolve(tid)
      case Raises(e) => Raises(e)
      case Ok(t) => Ok(Some(t))
  }

  /** The loop of a tier: each object's first token resolved in turn, objects
      without a token skipped; the first exception stops the loop. */
  function TierRecords(tier: Tier, objs: seq<Json>, resolve: Resolver): Outcome<seq<Technique>>
    decreases |objs|
  {
    if objs == [] then Ok([])
    else
      match ObjectRecord(tier, objs[0], resolve)
      case Raises(e) => Raises(e)
      case Ok(None) => TierRecords(tier, objs[1..], resolve)
      case Ok(Some(t)) => After([t], TierRecords(tier, objs[1..], resolve))
  }

  /** One turn of a tier's loop that has collected `ttps` and reached `i`. */
  lemma TierRecordsStep(ttps: seq<Technique>, tier: Tier, objs: seq<Json>, i: nat, resolve: Resolver)
    requires i < |objs|
    ensures After(ttps, TierRecords(tier, objs[i..], resolve)) ==
      match ObjectRecord(tier, objs[i], resolve)
      case Raises(e) => Raises(e)
      case Ok(None) => After(ttps, TierRecords(tier, objs[i + 1..], resolve))
      case Ok(Some(t)) => After(ttps + [t], TierRecords(tier, objs[i + 1..], resolve))
  {
    assert objs[i..][0] == objs[i] && objs[i..][1..] == objs[i + 1..];
    var rest := TierRecords(tier, objs[i + 1..], resolve);
    forall t: Technique
      ensures After(ttps, After([t], rest)) == After(ttps + [t], rest)
    {
      AfterAfter(ttps, [t], rest);
    }
  }

  /** The ids a tier's loop asks for: the first token of each object that has
      one, in order. */
  function TierIds(tier: Tier, objs: seq<Json>): (r: Outcome<seq<string>>)
    ensures r.Ok? ==> |r.value| <= |objs|
    ensures r.Ok? ==> forall k :: 0 <= k < |r.value| ==> IsTidShape(r.value[k])
    decreases |objs|
  {
    if objs == [] then Ok([])
    else
      match ObjectTid(tier, objs[0])
      case Raises(e) => Raises(e)
      case Ok(None) => TierIds(tier, objs[1..])
      case Ok(Some(tid)) =>
        match TierIds(tier, objs[1..])
        case Raises(e) => Raises(e)
        case Ok(ids) => Ok([tid] + ids)
  }

  /** When reading the objects raises nothing, the loop resolves exactly the
      ids TierIds lists. */
  lemma {:induction false} TierRecordsResolveIds(tier: Tier, objs: seq<Json>, resolve: Resolver)
    requires TierIds(tier, objs).Ok?
    ensures TierRecords(tier, objs, resolve) == ResolveAll(TierIds(tier, objs).value, resolve)
    decreases |objs|
  {
    if objs != [] {
      TierRecordsResolveIds(tier, objs[1..], resolve);
      if ObjectTid(tier, objs[0]).value.Some? {
        var tid := ObjectTid(tier, objs[0]).value.value;
        ResolveAllCons(tid, TierIds(tier, objs[1..]).value, resolve);
      }
    }
  }

  /** A record the loop returns carries a technique token, when the resolver
      keeps ids. */
  lemma {:induction false} TierRecordsAreTokens(tier: Tier, objs: seq<Json>, resolve: Resolver)
    requires KeepsIds(resolve) && TierRecords(tier, objs, resolve).Ok?
    ensures forall t :: t in TierRecords(tier, objs, resolve).value ==> IsTidShape(t.id)
    decreases |objs|
  {
    if objs != [] {
      TierRecordsAreTokens(tier, objs[1..], resolve);
      if ObjectTid(tier, objs[0]).value.Some? {
        assert IsTidShape(ObjectTid(tier, objs[0]).value.value);
      }
    }
  }

  /** What one tier of find_ttps returns: nothing when its container is
      missing, the loop's records otherwise. */
  function TierTtps(contents: Json, tier: Tier, resolve: Resolver): Outcome<seq<Technique>> {
    match TierObjects(contents, tier)
    case Raises(e) => Raises(e)
    case Ok(None) => Ok([])
    case Ok(Some(objs)) => TierRecords(tier, objs, resolve)
  }

  /** A tier's records when it found some, the next tier otherwise; an
      exception stops the chain. */
  function OrNext(o: Outcome<seq<Technique>>, next: Outcome<seq<Technique>>): Outcome<seq<Technique>> {
    if o.Raises? || o.value != [] then o else next
  }

  /** find_ttps, with `dumped` the text of json.dumps(contents): the first
      tier that finds records, else every token of the whole text
      resolved. */
  function Ttps(contents: Json, dumped: string, resolve: Resolver): Outcome<seq<Technique>> {
    OrNext(TierTtps(contents, BundleTier, resolve),
      OrNext(TierTtps(contents, PackageTier, resolve),
        OrNext(TierTtps(contents, GalaxyTier, resolve),
          ResolveAll(TtpTokens.FindTtps(dumped), resolve))))
  }

  /** A tier that finds records decides the answer, so the whole-text scan
      is not consulted. */
  lemma TtpsIgnoresTextWhenTierFinds(contents: Json, d1: string, d2: string, resolve: Resolver)
    requires exists tier :: TierTtps(contents, tier, resolve).Ok? && TierTtps(contents, tier, resolve).value != []
    ensures Ttps(contents, d1, resolve) == Ttps(contents, d2, resolve)
  {
    var tier :| TierTtps(contents, tier, resolve).Ok? && TierTtps(contents, tier, resolve).value != [];
    var b := TierTtps(contents, BundleTier, resolve);
    var p := TierTtps(contents, PackageTier, resolve);
    var g := TierTtps(contents, GalaxyTier, resolve);
    assert b != Ok([]) || p != Ok([]) || g != Ok([]) by {
      match tier {
        case BundleTier =>
        case PackageTier =>
        case GalaxyTier =>
      }
    }
  }

  /** With no tier finding anything, find_ttps resolves every token of the
      whole text, in order. */
  lemma TtpsWholeText(contents: Json, dumped: string, resolve: Resolver)
    requires forall tier :: TierTtps(contents, tier, resolve) == Ok([])
    ensures Ttps(contents, dumped, resolve) == ResolveAll(TtpTokens.FindTtps(dumped), resolve)
  {
    assert TierTtps(contents, BundleTier, resolve) == Ok([]);
    assert TierTtps(contents, PackageTier, resolve) == Ok([]);
    assert TierTtps(contents, GalaxyTier, resolve) == Ok([]);
  }

  /** Every record find_ttps returns carries a technique token as id. */
  lemma TtpsAreTokens(contents: Json, dumped: string, resolve: Resolver)
    requires KeepsIds(resolve) && Ttps(contents, dumped, resolve).Ok?
    ensures forall t :: t in Ttps(contents, dumped, resolve).value ==> IsTidShape(t.id)
  {
    var r := Ttps(contents, dumped, resolve);
    if r == TierTtps(contents, BundleTier, resolve) {
      TierTtpsAreTokens(contents, BundleTier, resolve);
    } else if r == TierTtps(contents, PackageTier, resolve) {
      TierTtpsAreTokens(contents, PackageTier, resolve);
    } else if r == TierTtps(contents, GalaxyTier, resolve) {
      TierTtpsAreTokens(contents, GalaxyTier, resolve);
    } else {
      var tids := TtpTokens.FindTtps(dumped);
      assert r == ResolveAll(tids, resolve);
      ResolveAllIds(tids, resolve);
      forall t | t in r.value ensures IsTidShape(t.id) {
        var k :| 0 <= k < |r.value| && r.value[k] == t;
        assert Ids(r.value)[k] == t.id;
      }
    }
  }

  lemma TierTtpsAreTokens(contents: Json, tier: Tier, resolve: Resolver)
    requires KeepsIds(resolve) && TierTtps(contents, tier, resolve).Ok?
    ensures forall t :: t in TierTtps(contents, tier, resolve).value ==> IsTidShape(t.id)
  {
    if TierObjects(contents, tier).value.Some? {
      TierRecordsAreTokens(tier, TierObjects(contents, tier).value.value, resolve);
    }
  }

  // ---------------------------------------------------------------------
  // TalosReport

  /** A Talos report: the URL of its IOC file, the parsed document and the
      taxonomy, all fixed when the report is built. */
  datatype TalosReport = TalosReport(url: string, contents: Json, mitre: MitreAttack) {

    /** get_nested: the loop reassigning `d`, one key at a time. */
    method GetNested(dictn: Json, keys: seq<string>, default: Json) returns (r: Outcome<Json>)
      ensures r == Nested(dictn, keys, default)
    {
      var d := dictn;
      var i := 0;
      while i < |keys|
        invariant i <= |keys|
        invariant Walk(dictn, keys) == Walk(d, keys[i..])
      {
        var key := keys[i];
        assert keys[i..][0] == key && keys[i..][1..] == keys[i + 1..];
        if key == "[0]" {
          var n := Len(d);
          if n.Raises? {
            return Raises(TypeError);
          }
          if n.value > 0 {
            match d {
              case JList(items) => d := items[0];
              case JStr(chars) => d := JStr([chars[0]]);
              case _ => return Raises(KeyError);
            }
            i := i + 1;
            continue;
          }
        }
        if d.JObject? && Lookup(d.entries, key).Some? {
          d := Lookup(d.entries, key).value;
        } else {
          return Ok(default);
        }
        i := i + 1;
      }
      return Ok(d);
    }

    /** `objects = self.contents.get("objects")` and the early-return loop
        over it that find_title and find_date share. */
    method ScanBundle(kind: string, field: string) returns (r: Outcome<Option<Json>>)
      ensures r == BundleField(contents, kind, field)
    {
      var objects := DictGet(contents, "objects");
      if objects.Raises? {
        return Raises(objects.error);
      }
      if objects.value == JNull {
        return Ok(None);
      }
      var objs := Iterate(objects.value);
      if objs.Raises? {
        return Raises(objs.error);
      }
      var items := objs.value;
      var i := 0;
      while i < |items|
        invariant i <= |items|
        invariant FirstOfType(items, kind, field) == FirstOfType(items[i..], kind, field)
      {
        assert items[i..][0] == items[i] && items[i..][1..] == items[i + 1..];
        var ty := DictGet(items[i], "type");
        if ty.Raises? {
          return Raises(ty.error);
        }
        if ty.value == JStr(kind) {
          return Ok(Some(DictGet(items[i], field).value));
        }
        i := i + 1;
      }
      return Ok(None);
    }

    /** find_title. */
    method FindTitle() returns (r: Outcome<Json>)
      ensures r == Title(contents)
    {
      var name := ScanBundle("report", "name");
      if name.Raises? {
        return Raises(name.error);
      }
      if name.value.Some? {
        return Ok(name.value.value);
      }
      var title := GetNested(contents, PackageTitlePath, JNull);
      if title.Raises? || title.value != JNull {
        return title;
      }
      title := GetNested(contents, EventInfoPath, JNull);
      if title.Raises? || title.value != JNull {
        return title;
      }
      return Ok(JStr(""));
    }

    /** find_date. */
    method FindDate() returns (r: Outcome<Json>)
      ensures r == Date(contents)
    {
      var created := ScanBundle("identity", "created");
      if created.Raises? {
        return Raises(created.error);
      }
      if created.value.Some? {
        return Ok(created.value.value);
      }
      var timestamp := DictGet(contents, "timestamp");
      if timestamp.Raises? || timestamp.value != JNull {
        return timestamp;
      }
      timestamp := GetNested(contents, EventDatePath, JNull);
      if timestamp.Raises? || timestamp.value != JNull {
        return timestamp;
      }
      return Ok(JStr(""));
    }

    /** The text one object of a tier offers (`obj.get("name")` after the
        type check, the get_nested title, or `obj.get("value")`). */
    method ObjectText(tier: Tier, obj: Json) returns (r: Outcome<Json>)
      ensures r == TierText(tier, obj)
    {
      match tier {
        case BundleTier =>
          var ty := DictGet(obj, "type");
          if ty.Raises? {
            return Raises(ty.error);
          }
          if ty.value != JStr("attack-pattern") {
            return Ok(JNull);
          }
          return DictGet(obj, "name");
        case PackageTier =>
          r := GetNested(obj, BehaviourTitlePath, JNull);
        case GalaxyTier =>
          return DictGet(obj, "value");
      }
    }

    /** One object of a tier's loop: its text, the first token of it, and
        that token looked up. */
    method CollectObject(tier: Tier, obj: Json, web: Web) returns (r: Outcome<Option<Technique>>)
      ensures r == ObjectRecord(tier, obj, mitre.Resolver(web))
    {
      var text := ObjectText(tier, obj);
      if text.Raises? {
        return Raises(text.error);
      }
      var tid := FirstToken(text.value);
      if tid.Raises? {
        return Raises(tid.error);
      }
      if tid.value.None? {
        return Ok(None);
      }
      var info := mitre.GetMitreInfo(tid.value.value, web);
      if info.Raises? {
        return Raises(info.error);
      }
      return Ok(Some(info.value));
    }

    /** One tier's loop: the first token of each object's text looked up
        and appended. */
    method CollectTier(tier: Tier, objs: seq<Json>, web: Web) returns (r: Outcome<seq<Technique>>)
      ensures r == TierRecords(tier, objs, mitre.Resolver(web))
    {
      ghost var resolve := mitre.Resolver(web);
      var ttps: seq<Technique> := [];
      var i := 0;
      while i < |objs|
        invariant i <= |objs|
        invariant TierRecords(tier, objs, resolve) == After(ttps, TierRecords(tier, objs[i..], resolve))
      {
        TierRecordsStep(ttps, tier, objs, i, resolve);
        var record := CollectObject(tier, objs[i], web);
        if record.Raises? {
          return Raises(record.error);
        }
        if record.value.Some? {
          ttps := ttps + [record.value.value];
        }
        i := i + 1;
      }
      assert ttps + [] == ttps;
      return Ok(ttps);
    }

    /** One tier of find_ttps: its container, then the loop over it. */
    method ReadTier(tier: Tier, web: Web) returns (r: Outcome<seq<Technique>>)
      ensures r == TierTtps(contents, tier, mitre.Resolver(web))
    {
      var container: Outcome<Json>;
      match tier {
        case BundleTier => container := DictGet(contents, "objects");
        case PackageTier => container := GetNested(contents, PackageTtpsPath, JNull);
        case GalaxyTier => container := GetNested(contents, GalaxyClusterPath, JNull);
      }
      if container.Raises? {
        return Raises(container.error);
      }
      if container.value == JNull {
        return Ok([]);
      }
      var objs := Iterate(container.value);
      if objs.Raises? {
        return Raises(objs.error);
      }
      r := CollectTier(tier, objs.value, web);
    }

    /** find_ttps, given json.dumps(contents) as `dumped`: the tiers in order,
        the first that finds records returned, then the whole-text scan. */
    method FindTtps(dumped: string, web: Web) returns (r: Outcome<seq<Technique>>)
      ensures r == Ttps(contents, dumped, mitre.Resolver(web))
    {
      r := ReadTier(BundleTier, web);
      if r.Raises? || r.value != [] {
        return r;
      }
      r := ReadTier(PackageTier, web);
      if r.Raises? || r.value != [] {
        return r;
      }
      r := ReadTier(GalaxyTier, web);
      if r.Raises? || r.value != [] {
        return r;
      }
      r := ResolveEach(TtpTokens.FindTtps(dumped), mitre.Resolver(web));
    }
  }
}
