/** Technique resolution (utils.py, class MitreAttack): a lookup in the ATT&CK
    taxonomy, and when the id is not there, its name scraped from the
    technique's page on attack.mitre.org, following client-side redirects.
    The taxonomy is a map from technique id to attack pattern; the network is
    an oracle from URL to fetch result, and urljoin is an oracle too. */
module Mitre {
  import opened Json
  import opened Techniques

  const MitreBase: string := "https://attack.mitre.org"

  /** max_follow: fetches allowed per candidate URL. */
  const MaxFollow: nat := 5

  datatype KillChainPhase = KillChainPhase(killChainName: string, phaseName: string)

  /** A technique of the taxonomy; `killChainPhases` is None when the STIX
      object has no such property. */
  datatype AttackPattern = AttackPattern(name: string, killChainPhases: Option<seq<KillChainPhase>>)

  /** What fetch(url) gives: a page (the stripped text of its first h1 and the
      `content` attribute of its first meta tag, when present), an HTTP error
      status (requests.HTTPError), or any other failure of requests, which the
      scraper does not catch. */
  datatype FetchResult =
    | Page(h1: Option<string>, metaContent: Option<string>)
    | HttpError
    | RequestFailure

  /** The environment: `fetch`, and `urljoin(MITRE_BASE, target)`. */
  datatype Web = Web(fetch: string -> FetchResult, urljoin: string -> string)

  /** The phase names, one per kill-chain phase, in order. */
  function PhaseNames(phases: seq<KillChainPhase>): (r: seq<string>)
    ensures |r| == |phases|
    ensures forall i :: 0 <= i < |phases| ==> r[i] == phases[i].phaseName
  {
    seq(|phases|, i requires 0 <= i < |phases| => phases[i].phaseName)
  }

  /** The position of the first `c` in `s`, or |s|. */
  function IndexOf(s: string, c: char): (k: nat)
    ensures k <= |s|
    ensures c !in s[..k]
    ensures k < |s| ==> s[k] == c
  {
    if s == [] then 0
    else if s[0] == c then 0
    else 1 + IndexOf(s[1..], c)
  }

  /** The first `c` is the position before which there is no `c`. */
  lemma {:induction false} IndexOfAt(s: string, c: char, j: nat)
    requires j <= |s| && c !in s[..j]
    requires j < |s| ==> s[j] == c
    ensures IndexOf(s, c) == j
  {
    if s != [] && j > 0 {
      assert s[0] in s[..j];
      assert s[1..][..j - 1] == s[..j][1..];
      IndexOfAt(s[1..], c, j - 1);
    }
  }

  function Zeros(n: nat): (r: string)
    ensures |r| == n && forall i :: 0 <= i < n ==> r[i] == '0'
  {
    if n == 0 then "" else "0" + Zeros(n - 1)
  }

  /** str.zfill(width): '0's inserted after any leading sign up to `width`. */
  function ZFill(s: string, width: nat): (r: string)
    ensures |r| == if |s| >= width then |s| else width
    ensures |s| >= width ==> r == s
    ensures |s| < width ==>
      var k := if |s| > 0 && (s[0] == '+' || s[0] == '-') then 1 else 0;
      && r[..k] == s[..k]
      && r[k..k + width - |s|] == Zeros(width - |s|)
      && r[k + width - |s|..] == s[k..]
  {
    if |s| >= width then s
    else if |s| > 0 && (s[0] == '+' || s[0] == '-') then [s[0]] + Zeros(width - |s|) + s[1..]
    else Zeros(width - |s|) + s
  }

  /** The technique pages to try for `tid`, in order. */
  function Candidates(tid: string): (r: seq<string>)
    ensures 1 <= |r| <= 2
  {
    var k := IndexOf(tid, '.');
    if k < |tid| then
      var base := tid[..k];
      var sub := ZFill(tid[k + 1..], 3);
      [MitreBase + "/techniques/" + base + "/" + sub + "/", MitreBase + "/techniques/" + base + "/"]
    else
      [MitreBase + "/techniques/" + tid + "/"]
  }

  /** A dotted id `B.S` (split at its first dot) gives the sub-technique page,
      with S zero-padded to three digits, then the parent page; an id without
      a dot gives its own page only. */
  lemma CandidatesShape(tid: string, base: string, sub: string)
    ensures '.' !in tid ==> Candidates(tid) == [MitreBase + "/techniques/" + tid + "/"]
    ensures tid == base + "." + sub && '.' !in base ==>
      Candidates(tid) == [MitreBase + "/techniques/" + base + "/" + ZFill(sub, 3) + "/",
                          MitreBase + "/techniques/" + base + "/"]
  {
    if '.' !in tid {
      assert tid[..|tid|] == tid;
      IndexOfAt(tid, '.', |tid|);
    }
    if tid == base + "." + sub && '.' !in base {
      assert tid[..|base|] == base;
      IndexOfAt(tid, '.', |base|);
      assert tid[|base| + 1..] == sub;
    }
  }

  /** A two-digit suffix is padded to three digits. */
  lemma ZFillExample()
    ensures ZFill("11", 3) == "011"
    ensures ZFill("-5", 3) == "-05"
  {
    assert Zeros(1) == "0";
  }

  /** A sub-technique id with a two-digit suffix has it padded to three digits. */
  lemma CandidatesExample1()
    ensures Candidates("T1547.11") ==
      [MitreBase + "/techniques/" + "T1547" + "/" + "011" + "/", MitreBase + "/techniques/" + "T1547" + "/"]
  {
    assert "T1547.11" == "T1547" + "." + "11";
    assert '.' !in "T1547";
    CandidatesShape("T1547.11", "T1547", "11");
    ZFillExample();
  }

  lemma CandidatesExample2()
    ensures Candidates("T9999") == [MitreBase + "/techniques/" + "T9999" + "/"]
  {
    assert '.' !in "T9999";
    CandidatesShape("T9999", "", "");
  }

  /** `re.sub(r":(?!:)", ": ", text)`: a space inserted after every colon that
      is not followed by another colon. */
  function FixColons(s: string): (r: string)
    ensures s != [] ==> r != [] && r[0] == s[0]
    ensures |r| >= |s|
  {
    if s == [] then []
    else if s[0] == ':' && !(|s| > 1 && s[1] == ':') then ": " + FixColons(s[1..])
    else [s[0]] + FixColons(s[1..])
  }

  /** The inverse rewrite: the space after each `": "` dropped. */
  function UnfixColons(r: string): string {
    if r == [] then []
    else if |r| >= 2 && r[0] == ':' && r[1] == ' ' then ":" + UnfixColons(r[2..])
    else [r[0]] + UnfixColons(r[1..])
  }

  /** The rewrite loses nothing: dropping the inserted spaces gives the title back. */
  lemma {:induction false} FixColonsRoundTrip(s: string)
    ensures UnfixColons(FixColons(s)) == s
  {
    if s != [] {
      FixColonsRoundTrip(s[1..]);
      var r := FixColons(s);
      if s[0] == ':' && !(|s| > 1 && s[1] == ':') {
        assert r[2..] == FixColons(s[1..]);
      } else {
        assert r[1..] == FixColons(s[1..]);
        if s[0] == ':' {
          assert r[1] == ':';
        }
      }
    }
  }

  /** After the rewrite every colon is followed by a space or another colon. */
  predicate ColonsSpaced(r: string) {
    forall i :: 0 <= i < |r| && r[i] == ':' ==> i + 1 < |r| && (r[i + 1] == ' ' || r[i + 1] == ':')
  }

  lemma {:induction false} FixColonsSpaced(s: string)
    ensures ColonsSpaced(FixColons(s))
  {
    if s != [] {
      FixColonsSpaced(s[1..]);
      var r := FixColons(s);
      var t := FixColons(s[1..]);
      if s[0] == ':' && !(|s| > 1 && s[1] == ':') {
        assert r == ": " + t;
        forall i | 0 <= i < |r| && r[i] == ':'
          ensures i + 1 < |r| && (r[i + 1] == ' ' || r[i + 1] == ':')
        {
          if i >= 2 { assert r[i] == t[i - 2]; }
        }
      } else {
        assert r == [s[0]] + t;
        forall i | 0 <= i < |r| && r[i] == ':'
          ensures i + 1 < |r| && (r[i + 1] == ' ' || r[i + 1] == ':')
        {
          if i >= 1 { assert r[i] == t[i - 1]; }
        }
      }
    }
  }

  /** A title without colons is returned as it is. */
  lemma {:induction false} FixColonsNoColon(s: string)
    requires ':' !in s
    ensures FixColons(s) == s
  {
    if s != [] {
      assert s[1..] == s[1..];
      assert forall c :: c in s[1..] ==> c in s;
      FixColonsNoColon(s[1..]);
    }
  }

  /** The rewrite of a colon-free prefix leaves the prefix alone. */
  lemma {:induction false} FixColonsAppend(a: string, b: string)
    requires ':' !in a
    ensures FixColons(a + b) == a + FixColons(b)
  {
    if a != [] {
      var s := a + b;
      assert a[0] in a;
      assert s[0] == a[0] && s[1..] == a[1..] + b;
      assert forall c :: c in a[1..] ==> c in a;
      FixColonsAppend(a[1..], b);
      calc {
        FixColons(s);
        [s[0]] + FixColons(s[1..]);
        [a[0]] + (a[1..] + FixColons(b));
        { assert a == [a[0]] + a[1..]; }
        a + FixColons(b);
      }
    } else {
      assert a + b == b;
    }
  }

  /** A colon not followed by another one is rewritten to `": "`. */
  lemma FixColonsHead(b: string)
    requires b == [] || b[0] != ':'
    ensures FixColons(":" + b) == ": " + FixColons(b)
  {
    assert (":" + b)[1..] == b;
  }

  /** A lone colon gets a space after it, whatever precedes it. */
  lemma FixColonsLoneColon(a: string, b: string)
    requires ':' !in a && ':' !in b
    requires b == [] || b[0] != ':'
    ensures FixColons(a + ":" + b) == a + ": " + b
  {
    assert a + ":" + b == a + (":" + b);
    FixColonsAppend(a, ":" + b);
    FixColonsHead(b);
    FixColonsNoColon(b);
    assert a + (": " + b) == a + ": " + b;
  }

  lemma FixColonsExample1()
    ensures FixColons("A: B") == "A:  B"
  {
    assert "A: B" == "A" + ":" + " B";
    FixColonsLoneColon("A", " B");
  }

  lemma FixColonsExample2()
    ensures FixColons("A:B") == "A: B"
  {
    assert "A:B" == "A" + ":" + "B";
    FixColonsLoneColon("A", "B");
  }

  /** Of two adjacent colons only the second is followed by a space. */
  lemma FixColonsExample3()
    ensures FixColons("A::B") == "A:: B"
  {
    assert "A::B" == "A" + "::B";
    FixColonsAppend("A", "::B");
    assert "::B"[1..] == ":B";
    assert ":B" == "" + ":" + "B";
    FixColonsLoneColon("", "B");
  }

  /** The character `c` matches `p` case-insensitively (`p` a lower-case ASCII letter or a symbol). */
  predicate MatchesIgnoringCase(c: char, p: char) {
    c == p || ('a' <= p <= 'z' && c as int == p as int - 32)
  }

  /** "url=" starts at position p, in any letter case. */
  predicate UrlKeyAt(c: string, p: nat) {
    p + 4 <= |c| && MatchesIgnoringCase(c[p], 'u') && MatchesIgnoringCase(c[p + 1], 'r')
    && MatchesIgnoringCase(c[p + 2], 'l') && c[p + 3] == '='
  }

  /** The number of characters other than '\n' from position i. */
  function LineRun(c: string, i: nat): (n: nat)
    requires i <= |c|
    ensures i + n <= |c|
    ensures forall k :: i <= k < i + n ==> c[k] != '\n'
    ensures i + n == |c| || c[i + n] == '\n'
    decreases |c| - i
  {
    if i < |c| && c[i] != '\n' then 1 + LineRun(c, i + 1) else 0
  }

  /** `url=(.+)$` matches at p: one or more characters other than '\n' after
      the key, then the end of the string or a final '\n'. */
  predicate UrlMatchAt(c: string, p: nat) {
    UrlKeyAt(c, p) && LineRun(c, p + 4) >= 1 && p + 4 + LineRun(c, p + 4) >= |c| - 1
  }

  /** The leftmost position at or after `p` where `url=(.+)$` matches. */
  function FirstUrlMatch(c: string, p: nat): (r: Option<nat>)
    ensures r.Some? ==> p <= r.value && UrlMatchAt(c, r.value)
    ensures r.Some? ==> forall q :: p <= q < r.value ==> !UrlMatchAt(c, q)
    ensures r.None? ==> forall q :: p <= q < |c| ==> !UrlMatchAt(c, q)
    decreases |c| - p
  {
    if p >= |c| then None
    else if UrlMatchAt(c, p) then Some(p)
    else FirstUrlMatch(c, p + 1)
  }

  /** The redirect target in a meta tag's content, stripped of whitespace and
      of quotes, when the content holds `url=`. */
  function RedirectTarget(content: string): Option<string> {
    match FirstUrlMatch(content, 0)
    case None => None
    case Some(p) =>
      var target := content[p + 4..p + 4 + LineRun(content, p + 4)];
      Some(StripChar(StripChar(Strip(target), '"'), '\''))
  }

  /** The redirect a page asks for: only a non-empty `content` is looked at. */
  function RedirectOf(metaContent: Option<string>): Option<string> {
    if metaContent.Some? && metaContent.value != "" then RedirectTarget(metaContent.value) else None
  }

  /** In "url=/x" the pattern matches at the start, over the rest of the line. */
  lemma RedirectExampleScan()
    ensures LineRun("url=/x", 4) == 2
    ensures FirstUrlMatch("url=/x", 0) == Some(0)
  {
    assert LineRun("url=/x", 6) == 0;
    assert LineRun("url=/x", 4) == 2;
    assert UrlMatchAt("url=/x", 0);
  }

  lemma RedirectExampleMatch()
    ensures RedirectTarget("url=/x") == Some(StripChar(StripChar(Strip("/x"), '"'), '\''))
  {
    RedirectExampleScan();
    assert "url=/x"[4..6] == "/x";
  }

  lemma RedirectExampleStrip()
    ensures StripChar(StripChar(Strip("/x"), '"'), '\'') == "/x"
  {
    TrimKeeps("/x", Whitespace);
    TrimKeeps("/x", Only('"'));
    TrimKeeps("/x", Only('\''));
  }

  /** The key is found, and the target after it taken as it is. */
  lemma RedirectExample()
    ensures RedirectOf(Some("url=/x")) == Some("/x")
  {
    assert "url=/x" != "" by { assert |"url=/x"| == 6; }
    RedirectExampleMatch();
    RedirectExampleStrip();
  }

  /** How one attempt went (Ok(None): gave up without a name), and the URLs
      it fetched, in order. */
  datatype Attempt = Attempt(result: Outcome<Option<string>>, fetched: seq<string>)

  /** The name a fetched page gives: its h1 text with the colons spaced,
      when the page has a non-empty h1. */
  function TitleOf(f: FetchResult): Option<string> {
    if f.Page? && f.h1.Some? && f.h1.value != "" then Some(FixColons(f.h1.value)) else None
  }

  /** Fetch `url` and follow its redirects, with at most `hops` fetches. A
      name is always the title of the last page fetched. */
  function Follow(url: string, hops: nat, web: Web): (a: Attempt)
    decreases hops
    ensures |a.fetched| <= hops
    ensures hops > 0 ==> a.fetched != [] && a.fetched[0] == url
    ensures a.result.Ok? && a.result.value.Some? ==>
      a.fetched != [] && TitleOf(web.fetch(a.fetched[|a.fetched| - 1])) == a.result.value
    ensures a.result.Ok? && a.result.value.Some? ==> ColonsSpaced(a.result.value.value)
    ensures a.result.Raises? ==> a.result.error == RequestException
  {
    if hops == 0 then Attempt(Ok(None), [])
    else
      match web.fetch(url)
      case RequestFailure => Attempt(Raises(RequestException), [url])
      case HttpError => Attempt(Ok(None), [url])
      case Page(h1, meta) =>
        if h1.Some? && h1.value != "" then
          FixColonsSpaced(h1.value);
          Attempt(Ok(Some(FixColons(h1.value))), [url])
        else
          match RedirectOf(meta)
          case None => Attempt(Ok(None), [url])
          case Some(target) =>
            var next := Follow(web.urljoin(target), hops - 1, web);
            Attempt(next.result, [url] + next.fetched)
  }

  /** Try the candidates in order until one yields a name or raises. A name
      is always the title of the last page fetched. */
  function TryCandidates(cands: seq<string>, web: Web): (a: Attempt)
    ensures |a.fetched| <= MaxFollow * |cands|
    ensures cands != [] ==> a.fetched != [] && a.fetched[0] == cands[0]
    ensures a.result.Ok? && a.result.value.Some? ==>
      a.fetched != [] && TitleOf(web.fetch(a.fetched[|a.fetched| - 1])) == a.result.value
    ensures a.result.Ok? && a.result.value.Some? ==> ColonsSpaced(a.result.value.value)
    ensures a.result.Raises? ==> a.result.error == RequestException
  {
    if cands == [] then Attempt(Ok(None), [])
    else
      var first := Follow(cands[0], MaxFollow, web);
      if first.result == Ok(None) then
        var rest := TryCandidates(cands[1..], web);
        Attempt(rest.result, first.fetched + rest.fetched)
      else first
  }

  /** scrape_mitre_name, with the fetches it makes. */
  function Scrape(tid: string, web: Web): Attempt {
    TryCandidates(Candidates(tid), web)
  }

  /** The scraper fetches at most 5 pages per candidate and 10 in all, and
      the first page it fetches is the first candidate. */
  lemma ScrapeFetchBound(tid: string, web: Web)
    ensures 1 <= |Scrape(tid, web).fetched| <= 2 * MaxFollow
    ensures Scrape(tid, web).fetched[0] == Candidates(tid)[0]
  {
  }

  lemma {:induction false} TryCandidatesAllHttpErrors(cands: seq<string>, web: Web)
    requires forall u :: web.fetch(u) == HttpError
    ensures TryCandidates(cands, web) == Attempt(Ok(None), cands)
  {
    if cands != [] {
      TryCandidatesAllHttpErrors(cands[1..], web);
      assert cands == [cands[0]] + cands[1..];
    }
  }

  /** Pages without a title or a redirect end each candidate after one fetch. */
  lemma {:induction false} TryCandidatesDeadEnds(cands: seq<string>, web: Web)
    requires forall u :: web.fetch(u) == Page(None, None)
    ensures TryCandidates(cands, web) == Attempt(Ok(None), cands)
  {
    if cands != [] {
      TryCandidatesDeadEnds(cands[1..], web);
      assert cands == [cands[0]] + cands[1..];
    }
  }

  /** When every fetch is an HTTP error, the scraper gives up after one fetch
      per candidate. */
  lemma ScrapeAllHttpErrors(tid: string, web: Web)
    requires forall u :: web.fetch(u) == HttpError
    ensures Scrape(tid, web) == Attempt(Ok(None), Candidates(tid))
  {
    TryCandidatesAllHttpErrors(Candidates(tid), web);
  }

  /** A page with a non-empty h1 ends the attempt at once with that h1, its
      colons spaced. */
  lemma FollowTitled(url: string, hops: nat, web: Web, h: string, meta: Option<string>)
    requires hops > 0 && web.fetch(url) == Page(Some(h), meta) && h != ""
    ensures Follow(url, hops, web) == Attempt(Ok(Some(FixColons(h))), [url])
  {
  }

  /** An HTTP error, or a page with neither a non-empty h1 nor a redirect,
      gives the candidate up after that one fetch. */
  lemma FollowGivesUp(url: string, hops: nat, web: Web)
    requires hops > 0
    requires web.fetch(url) == HttpError ||
      (web.fetch(url).Page? && TitleOf(web.fetch(url)).None? && RedirectOf(web.fetch(url).metaContent).None?)
    ensures Follow(url, hops, web) == Attempt(Ok(None), [url])
  {
  }

  /** Any other failure of the request raises, after that one fetch. */
  lemma FollowRaises(url: string, hops: nat, web: Web)
    requires hops > 0 && web.fetch(url) == RequestFailure
    ensures Follow(url, hops, web) == Attempt(Raises(RequestException), [url])
  {
  }

  /** An untitled page whose meta refresh redirects costs one fetch, and the
      attempt continues at the joined target with one hop fewer. */
  lemma FollowRedirectStep(url: string, hops: nat, web: Web)
    requires hops > 0
    requires web.fetch(url).Page? && web.fetch(url).h1.None?
    requires RedirectOf(web.fetch(url).metaContent).Some?
    ensures var next := Follow(web.urljoin(RedirectOf(web.fetch(url).metaContent).value), hops - 1, web);
      Follow(url, hops, web) == Attempt(next.result, [url] + next.fetched)
  {
  }

  /** Every page is the same untitled page whose meta refresh redirects
      (a redirect loop): the candidate is given up once the hop budget is
      spent, after exactly that many fetches. */
  lemma {:induction false} FollowRedirectLoop(url: string, hops: nat, web: Web, meta: string)
    requires hops >= 1
    requires RedirectOf(Some(meta)).Some?
    requires forall u :: web.fetch(u) == Page(None, Some(meta))
    ensures Follow(url, hops, web).result == Ok(None)
    ensures |Follow(url, hops, web).fetched| == hops
    decreases hops
  {
    FollowRedirectStep(url, hops, web);
    if hops > 1 {
      FollowRedirectLoop(web.urljoin(RedirectOf(Some(meta)).value), hops - 1, web, meta);
    }
  }

  /** In a redirect loop each candidate costs the full five fetches. */
  lemma TryCandidatesRedirectLoop(cands: seq<string>, web: Web, meta: string)
    requires RedirectOf(Some(meta)).Some?
    requires forall u :: web.fetch(u) == Page(None, Some(meta))
    ensures TryCandidates(cands, web).result == Ok(None)
    ensures |TryCandidates(cands, web).fetched| == MaxFollow * |cands|
  {
    if cands != [] {
      FollowRedirectLoop(cands[0], MaxFollow, web, meta);
      TryCandidatesRedirectLoop(cands[1..], web, meta);
    }
  }

  /** The taxonomy, loaded once when the object is built and read-only after. */
  datatype MitreAttack = MitreAttack(data: map<string, AttackPattern>) {

    /** get_mitre_info(tid): the taxonomy entry with its tactics, the entry
        without tactics, the scraped name, or an empty name. The id returned
        is always the one asked for. */
    function Info(tid: string, web: Web): (r: Outcome<Technique>)
      ensures r.Ok? ==> r.value.id == tid
      ensures r.Raises? ==> tid !in data && r.error == RequestException
      ensures tid in data ==> r.Ok? && r.value.name == data[tid].name
      ensures tid in data ==>
        r.value.tactics == (match data[tid].killChainPhases case Some(phases) => PhaseNames(phases) case None => [])
      ensures tid !in data && Scrape(tid, web).result == Ok(None) ==> r == Ok(Technique("", tid, []))
    {
      if tid in data then
        var t := data[tid];
        match t.killChainPhases
        case Some(phases) => Ok(Technique(t.name, tid, PhaseNames(phases)))
        case None => Ok(Technique(t.name, tid, []))
      else
        match Scrape(tid, web).result
        case Raises(e) => Raises(e)
        case Ok(name) =>
          if name.Some? && name.value != "" then Ok(Technique(name.value, tid, []))
          else Ok(Technique("", tid, []))
    }

    /** get_mitre_info: the taxonomy answer, with the scraper consulted only
        when the id is missing from the taxonomy. */
    method GetMitreInfo(tid: string, web: Web) returns (r: Outcome<Technique>)
      ensures r == Info(tid, web)
    {
      if tid in data {
        var technique := data[tid];
        if technique.killChainPhases.Some? {
          var phases := technique.killChainPhases.value;
          var tactics := [];
          for i := 0 to |phases|
            invariant tactics == PhaseNames(phases[..i])
          {
            tactics := tactics + [phases[i].phaseName];
          }
          assert phases[..|phases|] == phases;
          return Ok(Technique(technique.name, tid, tactics));
        }
        return Ok(Technique(technique.name, tid, []));
      }
      var name := ScrapeMitreName(tid, web);
      match name {
        case Raises(e) => return Raises(e);
        case Ok(n) =>
          if n.Some? && n.value != "" {
            return Ok(Technique(n.value, tid, []));
          }
          return Ok(Technique("", tid, []));
      }
    }

    /** scrape_mitre_name: each candidate in turn, each followed through at
        most 5 fetches; an HTTP error or a page with neither a title nor a
        redirect ends that candidate, other network failures propagate. */
    method ScrapeMitreName(tid: string, web: Web) returns (r: Outcome<Option<string>>)
      ensures r == Scrape(tid, web).result
    {
      var candidates := Candidates(tid);
      var c := 0;
      while c < |candidates|
        invariant c <= |candidates|
        invariant Scrape(tid, web).result == TryCandidates(candidates[c..], web).result
      {
        var current := candidates[c];
        var hop := 0;
        while hop < MaxFollow
          invariant hop <= MaxFollow
          invariant Follow(candidates[c], MaxFollow, web).result == Follow(current, MaxFollow - hop, web).result
        {
          match web.fetch(current) {
            case RequestFailure =>
              return Raises(RequestException);
            case HttpError =>
              break;
            case Page(h1, meta) =>
              if h1.Some? && h1.value != "" {
                return Ok(Some(FixColons(h1.value)));
              }
              var target := RedirectOf(meta);
              if target.None? {
                break;
              }
              current := web.urljoin(target.value);
          }
          hop := hop + 1;
        }
        assert Follow(candidates[c], MaxFollow, web).result == Ok(None);
        assert candidates[c..][1..] == candidates[c + 1..];
        c := c + 1;
      }
      return Ok(None);
    }

    /** get_mitre_info as a function of the id, for the callers' loops. */
    function Resolver(web: Web): Resolver {
      tid => Info(tid, web)
    }
  }

  /** get_mitre_info returns the id it is given. */
  lemma ResolverKeepsIds(m: MitreAttack, web: Web)
    ensures KeepsIds(m.Resolver(web))
  {
  }

  /** Tactics come only from the taxonomy: a non-empty tactic list means the
      taxonomy has the technique with kill-chain phases, and then the tactics
      are the phase names in phase order. */
  lemma InfoTactics(m: MitreAttack, tid: string, web: Web)
    requires m.Info(tid, web).Ok? && m.Info(tid, web).value.tactics != []
    ensures tid in m.data && m.data[tid].killChainPhases.Some?
    ensures m.Info(tid, web).value.tactics == PhaseNames(m.data[tid].killChainPhases.value)
  {
  }

  /** The network is consulted only when the taxonomy has no entry: two
      environments give the same answer for an id the taxonomy knows. */
  lemma InfoOfKnownIdIgnoresWeb(m: MitreAttack, tid: string, w1: Web, w2: Web)
    requires tid in m.data
    ensures m.Info(tid, w1) == m.Info(tid, w2)
  {
  }

  /** An id that neither the taxonomy nor the site knows resolves to an empty name. */
  lemma InfoUnknownId(m: MitreAttack, tid: string, web: Web)
    requires tid !in m.data
    requires forall u :: web.fetch(u) == HttpError
    ensures m.Info(tid, web) == Ok(Technique("", tid, []))
  {
    ScrapeAllHttpErrors(tid, web);
  }

  /** An id the taxonomy lacks, on a site whose every page is an untitled
      redirect (a redirect loop), resolves to an empty name after five
      fetches per candidate. */
  lemma InfoRedirectLoop(m: MitreAttack, tid: string, web: Web, meta: string)
    requires tid !in m.data
    requires RedirectOf(Some(meta)).Some?
    requires forall u :: web.fetch(u) == Page(None, Some(meta))
    ensures m.Info(tid, web) == Ok(Technique("", tid, []))
    ensures |Scrape(tid, web).fetched| == MaxFollow * |Candidates(tid)|
  {
    TryCandidatesRedirectLoop(Candidates(tid), web, meta);
  }

  /** An id the taxonomy lacks, on a site whose pages have neither a title
      nor a redirect, resolves to an empty name. */
  lemma InfoDeadEnds(m: MitreAttack, tid: string, web: Web)
    requires tid !in m.data
    requires forall u :: web.fetch(u) == Page(None, None)
    ensures m.Info(tid, web) == Ok(Technique("", tid, []))
  {
    TryCandidatesDeadEnds(Candidates(tid), web);
  }

  /** A scraped name gives a record with that name and no tactics. */
  lemma InfoScraped(m: MitreAttack, tid: string, web: Web)
    requires tid !in m.data
    requires Scrape(tid, web).result.Ok? && Scrape(tid, web).result.value.Some?
    ensures m.Info(tid, web).Ok?
    ensures m.Info(tid, web).value.tactics == []
    ensures m.Info(tid, web).value.name == Scrape(tid, web).result.value.value
  {
  }
}
