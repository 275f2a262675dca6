# ttp-scraper, modelled in Dafny

ttp-scraper turns threat reports into records of MITRE ATT&CK techniques.
It has three scrapers: CISA advisories, Talos IOC JSON documents and
AlienVault OTX pulses. Each one finds technique ids of the form `T####` or
`T####.###` in its input and resolves each id to a record `{name, id, tactics}`.
The lookup goes to the ATT&CK taxonomy first; when the id is missing there, it
scrapes the technique's page on attack.mitre.org. `filter_goal_ttps` then moves
the "goal" records (tactic `impact` or `exfiltration`) out of the list.

This project models the sequential core of those scrapers and proves what the
code promises about it.

The project has one module per file:
- `json.dfy`, module `Json`: JSON values as json.loads builds them, and the Python built-ins the scrapers apply to them (`dict.get`, `len`, truthiness, iteration, `str()`, `str.strip()`). Exceptions are `Outcome` values.
- `tokens.dfy`, module `TtpTokens`: `TTP_REGEX` and the `re.findall` scan over it.
- `techniques.dfy`, module `Techniques`: `TID_REMAP`, `remap_old_tid`, the technique record, and `filter_goal_ttps`, which works in place on a class holding the caller's list. It also resolves a list of ids.
- `mitre.dfy`, module `Mitre`: `MitreAttack.get_mitre_info` and `scrape_mitre_name`, with the candidate URLs, the hop-bounded redirect loop and the colon rewrite.
- `cisa.dfy`, module `Cisa`: `parse_date`, `contains_ttps`, the dedup-and-resolve loop of `get_ttps`, and the goals/ttps split of `extract_advisory_fields`.
- `talos.dfy`, module `Talos`: `TalosReport.get_nested`, `format_url`, `find_title`, `find_url`, `find_date` and `find_ttps`.
- `alienvault.dfy`, module `AlienVault`: `extract_pulses` and the `AlienVaultPulse.find_*` readers.

The model replaces the outside world with parameters and oracles:
- **Taxonomy.** The ATT&CK taxonomy is a map from id to attack pattern (a name and optional kill-chain phases).
- **Network.** The web is a `Web` value: a fetch oracle returning `HttpError`, `RequestFailure` or `Page(h1, first meta content)`, plus an uninterpreted `urljoin`.
- **Exceptions.** Python exceptions are `Raises(...)` outcomes and propagate as they do in the code.
  - `requests.HTTPError` is the only error the scraper catches.
  - Every other failure of `requests.get` (a connection error, a timeout, too many redirects, a malformed URL) is one outcome, `RequestFailure`, which raises `RequestException` through `get_mitre_info`. These are all subclasses of `requests.RequestException`; the model does not tell them apart.
- **Text inputs.** The text that BeautifulSoup extracts from a CISA page is a parameter, and so are the summary and mitigation sections. The text of `json.dumps(contents)` is a parameter of `find_url` and of the last tier of `find_ttps`.
- **Resolving functions.** A `Resolver` is a function from id to outcome. The per-id loops are proved against specification functions over a `Resolver`; the methods use `m.Resolver(web)`, which is `get_mitre_info`.

Dafny's verifier with Z3 checks every proof.

## Model

| member | source | states |
|---|---|---|
| TtpTokens.MatchAt | utils.py:19 | a match of the token pattern has the shape `T` + 4 digits (+ `.` + 1–3 digits), starts after a non-word character and ends on a word boundary; the greedy sub-technique group falls back to `T####` |
| TtpTokens.FindTtps | cisa.py:132 | every token the scan returns has the technique-id shape |
| TtpTokens.FindFromNonEmptyIff | cisa.py:49-50 | the scan finds a token exactly when the pattern matches at some position |
| TtpTokens.FindFromOccurs | cisa.py:132-133 | every token returned occurs in the text |
| Techniques.RemapOldTid | utils.py:33-34 | the result is never a retired id, and differs from the input only for a retired id |
| Techniques.RemapRetiredIds | utils.py:21-26 | T1086, T1155, T1150 and T1162 map to their table values; every other string is returned unchanged |
| Techniques.RemapIdempotent | utils.py:21-26 | remapping twice is remapping once |
| Techniques.RemapNotInjective | utils.py:24-25 | T1150 and T1162 both map to T1547.011 |
| Techniques.GoalsAppend | utils.py:37-41 | the goals of a list grow by a record exactly when it has tactic impact or exfiltration, in input order |
| Techniques.GoalsMembers | utils.py:37-41 | a record is a goal exactly when it is in the list with a goal tactic |
| Techniques.NonGoalsMembers | utils.py:43-44 | a record stays exactly when it is in the list without a goal tactic |
| Techniques.PartitionIsPermutation | utils.py:36-46 | goals plus the rest are the original multiset |
| Techniques.RemoveFirst | utils.py:44 | `list.remove` of a present record shortens the list by one and leaves a list without it unchanged |
| Techniques.RemoveNextGoal | utils.py:43-44 | removing the next goal from what the loop has left gives the list with one more goal removed |
| Techniques.GoalInDropGoals | utils.py:43-44 | the next goal is still in the list the loop has left, so `ttps.remove` never raises ValueError |
| Techniques.DropAllGoals | utils.py:43-44 | once every goal is removed, the non-goals remain in their original order |
| Techniques.TechniqueList.Remove | utils.py:44 | `ttps.remove(g)` in place: reports whether the record was present and removes its first occurrence |
| Techniques.FilterGoalTtps | utils.py:36-46 | returns exactly the goal records, in order, and leaves the caller's list holding exactly the non-goals, in order |
| Techniques.ResolveAll | talos.py:225-226 | resolving ids in order: one record per id, each the lookup of its id; it raises exactly when some lookup raises |
| Techniques.ResolveAllIds | utils.py:75-85 | with a lookup that keeps ids, the records carry exactly the ids asked for, in order |
| Techniques.ResolveEach | talos.py:225-226 | the `for tid in ...: ttps.append(get_mitre_info(tid))` loop computes ResolveAll |
| Mitre.PhaseNames | utils.py:74 | the tactic list is the phase names, one per phase, in order |
| Mitre.IndexOf | utils.py:93 | the position of the first occurrence of a character (where `split(".", 1)` cuts) |
| Mitre.ZFill | utils.py:94 | `zfill(3)`: a string at least as long as the width is unchanged; a shorter one becomes its leading sign (if any), then the missing number of `0`s, then the rest of the string |
| Mitre.ZFillExample | utils.py:94 | `"11".zfill(3)` is `"011"`, and the zeros go after a sign |
| Mitre.Candidates | utils.py:91-98 | one or two candidate URLs |
| Mitre.CandidatesShape | utils.py:92-98 | an undotted id gives `.../techniques/tid/`; `B.S` split at the first dot gives `.../techniques/B/zfill3(S)/` and then `.../techniques/B/` |
| Mitre.CandidatesExample1 | utils.py:92-96 | T1547.11 gives `/techniques/T1547/011/` then `/techniques/T1547/` |
| Mitre.CandidatesExample2 | utils.py:97-98 | T9999 gives only `/techniques/T9999/` |
| Mitre.FixColons | utils.py:114 | the rewrite keeps the first character and never shortens the title |
| Mitre.FixColonsRoundTrip | utils.py:114 | dropping the inserted spaces gives the title back |
| Mitre.FixColonsSpaced | utils.py:114 | after the rewrite every colon is followed by a space or another colon |
| Mitre.FixColonsNoColon | utils.py:114 | a title without colons is unchanged |
| Mitre.FixColonsLoneColon | utils.py:114 | a lone colon gets one space after it |
| Mitre.FixColonsExample1 | utils.py:114 | `A: B` becomes `A:  B` |
| Mitre.FixColonsExample2 | utils.py:114 | `A:B` becomes `A: B` |
| Mitre.FixColonsExample3 | utils.py:114 | `A::B` becomes `A:: B` |
| Mitre.LineRun | utils.py:120 | `.` takes every character up to the first newline |
| Mitre.FirstUrlMatch | utils.py:120 | `re.search(r"url=(.+)$", flags=re.I)`: the leftmost position where the pattern matches, or none anywhere |
| Mitre.RedirectExample | utils.py:117-122 | content `url=/x` redirects to `/x` |
| Mitre.Follow | utils.py:101-127 | one candidate followed through at most `hops` fetches, starting at the candidate; a returned name is the colon-spaced non-empty `<h1>` of the last page fetched; only a non-HTTP request failure raises, with RequestException |
| Mitre.TryCandidates | utils.py:101-128 | at most 5 fetches per candidate, starting with the first candidate; a returned name is the colon-spaced non-empty `<h1>` of the last page fetched; only RequestException is raised |
| Mitre.FollowTitled | utils.py:103-114 | a first page with a non-empty `<h1>` ends the attempt after one fetch with that title, colons spaced |
| Mitre.FollowGivesUp | utils.py:103-127 | an HTTP error, or a page with neither a title nor a redirect, ends the attempt after one fetch with no name |
| Mitre.FollowRaises | utils.py:103-106 | any other request failure ends the attempt after one fetch, raising RequestException |
| Mitre.TryCandidatesDeadEnds | utils.py:101-128 | when every page has neither a title nor a redirect, each candidate is fetched once, in order, and the result is None |
| Mitre.ScrapeFetchBound | utils.py:100-103 | at least 1 and at most 10 fetches, the first one being the first candidate URL |
| Mitre.ScrapeAllHttpErrors | utils.py:104-107 | when every fetch is an HTTP error, each candidate is fetched once and the result is None |
| Mitre.FollowRedirectStep | utils.py:116-126 | an untitled page with a redirect costs one fetch, and the attempt continues at the joined target with one hop fewer |
| Mitre.FollowRedirectLoop | utils.py:103-127 | in a redirect loop the candidate is abandoned after exactly its budget of fetches |
| Mitre.TryCandidatesRedirectLoop | utils.py:100-128 | in a redirect loop each candidate costs the full five fetches and the result is None |
| Mitre.MitreAttack.Info | utils.py:70-85 | the record always carries the id asked for; a taxonomy hit gives the taxonomy name and the entry's phase names as tactics (none without phases); a miss the site does not name either gives `{"", tid, []}`; only a miss can raise, with RequestException |
| Mitre.MitreAttack.GetMitreInfo | utils.py:70-85 | the method computes Info, building the tactic list phase by phase |
| Mitre.MitreAttack.ScrapeMitreName | utils.py:87-128 | the nested candidate and hop loops compute the scraper specification |
| Mitre.ResolverKeepsIds | utils.py:75-85 | get_mitre_info returns `id == tid` and does no remapping |
| Mitre.InfoTactics | utils.py:72-77 | non-empty tactics come only from a taxonomy entry with kill-chain phases, and are its phase names in order |
| Mitre.InfoOfKnownIdIgnoresWeb | utils.py:71-77 | for an id in the taxonomy the network is not consulted |
| Mitre.InfoScraped | utils.py:79-82 | a scraped name gives `{name, tid, []}` |
| Mitre.InfoUnknownId | utils.py:79-85 | an id unknown to the taxonomy and the site gives `{"", tid, []}` |
| Mitre.InfoRedirectLoop | utils.py:79-128 | for an id unknown to the taxonomy, pages that only redirect give `{"", tid, []}` after five fetches per candidate |
| Mitre.InfoDeadEnds | utils.py:79-128 | for an id unknown to the taxonomy, pages with neither a title nor a redirect give `{"", tid, []}` |
| Cisa.DateMatchAtShape | cisa.py:37 | a match of `[A-Za-z]{3,9}\s+\d{1,2},\s+\d{4}` has a 3–9 letter word, a 1–2 digit day and a 4 digit year |
| Cisa.FirstMatch | cisa.py:37 | the search result is one of the matches |
| Cisa.MonthNumber | cisa.py:41 | the month is the position of the word among the month names, ignoring case; none when the word is not a month name |
| Cisa.DayNumber | cisa.py:41 | `%d` accepts only days 1–31 |
| Cisa.Strptime | cisa.py:41-45 | strptime gives only valid calendar dates; the month is named by the word, the day is the `%d` value of the 1–2 digit day and the year the value of the 4 digit year |
| Cisa.StrptimeValid | cisa.py:41-45 | conversely, a month name, a valid day and a 4 digit year that form a calendar date are accepted, giving that date |
| Cisa.ParseDate | cisa.py:33-46 | `None` and `""` give None, and every result is a valid date |
| Cisa.FirstMatchNone | cisa.py:37-39 | the search finds nothing exactly when no position matches |
| Cisa.FirstMatchAt | cisa.py:37-40 | the leftmost match is the one taken |
| Cisa.ParseDateNoMatch | cisa.py:37-39 | text without a date-like substring gives None |
| Cisa.ParseDateFirstMatchOnly | cisa.py:40-46 | when the first match fits neither format, the result is None whatever follows |
| Cisa.FormatsAgree | cisa.py:41-45 | the two formats never give different dates for the same text, so trying `%b` first only decides which one succeeds |
| Cisa.ParseDateAtStart | cisa.py:37-45 | a text starting with a date match is read by the abbreviated format and then the full one |
| Cisa.LongWordIsNoAbbreviation | cisa.py:41 | a month word that is not 3 letters long is no abbreviation |
| Cisa.ShortWordIsNoFullName | cisa.py:41 | a 3-letter word other than "may" is no full month name |
| Cisa.ParseDateUpperCase | cisa.py:36-43 | `OCT 09, 2025` parses to 2025-10-09 |
| Cisa.ParseDateOneDigitDay | cisa.py:36-43 | `Oct 9, 2025` parses to 2025-10-09 |
| Cisa.ParseDateFullName | cisa.py:36-43 | `February 01, 2024` parses to 2024-02-01, through the full-name format |
| Cisa.ParseDateNoSuchDay | cisa.py:40-46 | `Feb 30, 2024` matches the pattern but gives None |
| Cisa.ContainsTtps | cisa.py:49-50 | `bool(TTP_REGEX.search(text))`, defined as a match of the token pattern at some position; what it means is proved by Cisa.ContainsTtpsIffTokens and TtpTokens.FindFromNonEmptyIff |
| Cisa.ContainsTtpsIffTokens | cisa.py:49-50 | contains_ttps holds exactly when the token scan is non-empty |
| Cisa.KeptIdsAfter | cisa.py:134-136 | the loop keeps at most one id per token |
| Cisa.CisaTtpsAfterIsResolveAll | cisa.py:129-137 | the loop from any stored list is the stored records followed by the kept ids resolved |
| Cisa.CisaTtpsIsResolveAll | cisa.py:129-137 | get_ttps resolves exactly the kept ids, in first-occurrence order |
| Cisa.KeptIdsAfterFromTokens | cisa.py:133-136 | every kept id is the remapping of a token |
| Cisa.KeptIdsAfterCoverTokens | cisa.py:133-136 | every token's remapping is stored or kept |
| Cisa.KeptIdsAreRemappedTokens | cisa.py:129-137 | as a set, the kept ids are the remapped tokens |
| Cisa.KeptIdsDistinct | cisa.py:134-136 | without retired ids among the tokens, the kept ids are pairwise distinct |
| Cisa.KeptIdsExamples | cisa.py:134-136 | a repeated current id is kept once; a repeated retired id such as T1086 is kept, remapped, every time |
| Cisa.KeptIdsAfterSnoc | cisa.py:131-136 | the kept ids grow in token order: a further token appends its remapped id exactly when the raw token is neither stored nor already kept, and nothing otherwise |
| Cisa.KeptIdsAfterPrefix | cisa.py:131-136 | the ids kept from a prefix of the tokens are a prefix of the ids kept from all of them |
| Cisa.IsStored | cisa.py:134 | `any(t.get("id") == tid for t in ttps)` holds exactly when the id is among the stored records' ids |
| Cisa.GetTtps | cisa.py:129-137 | the loop computes the dedup-and-resolve specification on the tokens of the page text |
| Cisa.AdvisoryTtpsExcludeGoals | cisa.py:145-148 | the ttps field holds no goal record; goals and ttps together are the resolved records |
| Cisa.ExtractAdvisoryFields | cisa.py:143-148 | the record carries the placeholder fields, the goals and the remaining records; it raises exactly when resolution raises |
| Json.DictGet | talos.py:80 | `.get` raises AttributeError exactly when the value is not a dict |
| Json.Len | talos.py:42 | `len` raises TypeError on a value without a length, and counts elements, keys or characters otherwise |
| Json.Iterate | talos.py:82 | iterating a list gives its elements, a dict one item per key; any other non-string value raises |
| Json.PyStr | alienvault.py:44 | `str()` of a string is the string; of anything else a non-empty repr |
| Json.StripEmptyIffBlank | talos.py:51 | `s.strip() == ""` exactly when every character is whitespace |
| Talos.Step | talos.py:42-47 | one step of get_nested: only "[0]" can raise |
| Talos.WalkAppend | talos.py:40-48 | walking a path is walking its first part and then the rest |
| Talos.NestedEmptyPath | talos.py:39-48 | the empty path returns the input |
| Talos.NestedMissingKey | talos.py:44-47 | a key missing from a dict, or any key other than "[0]" on a non-dict, returns the default |
| Talos.NestedKey | talos.py:44-45 | a key present in a dict moves the walk to its value |
| Talos.NestedFirstElement | talos.py:42-47 | "[0]" on a non-empty list takes the first element; on an empty list it returns the default |
| Talos.NestedFirstRaises | talos.py:42-43 | "[0]" raises on a value without a length, and on a non-empty dict |
| Talos.TalosReport.GetNested | talos.py:39-48 | the loop reassigning `d` computes the walk |
| Talos.OptionalPath | talos.py:55 | `(/.*)?$`: the path is a prefix without newlines starting with `/`, followed by the end of text or a final newline |
| Talos.DateStripped | talos.py:68-73 | nothing but a leading `/YYYY/MM` segment is ever removed |
| Talos.DateStrippedSegment | talos.py:68-71 | `/YYYY/MM` followed by "" or a `/` path is replaced by that path |
| Talos.ForceHttps | talos.py:58-62 | the result is `https://` followed by the string with its `http://` or `https://` scheme (if any) removed; a string already starting with `https://` is unchanged |
| Talos.ForceHttpsSameTail | talos.py:58-62 | forcing https keeps what the host pattern sees, and a second forcing changes nothing |
| Talos.ForceHttpsCases | talos.py:58-62 | `http://x` becomes `https://x`, `https://x` stays, and anything else gets `https://` in front |
| Talos.FormatUrl | talos.py:50-76 | a string stays a string |
| Talos.FormatUrlKeeps | talos.py:51-52 | non-strings and whitespace-only strings come back unchanged |
| Talos.FormatUrlNonBlank | talos.py:51-76 | a string with a non-whitespace character is rewritten |
| Talos.FormatUrlHttps | talos.py:56-76 | every non-blank string comes out starting with `https://` |
| Talos.FormatUrlTalos | talos.py:55-76 | a Talos blog URL with no scheme, `http://` or `https://` becomes `https://blog.talosintelligence.com` plus its path, minus a leading date segment |
| Talos.FormatUrlOtherHost | talos.py:56-62 | a non-blank string that is no Talos blog URL only has https forced |
| Talos.FormatUrlOtherHostIdempotent | talos.py:56-62 | for other hosts format_url is idempotent |
| Talos.BlogPathRunChars | talos.py:11 | the path run takes only characters the pattern allows after `/`, and stops at the first other one |
| Talos.BlogSchemeAt | talos.py:11 | a match starts with `https://`, `http://` or nothing, followed by the blog host |
| Talos.BlogMatchAt | talos.py:11 | a match lies inside the text |
| Talos.FirstBlogPos | talos.py:116 | the position of the first element of `re.findall`: the leftmost position where the blog pattern matches, or the end of the text when it matches nowhere |
| Talos.BlogSchemeText | talos.py:11 | the matched scheme is one of the three the pattern allows, and the host follows it |
| Talos.BlogMatchSplit | talos.py:11 | a match is scheme, host and rest |
| Talos.BlogMatchPath | talos.py:11 | the rest of a match is empty, or `/` and a path without newlines |
| Talos.BlogLinkFormatted | talos.py:116-121 | format_url of a blog match is `https://blog.talosintelligence.com` plus the text from the host's end to the match's end, minus any date segment |
| Talos.FindUrl | talos.py:114-124 | find_url, defined as format_url of the first blog match and "" without one; its results are proved by Talos.FindUrlNoLink and Talos.FindUrlOfFirstLink |
| Talos.FindUrlNoLink | talos.py:114-124 | find_url returns "" exactly when the blog pattern matches nowhere in the text |
| Talos.FindUrlOfFirstLink | talos.py:114-124 | with the leftmost match at `i`, find_url is the https Talos host plus the path of that match, minus any date segment |
| Talos.FirstOfType | talos.py:82-84 | the bundle loop can raise only AttributeError |
| Talos.FirstOfTypeAt | talos.py:82-84 | the first object of the type, after dicts of other types only, gives the field |
| Talos.FirstOfTypeNone | talos.py:82-84 | the loop finds nothing exactly when every object is a dict of another type |
| Talos.ReadersNeedDict | talos.py:80 | find_title and find_date raise AttributeError on a document that is not a dict |
| Talos.BundleTitle | talos.py:80-84 | in a bundle the first report object gives the title |
| Talos.BundleDate | talos.py:128-132 | in a bundle the first identity object gives the date |
| Talos.TimestampDate | talos.py:135-137 | when the bundle stage finds no identity, a non-null top-level timestamp is the date |
| Talos.TimestampDateNoBundle | talos.py:128-137 | without "objects", a non-null top-level timestamp is the date |
| Talos.ReadersDefault | talos.py:78-150 | a dict with none of the known keys has title "" and date "" |
| Talos.PackageTitle | talos.py:87-98 | without "objects", the package incident title is the title |
| Talos.MispEventWalk | talos.py:101-106 | the event path of a MISP export reaches the event |
| Talos.MispEventField | talos.py:101-106 | an event field read through get_nested |
| Talos.MispReaders | talos.py:101-109 | a MISP export takes its title from the event info and its date from the event date |
| Talos.TalosReport.ScanBundle | talos.py:80-84 | the early-return loop computes the bundle stage |
| Talos.TalosReport.FindTitle | talos.py:78-112 | the method computes the title chain |
| Talos.TalosReport.FindDate | talos.py:126-150 | the method computes the date chain |
| Talos.FirstToken | talos.py:161-166 | the first token of the text; none for no text or no token; a text that is not a string raises TypeError |
| Talos.TierIds | talos.py:158-166 | at most one id per object, each a technique token |
| Talos.TierRecordsResolveIds | talos.py:158-167 | a tier's loop resolves exactly the first token of each object that has one, in order |
| Talos.TierRecordsAreTokens | talos.py:163-167 | every record of a tier carries a technique token as id |
| Talos.TierTtpsAreTokens | talos.py:152-221 | the same for a whole tier |
| Talos.TtpsIgnoresTextWhenTierFinds | talos.py:169-221 | once a tier finds records, the whole-text scan is not consulted |
| Talos.TtpsWholeText | talos.py:223-228 | when no tier finds records, every token of the whole text is resolved, in order |
| Talos.TtpsAreTokens | talos.py:152-231 | every record find_ttps returns carries a technique token as id |
| Talos.TalosReport.ObjectText | talos.py:159-160 | the method reads an object's text as the tier says |
| Talos.ObjectTid | talos.py:159-166 | the token an object offers has the technique-id shape |
| Talos.TalosReport.CollectObject | talos.py:159-167 | one object yields nothing without a token, and otherwise the looked-up record of its first token; an exception on the way is passed on |
| Talos.TalosReport.CollectTier | talos.py:158-167 | the tier loop computes the tier's records |
| Talos.TalosReport.ReadTier | talos.py:156-221 | the container read and the loop compute one tier |
| Talos.TalosReport.FindTtps | talos.py:152-231 | the method computes the tier chain and then the whole-text fallback |
| AlienVault.ExtractPulses | alienvault.py:14-33 | a list yields at most one pulse per element; a value that is neither a list nor a dict yields nothing |
| AlienVault.DictMembers | alienvault.py:16-21 | filtering never lengthens the list |
| AlienVault.DictMembersAppend | alienvault.py:16-21 | filtering distributes over concatenation, so order is kept |
| AlienVault.DictMembersKeep | alienvault.py:16-21 | a value is kept exactly when it is a dict of the list |
| AlienVault.DictMembersAllDicts | alienvault.py:16-21 | a list of dicts is kept whole |
| AlienVault.FirstListKey | alienvault.py:25-26 | the first key holding a list; the keys before it hold none |
| AlienVault.ExtractFromList | alienvault.py:15-22 | a list yields exactly its dict members, and a list of dicts yields itself |
| AlienVault.ExtractFromDict | alienvault.py:24-30 | a dict yields the dict members of the list under the first pulse key holding one; keys with non-list values are skipped |
| AlienVault.ExtractFallback | alienvault.py:32-33 | a dict with no such list yields itself once; any other non-list value yields nothing |
| AlienVault.FirstTruthy | alienvault.py:42-47 | none exactly when no key holds a truthy value; otherwise a truthy value |
| AlienVault.FirstTruthyAt | alienvault.py:42-47 | the first key with a truthy value is the one read |
| AlienVault.TruthyText | alienvault.py:44 | `str()` of a truthy value is non-empty |
| AlienVault.AlienVaultPulse.FindTitle | alienvault.py:41-49 | "" exactly when none of name, title, headline, id is truthy; otherwise str() of the first truthy one |
| AlienVault.AlienVaultPulse.FindUrl | alienvault.py:51-56 | str() of the first element when "references" holds a non-empty list; "" when it is missing, empty or not a list |
| AlienVault.AlienVaultPulse.FindDate | alienvault.py:58-63 | a truthy created value itself, "" otherwise |
| AlienVault.AlienVaultPulse.FindSummary | alienvault.py:65-70 | "" exactly when there is no truthy description; otherwise its str() |
| AlienVault.AttackTids | alienvault.py:80-82 | one id per entry: the remapped str() of the entry |
| AlienVault.AlienVaultPulse.FindTtps | alienvault.py:72-88 | the loop computes the pulse's records |
| AlienVault.PulseTtpsRecords | alienvault.py:72-88 | a non-list attack_ids gives no records; otherwise one record per entry, in order, with id the remapped str() of the entry and never a retired id |

## Left out

- Network fetches, and loading the taxonomy from the three ATT&CK bundles (utils.py:28-31, 52-68): the taxonomy is a map, the network an oracle.
- HTML parsing: BeautifulSoup, `parse_advisory_page`, the `get_matching_keywords` section walker and `get_index_items`. A fetched page is reduced to its first `<h1>` text and its first `<meta>` content, and a CISA page to its extracted text.
- `urljoin` is an uninterpreted function of the target.
- `json.dumps` is not modelled. Its text is a parameter of `Talos.FindUrl` and `Talos.TalosReport.FindTtps`.
- `str()` of a string containing quotes or escapes: the repr does not escape characters.
- Python's Unicode `\d`, `\w` and `\b` are taken in their ASCII sense in the token pattern (utils.py:19). In the CISA date pattern (cisa.py:37) only ASCII digits and letters count. In the Talos date-segment pattern `^/(\d{4})/(\d{2})` of `format_url` (talos.py:68) `\d` is an ASCII digit too. `\s` in the blog-link pattern and in the CISA date pattern is Python's whitespace.
- strptime's locale: only the English month names of the C locale, matched ignoring ASCII case.
- Duplicate keys in a JSON object: `Json.Lookup` reads the first entry, while json.loads keeps the last.
- JSON numbers are integers; floating point is not modelled.
- The drivers `cisa.scrape`, `cisa.main`, `talos.yield_talos_ioc_jsons`, `talos.main` and `alienvault.main` are not modelled. They do file-system and network work and write output; the assembly of the final report dicts is part of them.
- alienvault-api.py is not part of this model: it wraps the OTX client and writes CSV.
- Console output (Rich warnings) has no effect on results and is dropped.
- Mitre.FollowRedirectLoop: stated for a budget of at least one fetch; the code always uses five.
- Talos.DateStripped: its own contract says only that nothing but a date segment is removed. The exact result for a well-formed segment is stated by Talos.DateStrippedSegment.
