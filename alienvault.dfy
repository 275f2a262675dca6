/** AlienVault OTX pulses (alienvault.py): pulling the pulse objects out of an
    exported document, and reading a title, URL, date, summary and the
    techniques out of one pulse. */
module AlienVault {
  import opened Json
  import opened Techniques
  import opened Mitre

  // ---------------------------------------------------------------------
  // extract_pulses

  /** The dict members of a list, in order; every other member is dropped. */
  function DictMembers(items: seq<Json>): (r: seq<Dict>)
    ensures |r| <= |items|
    decreases |items|
  {
    if items == [] then []
    else if items[0].JObject? then [items[0]] + DictMembers(items[1..])
    else DictMembers(items[1..])
  }

  /** Filtering the dicts of two lists one after the other. */
  lemma {:induction false} DictMembersAppend(a: seq<Json>, b: seq<Json>)
    ensures DictMembers(a + b) == DictMembers(a) + DictMembers(b)
    decreases |a|
  {
    if a == [] {
      assert a + b == b;
    } else {
      assert (a + b)[0] == a[0] && (a + b)[1..] == a[1..] + b;
      DictMembersAppend(a[1..], b);
    }
  }

  /** A value is kept exactly when it is a dict of the list. */
  lemma {:induction false} DictMembersKeep(items: seq<Json>, v: Json)
    ensures v in DictMembers(items) <==> v in items && v.JObject?
    decreases |items|
  {
    if items != [] {
      DictMembersKeep(items[1..], v);
      assert items == [items[0]] + items[1..];
    }
  }

  /** A list of dicts is kept whole, in its order. */
  lemma {:induction false} DictMembersAllDicts(items: seq<Json>)
    requires forall k :: 0 <= k < |items| ==> items[k].JObject?
    ensures DictMembers(items) == items
    decreases |items|
  {
    if items != [] {
      DictMembersAllDicts(items[1..]);
      assert items == [items[0]] + items[1..];
    }
  }

  /** The keys under which a document may hold its list of pulses, in the
      order they are tried. */
  const PulseKeys: seq<string> := ["results", "pulses", "data", "objects"]

  /** The dict holds a list under `key`. */
  predicate HoldsList(d: Dict, key: string) {
    Lookup(d.entries, key).Some? && Lookup(d.entries, key).value.JList?
  }

  /** The position of the first of `keys` under which the dict holds a
      list, |keys| when there is none. */
  function FirstListKey(d: Dict, keys: seq<string>): (j: nat)
    ensures j <= |keys|
    ensures forall i :: 0 <= i < j ==> !HoldsList(d, keys[i])
    ensures j < |keys| ==> HoldsList(d, keys[j])
    decreases |keys|
  {
    if keys == [] || HoldsList(d, keys[0]) then 0
    else
      assert forall i :: 1 <= i < |keys| ==> keys[i] == keys[1..][i - 1];
      1 + FirstListKey(d, keys[1..])
  }

  /** extract_pulses: the dicts of a list; for a dict, the dicts of the list
      under the first pulse key holding one, or else the dict itself; nothing
      for any other value. */
  function ExtractPulses(obj: Json): (r: seq<Dict>)
    ensures obj.JList? ==> |r| <= |obj.items|
    ensures !obj.JList? && !obj.JObject? ==> r == []
  {
    match obj
    case JList(items) => DictMembers(items)
    case JObject(entries) =>
      var j := FirstListKey(obj, PulseKeys);
      if j < |PulseKeys| then DictMembers(Lookup(entries, PulseKeys[j]).value.items) else [obj]
    case _ => []
  }

  /** A list yields exactly its dict members, in order. */
  lemma ExtractFromList(items: seq<Json>)
    ensures forall v :: v in ExtractPulses(JList(items)) <==> v in items && v.JObject?
    ensures (forall k :: 0 <= k < |items| ==> items[k].JObject?) ==> ExtractPulses(JList(items)) == items
  {
    forall v ensures v in ExtractPulses(JList(items)) <==> v in items && v.JObject? {
      DictMembersKeep(items, v);
    }
    if forall k :: 0 <= k < |items| ==> items[k].JObject? {
      DictMembersAllDicts(items);
    }
  }

  /** A dict yields the dicts of the list under the first pulse key that
      holds a list; keys with other values are passed over. */
  lemma ExtractFromDict(d: Dict, j: nat)
    requires j < |PulseKeys| && HoldsList(d, PulseKeys[j])
    requires forall i :: 0 <= i < j ==> !HoldsList(d, PulseKeys[i])
    ensures ExtractPulses(d) == DictMembers(Lookup(d.entries, PulseKeys[j]).value.items)
  {
    var k := FirstListKey(d, PulseKeys);
    assert k == j;
  }

  /** A dict holding no list under any pulse key is itself the one pulse;
      any value that is neither a list nor a dict yields none. */
  lemma ExtractFallback(obj: Json)
    ensures obj.JObject? && (forall j :: 0 <= j < |PulseKeys| ==> !HoldsList(obj, PulseKeys[j])) ==>
      ExtractPulses(obj) == [obj]
    ensures !obj.JObject? && !obj.JList? ==> ExtractPulses(obj) == []
  {
  }

  // ---------------------------------------------------------------------
  // The field readers of a pulse

  const TitleKeys: seq<string> := ["name", "title", "headline", "id"]

  /** The dict holds a truthy value under `key`. */
  predicate HoldsTruthy(d: Dict, key: string) {
    Lookup(d.entries, key).Some? && Truthy(Lookup(d.entries, key).value)
  }

  /** The value under the first of `keys` that holds a truthy one. */
  function FirstTruthy(d: Dict, keys: seq<string>): (r: Option<Json>)
    ensures r.None? <==> forall j :: 0 <= j < |keys| ==> !HoldsTruthy(d, keys[j])
    ensures r.Some? ==> Truthy(r.value)
    decreases |keys|
  {
    if keys == [] then None
    else if HoldsTruthy(d, keys[0]) then Some(Lookup(d.entries, keys[0]).value)
    else
      var r := FirstTruthy(d, keys[1..]);
      assert forall j :: 1 <= j < |keys| ==> keys[j] == keys[1..][j - 1];
      r
  }

  /** The first key holding a truthy value is the one read. */
  lemma {:induction false} FirstTruthyAt(d: Dict, keys: seq<string>, j: nat)
    requires j < |keys| && HoldsTruthy(d, keys[j])
    requires forall i :: 0 <= i < j ==> !HoldsTruthy(d, keys[i])
    ensures FirstTruthy(d, keys) == Some(Lookup(d.entries, keys[j]).value)
    decreases j
  {
    if j > 0 {
      assert forall i :: 0 <= i < j - 1 ==> keys[1..][i] == keys[i + 1];
      FirstTruthyAt(d, keys[1..], j - 1);
    }
  }

  /** str() of a truthy value is never empty. */
  lemma TruthyText(v: Json)
    requires Truthy(v)
    ensures PyStr(v) != ""
  {
  }

  /** A pulse and the taxonomy it resolves technique ids with. */
  datatype AlienVaultPulse = AlienVaultPulse(pulse: Dict, mitre: MitreAttack) {

    /** find_title: str() of the first truthy "name", "title", "headline" or
        "id", and "" when none is truthy. */
    function FindTitle(): (r: string)
      ensures r == "" <==> forall j :: 0 <= j < |TitleKeys| ==> !HoldsTruthy(pulse, TitleKeys[j])
      ensures r != "" ==> r == PyStr(FirstTruthy(pulse, TitleKeys).value)
    {
      match FirstTruthy(pulse, TitleKeys)
      case Some(v) => TruthyText(v); PyStr(v)
      case None => ""
    }

    /** find_url: str() of the first element of a non-empty "references"
        list; "" when the key is missing, is not a list or is empty. */
    function FindUrl(): (r: string)
      ensures var refs := GetOr(pulse, "references", JList([]));
        refs.JList? && refs.items != [] ==> r == PyStr(refs.items[0])
      ensures var refs := GetOr(pulse, "references", JList([]));
        !(refs.JList? && refs.items != []) ==> r == ""
      ensures Lookup(pulse.entries, "references").None? ==> r == ""
    {
      var references := GetOr(pulse, "references", JList([]));
      if references.JList? && |references.items| > 0 then PyStr(references.items[0]) else ""
    }

    /** find_date: the "created" value itself when it is truthy (it is not
        passed through str()), else "". */
    function FindDate(): (r: Json)
      ensures Truthy(Get(pulse, "created")) ==> r == Get(pulse, "created")
      ensures !Truthy(Get(pulse, "created")) ==> r == JStr("")
    {
      var created := Get(pulse, "created");
      if Truthy(created) then created else JStr("")
    }

    /** find_summary: str() of a truthy "description", else "". */
    function FindSummary(): (r: string)
      ensures r == "" <==> !HoldsTruthy(pulse, "description")
      ensures r != "" ==> r == PyStr(Lookup(pulse.entries, "description").value)
    {
      var description := GetOr(pulse, "description", JStr(""));
      if Truthy(description) then TruthyText(description); PyStr(description) else ""
    }

    /** find_ttps: one record per entry of "attack_ids", in order. */
    method FindTtps(web: Web) returns (r: Outcome<seq<Technique>>)
      ensures r == PulseTtps(pulse, mitre.Resolver(web))
    {
      var attackIds := GetOr(pulse, "attack_ids", JList([]));
      if !attackIds.JList? {
        return Ok([]);
      }
      var entries := attackIds.items;
      ghost var tids := AttackTids(entries);
      ghost var resolve := mitre.Resolver(web);
      var ttps: seq<Technique> := [];
      var i := 0;
      while i < |entries|
        invariant i <= |entries|
        invariant PulseTtps(pulse, resolve) == After(ttps, ResolveAll(tids[i..], resolve))
      {
        var tid := PyStr(entries[i]);
        tid := RemapOldTid(tid);
        assert tid == tids[i];
        ResolveStep(ttps, tids, i, resolve);
        var info := mitre.GetMitreInfo(tid, web);
        if info.Raises? {
          return Raises(info.error);
        }
        ttps := ttps + [info.value];
        i := i + 1;
      }
      assert ttps + [] == ttps;
      return Ok(ttps);
    }
  }

  /** The ids find_ttps resolves: each entry through str() and then the
      remapping of retired ids. */
  function AttackTids(entries: seq<Json>): (r: seq<string>)
    ensures |r| == |entries|
    ensures forall k :: 0 <= k < |entries| ==> r[k] == RemapOldTid(PyStr(entries[k]))
  {
    seq(|entries|, k requires 0 <= k < |entries| => RemapOldTid(PyStr(entries[k])))
  }

  /** find_ttps as a function of the pulse: nothing when "attack_ids" is
      not a list, every entry resolved otherwise. */
  function PulseTtps(pulse: Dict, resolve: Resolver): Outcome<seq<Technique>> {
    match GetOr(pulse, "attack_ids", JList([]))
    case JList(entries) => ResolveAll(AttackTids(entries), resolve)
    case _ => Ok([])
  }

  /** find_ttps returns one record per entry, in order, each resolved on the
      remapped str() of the entry; a retired id is never looked up. A value
      that is not a list yields no records. */
  lemma PulseTtpsRecords(pulse: Dict, resolve: Resolver)
    requires KeepsIds(resolve)
    ensures !GetOr(pulse, "attack_ids", JList([])).JList? ==> PulseTtps(pulse, resolve) == Ok([])
    ensures var a := GetOr(pulse, "attack_ids", JList([]));
      a.JList? && PulseTtps(pulse, resolve).Ok? ==>
        var ts := PulseTtps(pulse, resolve).value;
        && |ts| == |a.items|
        && forall k :: 0 <= k < |ts| ==> ts[k].id == RemapOldTid(PyStr(a.items[k])) && ts[k].id !in TidRemap
  {
    var a := GetOr(pulse, "attack_ids", JList([]));
    if a.JList? && PulseTtps(pulse, resolve).Ok? {
      ResolveAllIds(AttackTids(a.items), resolve);
    }
  }
}
