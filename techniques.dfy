/** Technique records and their classification (utils.py): the table of retired
    technique ids, the `{name, id, tactics}` record every scraper produces, and
    filter_goal_ttps, which moves the "goal" records out of a caller's list. */
module Techniques {
  import opened Json

  /** TID_REMAP: retired technique ids and the ids that replaced them. */
  const TidRemap: map<string, string> := map[
    "T1086" := "T1059.001",
    "T1155" := "T1059.002",
    "T1150" := "T1547.011",
    "T1162" := "T1547.011"
  ]

  /** remap_old_tid: the replacement of a retired id, any other string unchanged. */
  function RemapOldTid(tid: string): (r: string)
    ensures r !in TidRemap
    ensures r == tid || tid in TidRemap
  {
    if tid in TidRemap then TidRemap[tid] else tid
  }

  /** The table's four entries, and the identity everywhere else. */
  lemma RemapRetiredIds(tid: string)
    ensures RemapOldTid("T1086") == "T1059.001"
    ensures RemapOldTid("T1155") == "T1059.002"
    ensures RemapOldTid("T1150") == "T1547.011"
    ensures RemapOldTid("T1162") == "T1547.011"
    ensures tid !in {"T1086", "T1155", "T1150", "T1162"} ==> RemapOldTid(tid) == tid
  {
  }

  /** No replacement is itself retired, so remapping twice is remapping once. */
  lemma RemapIdempotent(tid: string)
    ensures RemapOldTid(RemapOldTid(tid)) == RemapOldTid(tid)
  {
  }

  /** Two retired ids share one replacement. */
  lemma RemapNotInjective()
    ensures "T1150" != "T1162" && RemapOldTid("T1150") == RemapOldTid("T1162")
  {
  }

  /** The record get_mitre_info returns: `{"name", "id", "tactics"}`. */
  datatype Technique = Technique(name: string, id: string, tactics: seq<string>)

  /** A goal technique serves the "impact" or the "exfiltration" tactic. */
  predicate IsGoal(t: Technique) {
    "impact" in t.tactics || "exfiltration" in t.tactics
  }

  /** The goal records of `s`, in order. */
  function Goals(s: seq<Technique>): (r: seq<Technique>)
    ensures |r| <= |s|
  {
    if s == [] then []
    else if IsGoal(s[0]) then [s[0]] + Goals(s[1..])
    else Goals(s[1..])
  }

  /** The records of `s` that are not goals, in order. */
  function NonGoals(s: seq<Technique>): (r: seq<Technique>)
    ensures |r| <= |s|
  {
    if s == [] then []
    else if IsGoal(s[0]) then NonGoals(s[1..])
    else [s[0]] + NonGoals(s[1..])
  }

  lemma {:induction false} GoalsAppend(s: seq<Technique>, t: Technique)
    ensures Goals(s + [t]) == Goals(s) + (if IsGoal(t) then [t] else [])
  {
    if s != [] {
      assert (s + [t])[1..] == s[1..] + [t];
      GoalsAppend(s[1..], t);
    }
  }

  /** Goals holds exactly the goal records of its input. */
  lemma {:induction false} GoalsMembers(s: seq<Technique>, t: Technique)
    ensures t in Goals(s) <==> t in s && IsGoal(t)
  {
    if s != [] {
      GoalsMembers(s[1..], t);
      assert s == [s[0]] + s[1..];
    }
  }

  /** NonGoals holds exactly the other records of its input. */
  lemma {:induction false} NonGoalsMembers(s: seq<Technique>, t: Technique)
    ensures t in NonGoals(s) <==> t in s && !IsGoal(t)
  {
    if s != [] {
      NonGoalsMembers(s[1..], t);
      assert s == [s[0]] + s[1..];
    }
  }

  /** The goals and the remainder together are the input, as a multiset. */
  lemma {:induction false} PartitionIsPermutation(s: seq<Technique>)
    ensures multiset(Goals(s)) + multiset(NonGoals(s)) == multiset(s)
  {
    if s != [] {
      PartitionIsPermutation(s[1..]);
      assert s == [s[0]] + s[1..];
      assert multiset(s) == multiset{s[0]} + multiset(s[1..]);
      if IsGoal(s[0]) {
        assert multiset(Goals(s)) == multiset{s[0]} + multiset(Goals(s[1..]));
        assert NonGoals(s) == NonGoals(s[1..]);
      } else {
        assert Goals(s) == Goals(s[1..]);
        assert multiset(NonGoals(s)) == multiset{s[0]} + multiset(NonGoals(s[1..]));
      }
    }
  }

  /** `list.remove(x)`: the list without the first element equal to `x`. */
  function RemoveFirst(s: seq<Technique>, x: Technique): (r: seq<Technique>)
    ensures x in s ==> |r| == |s| - 1
    ensures x !in s ==> r == s
  {
    if s == [] then []
    else if s[0] == x then s[1..]
    else [s[0]] + RemoveFirst(s[1..], x)
  }

  /** The first occurrence is the one removed. */
  lemma {:induction false} RemoveFirstAt(s: seq<Technique>, x: Technique, i: nat)
    requires i < |s| && s[i] == x
    requires forall k :: 0 <= k < i ==> s[k] != x
    ensures RemoveFirst(s, x) == s[..i] + s[i + 1..]
  {
    if i > 0 {
      var t := s[1..];
      assert s[0] != x;
      assert forall k :: 0 <= k < i - 1 ==> t[k] == s[k + 1];
      RemoveFirstAt(t, x, i - 1);
      calc {
        RemoveFirst(s, x);
        [s[0]] + RemoveFirst(t, x);
        [s[0]] + (t[..i - 1] + t[i..]);
        ([s[0]] + t[..i - 1]) + t[i..];
        { assert [s[0]] + t[..i - 1] == s[..i]; assert t[i..] == s[i + 1..]; }
        s[..i] + s[i + 1..];
      }
    } else {
      assert s[..i] + s[i + 1..] == s[1..];
    }
  }

  /** `s` with its first `k` goal records removed. */
  function DropGoals(s: seq<Technique>, k: nat): seq<Technique> {
    if s == [] then []
    else if IsGoal(s[0]) && k > 0 then DropGoals(s[1..], k - 1)
    else [s[0]] + DropGoals(s[1..], k)
  }

  lemma {:induction false} DropNoGoals(s: seq<Technique>)
    ensures DropGoals(s, 0) == s
  {
    if s != [] {
      DropNoGoals(s[1..]);
    }
  }

  /** The next goal record is still in the list once the earlier goals are
      removed, so `list.remove` never raises in filter_goal_ttps. */
  lemma {:induction false} GoalInDropGoals(s: seq<Technique>, k: nat)
    requires k < |Goals(s)|
    ensures Goals(s)[k] in DropGoals(s, k)
  {
    if IsGoal(s[0]) {
      if k == 0 {
        DropNoGoals(s);
      } else {
        GoalInDropGoals(s[1..], k - 1);
      }
    } else {
      GoalInDropGoals(s[1..], k);
    }
  }

  /** Removing the next goal (by equality, first occurrence) removes that very
      position: a record equal to a goal is itself a goal, so no earlier
      non-goal record can be taken instead. */
  lemma {:induction false} RemoveNextGoal(s: seq<Technique>, k: nat)
    requires k < |Goals(s)|
    ensures RemoveFirst(DropGoals(s, k), Goals(s)[k]) == DropGoals(s, k + 1)
  {
    if IsGoal(s[0]) {
      if k == 0 {
        DropNoGoals(s);
        DropNoGoals(s[1..]);
      } else {
        RemoveNextGoal(s[1..], k - 1);
      }
    } else {
      RemoveNextGoal(s[1..], k);
      GoalsMembers(s[1..], Goals(s)[k]);
    }
  }

  lemma {:induction false} DropAllGoals(s: seq<Technique>)
    ensures DropGoals(s, |Goals(s)|) == NonGoals(s)
  {
    if s != [] {
      DropAllGoals(s[1..]);
    }
  }

  /** A Python list of technique records, which filter_goal_ttps shrinks in place. */
  class TechniqueList {
    var items: seq<Technique>

    constructor (items: seq<Technique>)
      ensures this.items == items
    {
      this.items := items;
    }

    /** `list.remove(x)`; `found` is false where Python raises ValueError. */
    method Remove(x: Technique) returns (found: bool)
      modifies this
      ensures found == (x in old(items))
      ensures items == RemoveFirst(old(items), x)
    {
      var s := items;
      var i := 0;
      while i < |s| && s[i] != x
        invariant 0 <= i <= |s|
        invariant forall k :: 0 <= k < i ==> s[k] != x
      {
        i := i + 1;
      }
      found := i < |s|;
      if found {
        RemoveFirstAt(s, x, i);
        items := s[..i] + s[i + 1..];
      }
    }
  }

  /** filter_goal_ttps: collects the goal records, then removes each of them
      from the caller's list, which keeps the other records in their order. */
  method FilterGoalTtps(ttps: TechniqueList) returns (goals: seq<Technique>)
    modifies ttps
    ensures goals == Goals(old(ttps.items))
    ensures ttps.items == NonGoals(old(ttps.items))
  {
    ghost var s := ttps.items;
    goals := [];
    var i := 0;
    while i < |ttps.items|
      invariant i <= |s| && ttps.items == s
      invariant goals == Goals(s[..i])
    {
      GoalsAppend(s[..i], s[i]);
      assert s[..i + 1] == s[..i] + [s[i]];
      if IsGoal(ttps.items[i]) {
        goals := goals + [ttps.items[i]];
      }
      i := i + 1;
    }
    assert s[..i] == s;
    DropNoGoals(s);
    var k := 0;
    while k < |goals|
      invariant k <= |goals|
      invariant ttps.items == DropGoals(s, k)
    {
      RemoveNextGoal(s, k);
      GoalInDropGoals(s, k);
      var found := ttps.Remove(goals[k]);
      assert found;
      k := k + 1;
    }
    DropAllGoals(s);
  }

  /** The lookup the scrapers resolve technique ids with: a record, or the
      exception the lookup raised. */
  type Resolver = string -> Outcome<Technique>

  /** The resolver returns records carrying the id they were asked for. */
  ghost predicate KeepsIds(resolve: Resolver) {
    forall tid :: resolve(tid).Ok? ==> resolve(tid).value.id == tid
  }

  /** Every id resolved in order; the first exception stops the loop. */
  function ResolveAll(tids: seq<string>, resolve: Resolver): (r: Outcome<seq<Technique>>)
    ensures r.Ok? ==> |r.value| == |tids|
    ensures r.Ok? ==> forall i :: 0 <= i < |tids| ==> resolve(tids[i]) == Ok(r.value[i])
    ensures r.Raises? <==> exists i :: 0 <= i < |tids| && resolve(tids[i]).Raises?
  {
    if tids == [] then Ok([])
    else
      match resolve(tids[0])
      case Raises(e) => Raises(e)
      case Ok(t) =>
        match ResolveAll(tids[1..], resolve)
        case Raises(e) =>
          assert exists i :: 1 <= i < |tids| && resolve(tids[i]).Raises? by {
            var i :| 0 <= i < |tids[1..]| && resolve(tids[1..][i]).Raises?;
            assert tids[1..][i] == tids[i + 1];
          }
          Raises(e)
        case Ok(ts) =>
          assert forall i :: 1 <= i < |tids| ==> tids[i] == tids[1..][i - 1];
          Ok([t] + ts)
  }

  /** The ids of a list of records. */
  function Ids(ts: seq<Technique>): (r: seq<string>)
    ensures |r| == |ts| && forall i :: 0 <= i < |ts| ==> r[i] == ts[i].id
  {
    seq(|ts|, i requires 0 <= i < |ts| => ts[i].id)
  }

  lemma IdsAppend(ts: seq<Technique>, t: Technique)
    ensures Ids(ts + [t]) == Ids(ts) + [t.id]
  {
  }

  /** A resolution outcome with `stored` in front of its records. */
  function After(stored: seq<Technique>, o: Outcome<seq<Technique>>): (r: Outcome<seq<Technique>>)
    ensures r.Raises? <==> o.Raises?
    ensures r.Ok? ==> r.value == stored + o.value
    ensures stored == [] ==> r == o
  {
    assert o.Ok? ==> [] + o.value == o.value;
    match o
    case Raises(e) => Raises(e)
    case Ok(ts) => Ok(stored + ts)
  }

  lemma AfterAfter(a: seq<Technique>, b: seq<Technique>, o: Outcome<seq<Technique>>)
    ensures After(a, After(b, o)) == After(a + b, o)
  {
    if o.Ok? {
      assert a + b + o.value == a + (b + o.value);
    }
  }

  lemma ResolveAllCons(id: string, rest: seq<string>, resolve: Resolver)
    ensures resolve(id).Raises? ==> ResolveAll([id] + rest, resolve) == Raises(resolve(id).error)
    ensures resolve(id).Ok? ==> ResolveAll([id] + rest, resolve) == After([resolve(id).value], ResolveAll(rest, resolve))
  {
    assert ([id] + rest)[0] == id && ([id] + rest)[1..] == rest;
  }

  /** One turn of a resolving loop that has stored `ttps` and reached `i`. */
  lemma ResolveStep(ttps: seq<Technique>, tids: seq<string>, i: nat, resolve: Resolver)
    requires i < |tids|
    ensures resolve(tids[i]).Raises? ==>
      After(ttps, ResolveAll(tids[i..], resolve)) == Raises(resolve(tids[i]).error)
    ensures resolve(tids[i]).Ok? ==>
      After(ttps, ResolveAll(tids[i..], resolve)) == After(ttps + [resolve(tids[i]).value], ResolveAll(tids[i + 1..], resolve))
  {
    assert tids[i..] == [tids[i]] + tids[i + 1..];
    ResolveAllCons(tids[i], tids[i + 1..], resolve);
    if resolve(tids[i]).Ok? {
      AfterAfter(ttps, [resolve(tids[i]).value], ResolveAll(tids[i + 1..], resolve));
    }
  }

  /** A resolver that keeps ids resolves a list of ids to records with
      exactly those ids, in order. */
  lemma ResolveAllIds(tids: seq<string>, resolve: Resolver)
    requires KeepsIds(resolve) && ResolveAll(tids, resolve).Ok?
    ensures Ids(ResolveAll(tids, resolve).value) == tids
  {
    var ts := ResolveAll(tids, resolve).value;
    assert forall i :: 0 <= i < |tids| ==> resolve(tids[i]) == Ok(ts[i]);
  }

  /** `for tid in tids: ttps.append(lookup(tid))`. */
  method ResolveEach(tids: seq<string>, resolve: Resolver) returns (r: Outcome<seq<Technique>>)
    ensures r == ResolveAll(tids, resolve)
  {
    var ttps := [];
    var i := 0;
    while i < |tids|
      invariant i <= |tids|
      invariant ResolveAll(tids, resolve) == After(ttps, ResolveAll(tids[i..], resolve))
    {
      ResolveStep(ttps, tids, i, resolve);
      match resolve(tids[i]) {
        case Raises(e) =>
          return Raises(e);
        case Ok(t) =>
          ttps := ttps + [t];
      }
      i := i + 1;
    }
    assert ttps + [] == ttps;
    r := Ok(ttps);
  }

  /** A report as the scrapers assemble it. */
  datatype Report = Report(
    title: string,
    source: string,
    url: string,
    date: string,
    summary: string,
    mitigations: string,
    goals: seq<Technique>,
    ttps: seq<Technique>)
}
