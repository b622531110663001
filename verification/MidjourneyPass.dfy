/** One polling pass: grouping the unfinished tasks by channel and upstream id, and matching the answers. */
module MidjourneyPass {
  import opened Sequences

  /** What the grouping loop looks at; `adopts` says that a legacy charge could be adopted. */
  datatype Polled = Polled(channel: int, mjId: string, quota: int, linked: bool, adopts: bool) {
    /** The charge is linked, or there is nothing to link, or the link could be created. */
    predicate Billable() {
      !(quota > 0 && !linked) || adopts
    }
  }

  type Groups = map<int, map<string, seq<nat>>>

  function GroupAt(groups: Groups, channel: int, mjId: string): seq<nat> {
    if channel in groups && mjId in groups[channel] then groups[channel][mjId] else []
  }

  function IdsAt(ids: map<int, seq<string>>, channel: int): seq<string> {
    if channel in ids then ids[channel] else []
  }

  /** The jobs of one channel that carry one upstream id, in polling order. */
  function Matching(tasks: seq<Polled>, channel: int, mjId: string): seq<nat> {
    if tasks == [] then []
    else
      var last := |tasks| - 1;
      Matching(tasks[..last], channel, mjId)
      + (if tasks[last].Billable() && tasks[last].mjId != "" && tasks[last].channel == channel
         && tasks[last].mjId == mjId
         then [last] else [])
  }

  function Deferred(tasks: seq<Polled>): nat {
    if tasks == [] then 0
    else
      var last := |tasks| - 1;
      Deferred(tasks[..last]) + (if tasks[last].Billable() && tasks[last].mjId == "" then 1 else 0)
  }

  ghost predicate Grouped(tasks: seq<Polled>, ids: map<int, seq<string>>, groups: Groups) {
    && (forall channel, mjId :: GroupAt(groups, channel, mjId) == Matching(tasks, channel, mjId))
    && (forall channel, mjId :: mjId in IdsAt(ids, channel) <==> Matching(tasks, channel, mjId) != [])
    && (forall channel :: Distinct(IdsAt(ids, channel)))
    && (forall channel :: channel in ids ==> ids[channel] != [])
  }

  /** The grouping loop of `runMidjourneyTaskUpdateOnce`. */
  method Group(tasks: seq<Polled>) returns (ids: map<int, seq<string>>, groups: Groups, deferred: nat)
    ensures Grouped(tasks, ids, groups)
    ensures deferred == Deferred(tasks)
  {
    ids, groups, deferred := map[], map[], 0;
    for i := 0 to |tasks|
      invariant Grouped(tasks[..i], ids, groups)
      invariant deferred == Deferred(tasks[..i])
    {
      var task := tasks[i];
      assert tasks[..i + 1] == tasks[..i] + [task];
      DeferredStep(tasks[..i], task);
      if task.quota > 0 && !task.linked && !task.adopts {
        SkippedTask(tasks[..i], task, ids, groups);
      } else if task.mjId == "" {
        SkippedTask(tasks[..i], task, ids, groups);
        deferred := deferred + 1;
      } else {
        ids, groups := Add(tasks[..i], task, ids, groups);
      }
    }
    assert tasks[..|tasks|] == tasks;
  }

  lemma DeferredStep(before: seq<Polled>, task: Polled)
    ensures Deferred(before + [task]) == Deferred(before) + if task.Billable() && task.mjId == "" then 1 else 0
  {
    assert (before + [task])[..|before|] == before;
  }

  lemma SkippedTask(before: seq<Polled>, task: Polled, ids: map<int, seq<string>>, groups: Groups)
    requires Grouped(before, ids, groups) && !(task.Billable() && task.mjId != "")
    ensures Grouped(before + [task], ids, groups)
  {
    assert (before + [task])[..|before|] == before;
    assert forall c, m :: Matching(before + [task], c, m) == Matching(before, c, m);
  }

  /** The map writes for one task. */
  method Add(before: seq<Polled>, task: Polled, oldIds: map<int, seq<string>>, oldGroups: Groups)
    returns (ids: map<int, seq<string>>, groups: Groups)
    requires Grouped(before, oldIds, oldGroups) && task.Billable() && task.mjId != ""
    ensures Grouped(before + [task], ids, groups)
  {
    assert GroupAt(oldGroups, task.channel, task.mjId) == Matching(before, task.channel, task.mjId);
    ids := AppendId(before, task, oldIds, |GroupAt(oldGroups, task.channel, task.mjId)| == 0);
    groups := AppendToGroup(oldGroups, task.channel, task.mjId, |before|);
    AddedGroups(before, task, oldGroups, groups);
    AddedIds(before, task, oldIds, ids);
  }

  method AppendId(ghost before: seq<Polled>, task: Polled, oldIds: map<int, seq<string>>, first: bool)
    returns (ids: map<int, seq<string>>)
    requires first <==> Matching(before, task.channel, task.mjId) == []
    ensures forall c :: IdsAt(ids, c) == IdsAfter(before, task, IdsAt(oldIds, c), c)
    ensures (forall c :: c in oldIds ==> oldIds[c] != []) ==> forall c :: c in ids ==> ids[c] != []
  {
    ids := oldIds;
    if first {
      ids := ids[task.channel := IdsAt(ids, task.channel) + [task.mjId]];
    }
  }

  method AppendToGroup(groups: Groups, channel: int, mjId: string, index: nat) returns (next: Groups)
    ensures forall c, m :: GroupAt(next, c, m) ==
              if c == channel && m == mjId then GroupAt(groups, c, m) + [index] else GroupAt(groups, c, m)
  {
    next := groups;
    if channel !in next {
      next := next[channel := map[]];
    }
    next := next[channel := next[channel][mjId := GroupAt(next, channel, mjId) + [index]]];
  }

  lemma MatchingStep(before: seq<Polled>, task: Polled, channel: int, mjId: string)
    requires task.Billable() && task.mjId != ""
    ensures Matching(before + [task], channel, mjId)
            == Matching(before, channel, mjId)
               + (if task.channel == channel && task.mjId == mjId then [|before|] else [])
  {
    assert (before + [task])[..|before|] == before;
  }

  lemma AddedGroups(before: seq<Polled>, task: Polled, groups: Groups, next: Groups)
    requires task.Billable() && task.mjId != ""
    requires forall c, m :: GroupAt(groups, c, m) == Matching(before, c, m)
    requires forall c, m :: GroupAt(next, c, m) ==
               if c == task.channel && m == task.mjId then GroupAt(groups, c, m) + [|before|] else GroupAt(groups, c, m)
    ensures forall c, m :: GroupAt(next, c, m) == Matching(before + [task], c, m)
  {
    forall c, m
      ensures GroupAt(next, c, m) == Matching(before + [task], c, m)
    {
      MatchingStep(before, task, c, m);
      assert GroupAt(groups, c, m) == Matching(before, c, m);
    }
  }

  /** The id list of one channel after a task. */
  function IdsAfter(before: seq<Polled>, task: Polled, ids: seq<string>, channel: int): seq<string> {
    if channel == task.channel && Matching(before, channel, task.mjId) == [] then ids + [task.mjId] else ids
  }

  lemma AddedId(before: seq<Polled>, task: Polled, ids: seq<string>, channel: int, mjId: string)
    requires task.Billable() && task.mjId != ""
    requires mjId in ids <==> Matching(before, channel, mjId) != []
    ensures mjId in IdsAfter(before, task, ids, channel) <==> Matching(before + [task], channel, mjId) != []
  {
    MatchingStep(before, task, channel, mjId);
  }

  lemma DistinctIds(before: seq<Polled>, task: Polled, ids: seq<string>, channel: int)
    requires task.mjId in ids <==> Matching(before, channel, task.mjId) != []
    requires Distinct(ids)
    ensures Distinct(IdsAfter(before, task, ids, channel))
  {
  }

  lemma AddedIds(before: seq<Polled>, task: Polled, ids: map<int, seq<string>>, next: map<int, seq<string>>)
    requires task.Billable() && task.mjId != ""
    requires forall c, m :: m in IdsAt(ids, c) <==> Matching(before, c, m) != []
    requires forall c :: Distinct(IdsAt(ids, c))
    requires forall c :: IdsAt(next, c) == IdsAfter(before, task, IdsAt(ids, c), c)
    ensures forall c, m :: m in IdsAt(next, c) <==> Matching(before + [task], c, m) != []
    ensures forall c :: Distinct(IdsAt(next, c))
  {
    forall c, m
      ensures m in IdsAt(next, c) <==> Matching(before + [task], c, m) != []
    {
      assert m in IdsAt(ids, c) <==> Matching(before, c, m) != [];
      AddedId(before, task, IdsAt(ids, c), c, m);
    }
    forall c
      ensures Distinct(IdsAt(next, c))
    {
      assert task.mjId in IdsAt(ids, c) <==> Matching(before, c, task.mjId) != [];
      DistinctIds(before, task, IdsAt(ids, c), c);
    }
  }

  // ---------------------------------------------------------------- matching the answers of one channel

  /** The jobs a list of answered ids touches, in order. */
  function Targets(tasks: seq<Polled>, channel: int, answers: seq<string>): seq<nat> {
    if answers == [] then []
    else Matching(tasks, channel, answers[0]) + Targets(tasks, channel, answers[1..])
  }

  lemma {:induction false} MatchingMembers(tasks: seq<Polled>, channel: int, mjId: string)
    ensures forall i :: i in Matching(tasks, channel, mjId) ==>
              i < |tasks| && tasks[i].channel == channel && tasks[i].mjId == mjId
    ensures Distinct(Matching(tasks, channel, mjId))
  {
    if tasks != [] {
      var last := |tasks| - 1;
      MatchingMembers(tasks[..last], channel, mjId);
      var front, all := Matching(tasks[..last], channel, mjId), Matching(tasks, channel, mjId);
      forall i, j | 0 <= i < j < |all|
        ensures all[i] != all[j]
      {
        assert front[i] in front;
      }
    }
  }

  /** Who is polled under an id of a channel: every job of that channel and non-empty id whose charge is
      linked, is nothing, or could be adopted. */
  lemma {:induction false} MatchingIff(tasks: seq<Polled>, channel: int, mjId: string, i: nat)
    requires i < |tasks|
    ensures i in Matching(tasks, channel, mjId) <==>
            && tasks[i].channel == channel && tasks[i].mjId == mjId && mjId != ""
            && (tasks[i].quota <= 0 || tasks[i].linked || tasks[i].adopts)
  {
    var last := |tasks| - 1;
    MatchingMembers(tasks[..last], channel, mjId);
    if i < last {
      MatchingIff(tasks[..last], channel, mjId, i);
      assert tasks[..last][i] == tasks[i];
    }
  }

  /** Jobs are polled in the order they were loaded in. */
  lemma {:induction false} MatchingRises(tasks: seq<Polled>, channel: int, mjId: string, a: nat, b: nat)
    requires a < b < |Matching(tasks, channel, mjId)|
    ensures Matching(tasks, channel, mjId)[a] < Matching(tasks, channel, mjId)[b] < |tasks|
  {
    var last := |tasks| - 1;
    var front := Matching(tasks[..last], channel, mjId);
    MatchingMembers(tasks[..last], channel, mjId);
    if b < |front| {
      MatchingRises(tasks[..last], channel, mjId, a, b);
    } else {
      assert front[a] in front;
    }
  }

  /** The deferred jobs: those that could be billed but have no upstream id. */
  function DeferredJobs(tasks: seq<Polled>): set<nat> {
    set i | 0 <= i < |tasks| && tasks[i].mjId == "" && (tasks[i].quota <= 0 || tasks[i].linked || tasks[i].adopts)
  }

  lemma {:induction false} DeferredCounts(tasks: seq<Polled>)
    ensures Deferred(tasks) == |DeferredJobs(tasks)|
  {
    if tasks == [] {
      assert DeferredJobs(tasks) == {};
    } else {
      var last := |tasks| - 1;
      DeferredCounts(tasks[..last]);
      assert DeferredJobs(tasks) ==
             DeferredJobs(tasks[..last]) + (if last in DeferredJobs(tasks) then {last} else {});
    }
  }

  lemma {:induction false} TargetsMembers(tasks: seq<Polled>, channel: int, answers: seq<string>)
    ensures forall i :: i in Targets(tasks, channel, answers) ==>
              i < |tasks| && tasks[i].channel == channel && tasks[i].mjId in answers
  {
    if answers != [] {
      MatchingMembers(tasks, channel, answers[0]);
      TargetsMembers(tasks, channel, answers[1..]);
    }
  }

  /** If a provider answers each id at most once, a pass processes every copy at most once. */
  lemma {:induction false} EachCopyOnce(tasks: seq<Polled>, channel: int, answers: seq<string>)
    requires Distinct(answers)
    ensures Distinct(Targets(tasks, channel, answers))
  {
    if answers != [] {
      EachCopyOnce(tasks, channel, answers[1..]);
      MatchingMembers(tasks, channel, answers[0]);
      TargetsMembers(tasks, channel, answers[1..]);
      var first, rest := Matching(tasks, channel, answers[0]), Targets(tasks, channel, answers[1..]);
      forall i, j | 0 <= i < j < |first + rest|
        ensures (first + rest)[i] != (first + rest)[j]
      {
        if i < |first| <= j {
          assert first[i] in first && rest[j - |first|] in rest;
          assert tasks[first[i]].mjId == answers[0];
          assert tasks[rest[j - |first|]].mjId in answers[1..];
        }
      }
    }
  }
}
