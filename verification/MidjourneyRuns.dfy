/** Polling passes as runs: whichever way the passes of several pollers interleave, distinct answers keep
    every billing call in line with the stored row. */
module MidjourneyRuns {
  import opened Wrappers
  import opened Sequences
  import opened Midjourney
  import opened MidjourneyPass

  /** One element of a provider's answer, and whether the database fails while it is handled. */
  datatype Answer = Answer(mjId: string, item: Item, updateFails: bool, billFails: bool)

  /** A pass as one job sees it: the unfinished jobs, the job's place and channel among them, the answers
      for the channel, and after how many actions the pass is lost, if it is. */
  datatype Pass = Pass(tasks: seq<Polled>, job: nat, channel: int, answers: seq<Answer>, lostAfter: nat)

  function Ids(answers: seq<Answer>): seq<string> {
    seq(|answers|, i requires 0 <= i < |answers| => answers[i].mjId)
  }

  /** What the answers make the poller do with its copy of the job. */
  function Handling(p: Pass, id: nat, answers: seq<Answer>): seq<Action> {
    if answers == [] then []
    else
      var a := answers[0];
      (if p.job in Matching(p.tasks, p.channel, a.mjId)
       then [Process(id, a.item, a.updateFails), Issue(id, a.billFails)] else [])
      + Handling(p, id, answers[1..])
  }

  /** Loading the job, handling the answers, and perhaps stopping on the way. */
  function PassActions(p: Pass, id: nat): seq<Action> {
    var actions := [Load(id)] + Handling(p, id, p.answers);
    if p.lostAfter < |actions| then actions[..p.lostAfter] + [Crash(id)] else actions
  }

  /** The passes of one poller, one after the other. */
  function Work(passes: seq<Pass>, id: nat): seq<Action> {
    if passes == [] then [] else PassActions(passes[0], id) + Work(passes[1..], id)
  }

  /** The actions of one poller in an interleaving. */
  function Of(actions: seq<Action>, id: nat): seq<Action> {
    if actions == [] then []
    else
      var last := |actions| - 1;
      Of(actions[..last], id) + (if actions[last].id == id then [actions[last]] else [])
  }

  // ---------------------------------------------------------------- at most one answer per load

  /** Whether the copy is fresh after the actions, given whether it was before. */
  function FreshAfter(actions: seq<Action>, isFresh: bool): bool {
    if actions == [] then isFresh
    else
      var last := |actions| - 1;
      match actions[last]
      case Load(_) => true
      case Process(_, _, _) => false
      case _ => FreshAfter(actions[..last], isFresh)
  }

  /** Every answer is handled on a fresh copy. */
  ghost predicate AtMostOnce(actions: seq<Action>, isFresh: bool) {
    forall i :: 0 <= i < |actions| && actions[i].Process? ==> FreshAfter(actions[..i], isFresh)
  }

  lemma {:induction false} FreshAppend(a: seq<Action>, b: seq<Action>, isFresh: bool)
    ensures FreshAfter(a + b, isFresh) == FreshAfter(b, FreshAfter(a, isFresh))
    ensures FreshAfter(b, false) ==> FreshAfter(b, isFresh)
  {
    if b == [] {
      assert a + b == a;
    } else {
      var last := |b| - 1;
      FreshAppend(a, b[..last], isFresh);
      assert (a + b)[..|a| + last] == a + b[..last];
    }
  }

  lemma AtMostOnceAppend(a: seq<Action>, b: seq<Action>, isFresh: bool)
    requires AtMostOnce(a, isFresh) && AtMostOnce(b, FreshAfter(a, isFresh))
    ensures AtMostOnce(a + b, isFresh)
  {
    forall i | 0 <= i < |a + b| && (a + b)[i].Process?
      ensures FreshAfter((a + b)[..i], isFresh)
    {
      if i < |a| {
        assert (a + b)[..i] == a[..i];
      } else {
        assert (a + b)[..i] == a + b[..i - |a|];
        FreshAppend(a, b[..i - |a|], isFresh);
      }
    }
  }

  lemma AtMostOnceFrom(actions: seq<Action>, isFresh: bool)
    requires AtMostOnce(actions, false)
    ensures AtMostOnce(actions, isFresh)
  {
    forall i | 0 <= i < |actions| && actions[i].Process?
      ensures FreshAfter(actions[..i], isFresh)
    {
      FreshAppend([], actions[..i], isFresh);
    }
  }

  // ---------------------------------------------------------------- a pass handles a copy at most once

  lemma IdsRest(answers: seq<Answer>)
    requires answers != []
    ensures Ids(answers)[0] == answers[0].mjId && Ids(answers)[1..] == Ids(answers[1..])
  {
  }

  lemma {:induction false} UntargetedIsIdle(p: Pass, id: nat, answers: seq<Answer>)
    requires p.job !in Targets(p.tasks, p.channel, Ids(answers))
    ensures Handling(p, id, answers) == []
  {
    if answers != [] {
      IdsRest(answers);
      UntargetedIsIdle(p, id, answers[1..]);
    }
  }

  lemma DistinctParts(a: seq<nat>, b: seq<nat>, x: nat)
    requires Distinct(a + b) && x in a
    ensures x !in b
  {
    var i :| 0 <= i < |a| && a[i] == x;
    forall j | 0 <= j < |b|
      ensures b[j] != x
    {
      assert (a + b)[i] != (a + b)[|a| + j];
    }
  }

  lemma {:induction false} HandledOnce(p: Pass, id: nat, answers: seq<Answer>)
    requires Distinct(Ids(answers))
    ensures AtMostOnce(Handling(p, id, answers), true)
  {
    if answers != [] {
      IdsRest(answers);
      var first := Matching(p.tasks, p.channel, answers[0].mjId);
      if p.job in first {
        EachCopyOnce(p.tasks, p.channel, Ids(answers));
        DistinctParts(first, Targets(p.tasks, p.channel, Ids(answers[1..])), p.job);
        UntargetedIsIdle(p, id, answers[1..]);
        assert Handling(p, id, answers)[..0] == [];
      } else {
        HandledOnce(p, id, answers[1..]);
        assert Handling(p, id, answers) == Handling(p, id, answers[1..]);
      }
    }
  }

  /** A pass whose answers are distinct handles the copy it loads at most once, also when it is cut short. */
  lemma PassIsFresh(p: Pass, id: nat)
    requires Distinct(Ids(p.answers))
    ensures AtMostOnce(PassActions(p, id), false)
  {
    HandledOnce(p, id, p.answers);
    AtMostOnceAppend([Load(id)], Handling(p, id, p.answers), false);
    var actions := [Load(id)] + Handling(p, id, p.answers);
    if p.lostAfter < |actions| {
      CutIsFresh(actions, p.lostAfter, id);
    }
  }

  lemma CutIsFresh(actions: seq<Action>, n: nat, id: nat)
    requires AtMostOnce(actions, false) && n <= |actions|
    ensures AtMostOnce(actions[..n] + [Crash(id)], false)
  {
    var cut := actions[..n] + [Crash(id)];
    forall i | 0 <= i < |cut| && cut[i].Process?
      ensures FreshAfter(cut[..i], false)
    {
      assert cut[..i] == actions[..i];
    }
  }

  ghost predicate DistinctAnswers(passes: seq<Pass>) {
    forall i :: 0 <= i < |passes| ==> Distinct(Ids(passes[i].answers))
  }

  lemma {:induction false} WorkIsFresh(passes: seq<Pass>, id: nat)
    requires DistinctAnswers(passes)
    ensures AtMostOnce(Work(passes, id), false)
  {
    if passes != [] {
      var first, rest := PassActions(passes[0], id), Work(passes[1..], id);
      PassIsFresh(passes[0], id);
      WorkIsFresh(passes[1..], id);
      AtMostOnceFrom(rest, FreshAfter(first, false));
      AtMostOnceAppend(first, rest, false);
    }
  }

  // ---------------------------------------------------------------- interleaved passes

  lemma OtherActionsKeepPoller(s: System, a: Action, id: nat)
    requires a.id != id
    ensures id in Step(s, a).pollers <==> id in s.pollers
    ensures id in s.pollers ==> Step(s, a).pollers[id] == s.pollers[id]
  {
  }

  lemma OwnActionTracksFreshness(s: System, a: Action, isFresh: bool)
    requires a.id in s.pollers && isFresh ==> !s.pollers[a.id].processed
    requires a.id in Step(s, a).pollers && FreshAfter([a], isFresh)
    ensures !Step(s, a).pollers[a.id].processed
  {
    assert [a][..0] == [];
  }

  lemma {:induction false} FreshnessIsTracked(states: seq<System>, actions: seq<Action>, quota: int, i: nat, id: nat)
    requires Run(states, actions, quota) && i < |states| && states[0].pollers == map[]
    ensures id in states[i].pollers && FreshAfter(Of(actions[..i], id), false) ==> !states[i].pollers[id].processed
  {
    if i > 0 {
      var a := actions[i - 1];
      FreshnessIsTracked(states, actions, quota, i - 1, id);
      OfLast(actions, i - 1, id);
      if a.id == id {
        var before := FreshAfter(Of(actions[..i - 1], id), false);
        FreshAppend(Of(actions[..i - 1], id), [a], false);
        if id in states[i].pollers && FreshAfter([a], before) {
          OwnActionTracksFreshness(states[i - 1], a, before);
        }
      } else {
        assert Of(actions[..i], id) == Of(actions[..i - 1], id);
        OtherActionsKeepPoller(states[i - 1], a, id);
      }
    }
  }

  lemma OfLast(actions: seq<Action>, i: nat, id: nat)
    requires i < |actions|
    ensures Of(actions[..i + 1], id) == Of(actions[..i], id) + (if actions[i].id == id then [actions[i]] else [])
  {
    assert actions[..i + 1][..i] == actions[..i];
  }

  lemma {:induction false} OfPrefix(actions: seq<Action>, i: nat, id: nat)
    requires i <= |actions|
    ensures Of(actions[..i], id) <= Of(actions, id)
    decreases |actions| - i
  {
    if i == |actions| {
      assert actions[..i] == actions;
    } else {
      OfLast(actions, i, id);
      OfPrefix(actions, i + 1, id);
    }
  }

  /** An answer handled somewhere in the run finds the copy fresh. */
  lemma AnswerFindsFreshCopy(actions: seq<Action>, i: nat)
    requires i < |actions| && actions[i].Process? && AtMostOnce(Of(actions, actions[i].id), false)
    ensures FreshAfter(Of(actions[..i], actions[i].id), false)
  {
    var id := actions[i].id;
    var before, all := Of(actions[..i], id), Of(actions, id);
    OfLast(actions, i, id);
    OfPrefix(actions, i + 1, id);
    assert before + [actions[i]] <= all;
    assert all[|before|] == actions[i] && all[..|before|] == before;
  }

  /** Several pollers make pass after pass over the same job, their actions interleaved in any order, with
      lost races, failing transactions and lost passes: if no single answer repeats an id, every billing call
      any of them ever decides on is the one of the stored status. */
  lemma DistinctAnswersCallCorrectly(states: seq<System>, actions: seq<Action>, quota: int,
                                     passes: map<nat, seq<Pass>>, i: nat)
    requires Run(states, actions, quota) && states[0].pollers == map[] && i < |states|
    requires forall k :: 0 <= k < |actions| ==> actions[k].id in passes
    requires forall id :: id in passes ==> DistinctAnswers(passes[id]) && Of(actions, id) <= Work(passes[id], id)
    ensures CallsMatch(states[i])
  {
    forall k | 0 <= k < i && actions[k].Process? && actions[k].id in states[k].pollers
      ensures !states[k].pollers[actions[k].id].processed
    {
      var id := actions[k].id;
      WorkIsFresh(passes[id], id);
      PrefixIsFresh(Of(actions, id), Work(passes[id], id));
      AnswerFindsFreshCopy(actions, k);
      FreshnessIsTracked(states, actions, quota, k, id);
    }
    FreshRunsCallCorrectly(states, actions, quota, i);
  }

  lemma PrefixIsFresh(a: seq<Action>, b: seq<Action>)
    requires a <= b && AtMostOnce(b, false)
    ensures AtMostOnce(a, false)
  {
    assert forall i :: 0 <= i < |a| ==> a[..i] == b[..i];
  }

  // ---------------------------------------------------------------- a winner's bill closes the reservation

  lemma {:induction false} LinkStays(states: seq<System>, actions: seq<Action>, quota: int, i: nat)
    requires Run(states, actions, quota) && i < |states|
    ensures states[i].reservation == Unlinked <==> states[0].reservation == Unlinked
  {
    if i > 0 {
      LinkStays(states, actions, quota, i - 1);
    }
  }

  lemma {:induction false} PollerWaits(states: seq<System>, actions: seq<Action>, quota: int, i: nat, j: nat, id: nat)
    requires Run(states, actions, quota) && i <= j < |states|
    requires forall k :: i <= k < j ==> actions[k].id != id
    ensures id in states[j].pollers <==> id in states[i].pollers
    ensures id in states[i].pollers ==> states[j].pollers[id] == states[i].pollers[id]
    decreases j
  {
    if i < j {
      PollerWaits(states, actions, quota, i, j - 1, id);
      OtherActionsKeepPoller(states[j - 1], actions[j - 1], id);
    }
  }

  /** What a winner is about to bill. */
  lemma WinnerPlans(s: System, a: Action, quota: int)
    requires WinsTerminal(s, a) && Inv(s, quota)
    ensures a.Process? && a.id in Step(s, a).pollers
    ensures Step(s, a).pollers[a.id].pending ==
            Some(if Step(s, a).row.status == Success then Settle(quota) else Refund)
    ensures Step(s, a).row.status == Success ==> 0 <= quota <= 2147483647
  {
    WinnerBills(s, a);
    assert PollerHolds(s.pollers[a.id], quota);
  }

  /** Whatever the other pollers do in between: when the poller that moved the row into a final status issues
      its bill and the database does not fail, the reservation of the row is settled with the reserved quota
      on success, and refunded on failure. */
  lemma WinnerCloses(states: seq<System>, actions: seq<Action>, quota: int, i: nat, j: nat)
    requires Run(states, actions, quota) && i < j < |actions| && states[0].reservation != Unlinked
    requires WinsTerminal(states[i], actions[i]) && actions[j] == Issue(actions[i].id, false)
    requires forall k :: i < k < j ==> actions[k].id != actions[i].id
    ensures states[j + 1].reservation == (if states[i + 1].row.status == Success then Settled(quota) else Refunded)
  {
    var id := actions[i].id;
    RunKeepsInv(states, actions, quota, i);
    WinnerPlans(states[i], actions[i], quota);
    PollerWaits(states, actions, quota, i + 1, j, id);
    TerminalIsAbsorbing(states, actions, quota, i + 1, j);
    LinkStays(states, actions, quota, j);
    RunKeepsInv(states, actions, quota, j);
    LedgerMatchesStatus(states, actions, quota, j, j);
    IssuedBill(states[j], id);
  }
}
