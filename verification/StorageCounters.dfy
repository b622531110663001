/** The cache counters under concurrency: every atomic addition or store is a step of its own, and the
    steps of creating, closing and sweeping interleave in any order. */
module StorageCounters {

  /** Disk bodies, memory bodies, and the removal of an old cache file by the sweeper. */
  datatype Kind = Disk | Memory | Sweep

  /** How far creating and closing have come. `CountPending` and `BytesPending` lie between an addition
      that came out negative and the store that resets the counter. */
  datatype Phase = New | Counted | Open | Claimed | CountPending | CountDone | BytesPending | Closed

  datatype Process = Process(kind: Kind, size: nat, phase: Phase)

  datatype State = State(
    processes: seq<Process>,
    files: int, diskBytes: int, buffers: int, memoryBytes: int,
    subtracted: multiset<nat>)

  const INITIAL := State([], 0, 0, 0, 0, multiset{})

  datatype Action = Create(kind: Kind, size: nat) | Advance(index: nat) | Close(index: nat)

  /** A new body has counted nothing yet; a sweep starts by subtracting. */
  function Created(kind: Kind, size: nat): Process {
    Process(kind, size, if kind == Sweep then Claimed else New)
  }

  /** The next atomic operation of a disk body or a sweep. */
  function AdvanceDisk(s: State, i: nat): State
    requires i < |s.processes|
  {
    var p := s.processes[i];
    match p.phase
    case New => s.(processes := s.processes[i := p.(phase := Counted)], files := s.files + 1)
    case Counted => s.(processes := s.processes[i := p.(phase := Open)], diskBytes := s.diskBytes + p.size)
    case Claimed =>
      s.(processes := s.processes[i := p.(phase := if s.files - 1 < 0 then CountPending else CountDone)],
         files := s.files - 1)
    case CountPending => s.(processes := s.processes[i := p.(phase := CountDone)], files := 0)
    case CountDone =>
      s.(processes := s.processes[i := p.(phase := if s.diskBytes - p.size < 0 then BytesPending else Closed)],
         diskBytes := s.diskBytes - p.size, subtracted := s.subtracted + multiset{i})
    case BytesPending => s.(processes := s.processes[i := p.(phase := Closed)], diskBytes := 0)
    case _ => s
  }

  /** The next atomic operation of a memory body, whose counters are not reset. */
  function AdvanceMemory(s: State, i: nat): State
    requires i < |s.processes|
  {
    var p := s.processes[i];
    match p.phase
    case New => s.(processes := s.processes[i := p.(phase := Counted)], buffers := s.buffers + 1)
    case Counted => s.(processes := s.processes[i := p.(phase := Open)], memoryBytes := s.memoryBytes + p.size)
    case Claimed => s.(processes := s.processes[i := p.(phase := CountDone)], buffers := s.buffers - 1)
    case CountDone =>
      s.(processes := s.processes[i := p.(phase := Closed)],
         memoryBytes := s.memoryBytes - p.size, subtracted := s.subtracted + multiset{i})
    case _ => s
  }

  /** Only the first `Close` of an open body wins the compare-and-swap. */
  function Step(s: State, a: Action): State {
    match a
    case Create(kind, size) => s.(processes := s.processes + [Created(kind, size)])
    case Close(i) =>
      if i < |s.processes| && s.processes[i].phase == Open
      then s.(processes := s.processes[i := s.processes[i].(phase := Claimed)]) else s
    case Advance(i) =>
      if i >= |s.processes| then s
      else if s.processes[i].kind == Memory then AdvanceMemory(s, i) else AdvanceDisk(s, i)
  }

  function Run(s: State, actions: seq<Action>): State {
    if actions == [] then s else Step(Run(s, actions[..|actions| - 1]), actions[|actions| - 1])
  }

  // ---------------------------------------------------------------- what is open

  function CountWeight(p: Process): nat {
    if p.phase.Counted? || p.phase.Open? || p.phase.Claimed? then 1 else 0
  }

  function BytesWeight(p: Process): nat {
    if p.phase.Open? || p.phase.Claimed? || p.phase.CountPending? || p.phase.CountDone? then p.size else 0
  }

  function OpenCount(ps: seq<Process>, kind: Kind): nat {
    if ps == [] then 0
    else OpenCount(ps[..|ps| - 1], kind) + if ps[|ps| - 1].kind == kind then CountWeight(ps[|ps| - 1]) else 0
  }

  /** The total size of the bodies of a kind that are counted in. */
  function OpenBytes(ps: seq<Process>, kind: Kind): nat {
    if ps == [] then 0
    else OpenBytes(ps[..|ps| - 1], kind) + if ps[|ps| - 1].kind == kind then BytesWeight(ps[|ps| - 1]) else 0
  }

  lemma {:induction false} OpenUpdate(ps: seq<Process>, i: nat, p: Process, kind: Kind)
    requires i < |ps| && p.kind == ps[i].kind
    ensures OpenCount(ps[i := p], kind) ==
            OpenCount(ps, kind) + if p.kind == kind then CountWeight(p) - CountWeight(ps[i]) else 0
    ensures OpenBytes(ps[i := p], kind) ==
            OpenBytes(ps, kind) + if p.kind == kind then BytesWeight(p) - BytesWeight(ps[i]) else 0
  {
    var front := ps[..|ps| - 1];
    if i == |ps| - 1 {
      assert ps[i := p][..i] == front;
    } else {
      OpenUpdate(front, i, p, kind);
      assert ps[i := p][..|ps| - 1] == front[i := p];
    }
  }

  lemma OpenAppend(ps: seq<Process>, p: Process, kind: Kind)
    ensures OpenCount(ps + [p], kind) == OpenCount(ps, kind) + if p.kind == kind then CountWeight(p) else 0
    ensures OpenBytes(ps + [p], kind) == OpenBytes(ps, kind) + if p.kind == kind then BytesWeight(p) else 0
  {
    assert (ps + [p])[..|ps|] == ps;
  }

  // ---------------------------------------------------------------- without sweeps

  predicate NoSweep(ps: seq<Process>) {
    forall i :: 0 <= i < |ps| ==> ps[i].kind != Sweep
  }

  /** The counters are exactly what is open, and no reset is ever due. */
  ghost predicate Exact(s: State) {
    && NoSweep(s.processes)
    && (forall i :: 0 <= i < |s.processes| ==>
          !s.processes[i].phase.CountPending? && !s.processes[i].phase.BytesPending?)
    && s.files == OpenCount(s.processes, Disk) && s.diskBytes == OpenBytes(s.processes, Disk)
    && s.buffers == OpenCount(s.processes, Memory) && s.memoryBytes == OpenBytes(s.processes, Memory)
  }

  /** A member's weight is part of the sum. */
  lemma {:induction false} WeightInSum(ps: seq<Process>, i: nat)
    requires i < |ps|
    ensures OpenCount(ps, ps[i].kind) >= CountWeight(ps[i])
    ensures OpenBytes(ps, ps[i].kind) >= BytesWeight(ps[i])
  {
    if i < |ps| - 1 {
      WeightInSum(ps[..|ps| - 1], i);
    }
  }

  lemma AdvanceDiskKeepsExact(s: State, i: nat)
    requires Exact(s) && i < |s.processes| && s.processes[i].kind == Disk
    ensures Exact(AdvanceDisk(s, i))
  {
    var next := AdvanceDisk(s, i).processes[i];
    assert s.processes[i := s.processes[i]] == s.processes;
    WeightInSum(s.processes, i);
    OpenUpdate(s.processes, i, next, Disk);
    OpenUpdate(s.processes, i, next, Memory);
  }

  lemma AdvanceMemoryKeepsExact(s: State, i: nat)
    requires Exact(s) && i < |s.processes| && s.processes[i].kind == Memory
    ensures Exact(AdvanceMemory(s, i))
  {
    var next := AdvanceMemory(s, i).processes[i];
    assert s.processes[i := s.processes[i]] == s.processes;
    WeightInSum(s.processes, i);
    OpenUpdate(s.processes, i, next, Disk);
    OpenUpdate(s.processes, i, next, Memory);
  }

  lemma StepKeepsExact(s: State, a: Action)
    requires Exact(s) && !(a.Create? && a.kind == Sweep)
    ensures Exact(Step(s, a))
  {
    match a
    case Create(kind, size) =>
      OpenAppend(s.processes, Created(kind, size), Disk);
      OpenAppend(s.processes, Created(kind, size), Memory);
    case Close(i) =>
      if i < |s.processes| && s.processes[i].phase == Open {
        var next := s.processes[i].(phase := Claimed);
        OpenUpdate(s.processes, i, next, Disk);
        OpenUpdate(s.processes, i, next, Memory);
      }
    case Advance(i) =>
      if i < |s.processes| {
        if s.processes[i].kind == Memory {
          AdvanceMemoryKeepsExact(s, i);
        } else {
          AdvanceDiskKeepsExact(s, i);
        }
      }
  }

  predicate Sweepless(actions: seq<Action>) {
    forall i :: 0 <= i < |actions| ==> !(actions[i].Create? && actions[i].kind == Sweep)
  }

  /** In every interleaving of creations and closings the counters equal what is open; so they are never
      negative and no reset happens. */
  lemma {:induction false} CountersAreExact(actions: seq<Action>)
    requires Sweepless(actions)
    ensures Exact(Run(INITIAL, actions))
  {
    if actions != [] {
      CountersAreExact(actions[..|actions| - 1]);
      StepKeepsExact(Run(INITIAL, actions[..|actions| - 1]), actions[|actions| - 1]);
    }
  }

  /** The open bodies of a kind, and their total size. */
  function OpenBodies(ps: seq<Process>, kind: Kind): set<nat> {
    set i | 0 <= i < |ps| && ps[i].kind == kind && ps[i].phase == Open
  }

  function OpenSize(ps: seq<Process>, kind: Kind): nat {
    if ps == [] then 0
    else
      var last := ps[|ps| - 1];
      OpenSize(ps[..|ps| - 1], kind) + if last.kind == kind && last.phase == Open then last.size else 0
  }

  /** Nobody is between two operations. */
  ghost predicate Resting(ps: seq<Process>) {
    forall i :: 0 <= i < |ps| ==> ps[i].phase == New || ps[i].phase == Open || ps[i].phase == Closed
  }

  lemma {:induction false} RestingCount(ps: seq<Process>, kind: Kind)
    requires Resting(ps)
    ensures OpenCount(ps, kind) == |OpenBodies(ps, kind)|
  {
    if ps == [] {
      assert OpenBodies(ps, kind) == {};
    } else {
      RestingCount(ps[..|ps| - 1], kind);
      OneMoreBody(ps, kind);
    }
  }

  lemma OneMoreBody(ps: seq<Process>, kind: Kind)
    requires ps != []
    ensures var last := |ps| - 1;
            |OpenBodies(ps, kind)| == |OpenBodies(ps[..last], kind)|
                                      + if ps[last].kind == kind && ps[last].phase == Open then 1 else 0
  {
    var last := |ps| - 1;
    var front, here := OpenBodies(ps[..last], kind), ps[last].kind == kind && ps[last].phase == Open;
    assert OpenBodies(ps, kind) == if here then front + {last} else front;
  }

  lemma {:induction false} RestingSize(ps: seq<Process>, kind: Kind)
    requires Resting(ps)
    ensures OpenBytes(ps, kind) == OpenSize(ps, kind)
  {
    if ps != [] {
      RestingSize(ps[..|ps| - 1], kind);
    }
  }

  /** Whenever nobody is between two operations, the counters are the number and the total size of the bodies
      that are open, on disk and in memory. */
  lemma RestingCounters(actions: seq<Action>)
    requires Sweepless(actions) && Resting(Run(INITIAL, actions).processes)
    ensures var t := Run(INITIAL, actions);
            && t.files == |OpenBodies(t.processes, Disk)| && t.diskBytes == OpenSize(t.processes, Disk)
            && t.buffers == |OpenBodies(t.processes, Memory)| && t.memoryBytes == OpenSize(t.processes, Memory)
  {
    var ps := Run(INITIAL, actions).processes;
    CountersAreExact(actions);
    RestingCount(ps, Disk);
    RestingSize(ps, Disk);
    RestingCount(ps, Memory);
    RestingSize(ps, Memory);
  }

  // ---------------------------------------------------------------- with sweeps

  /** The phases a sweep goes through. */
  predicate Sweeping(phase: Phase) {
    !phase.New? && !phase.Counted? && !phase.Open?
  }

  ghost predicate Pending(s: State, phase: Phase) {
    exists i :: 0 <= i < |s.processes| && s.processes[i].phase == phase
  }

  ghost predicate SweepsOnlySubtract(s: State) {
    forall i :: 0 <= i < |s.processes| && s.processes[i].kind == Sweep ==> Sweeping(s.processes[i].phase)
  }

  ghost predicate CountBounded(s: State) {
    s.files <= OpenCount(s.processes, Disk) && (s.files < 0 ==> Pending(s, CountPending))
  }

  ghost predicate BytesBounded(s: State) {
    s.diskBytes <= OpenBytes(s.processes, Disk) && (s.diskBytes < 0 ==> Pending(s, BytesPending))
  }

  ghost predicate MemoryExact(s: State) {
    s.buffers == OpenCount(s.processes, Memory) && s.memoryBytes == OpenBytes(s.processes, Memory)
  }

  /** The disk counters never exceed what is open, and are negative only while a reset is due; the memory
      counters stay exact. */
  ghost predicate Bounded(s: State) {
    SweepsOnlySubtract(s) && CountBounded(s) && BytesBounded(s) && MemoryExact(s)
  }

  /** A reset due before stays due unless the process that moves makes it. */
  lemma KeepsPending(s: State, t: State, i: nat, phase: Phase)
    requires |s.processes| <= |t.processes| && i < |t.processes|
    requires forall j :: 0 <= j < |s.processes| && j != i ==> t.processes[j] == s.processes[j]
    ensures Pending(s, phase) && (i < |s.processes| ==> s.processes[i].phase != phase) ==> Pending(t, phase)
    ensures t.processes[i].phase == phase ==> Pending(t, phase)
  {
    if Pending(s, phase) && (i < |s.processes| ==> s.processes[i].phase != phase) {
      var j :| 0 <= j < |s.processes| && s.processes[j].phase == phase;
      assert t.processes[j].phase == phase;
    }
  }

  lemma AdvanceDiskKeepsBounded(s: State, i: nat)
    requires Bounded(s) && i < |s.processes| && s.processes[i].kind != Memory
    ensures Bounded(AdvanceDisk(s, i))
  {
    var t := AdvanceDisk(s, i);
    assert s.processes[i := s.processes[i]] == s.processes;
    OpenUpdate(s.processes, i, t.processes[i], Memory);
    AdvanceKeepsCount(s, i);
    AdvanceKeepsBytes(s, i);
  }

  lemma AdvanceKeepsCount(s: State, i: nat)
    requires SweepsOnlySubtract(s) && CountBounded(s) && i < |s.processes| && s.processes[i].kind != Memory
    ensures CountBounded(AdvanceDisk(s, i))
  {
    var t := AdvanceDisk(s, i);
    assert s.processes[i := s.processes[i]] == s.processes;
    OpenUpdate(s.processes, i, t.processes[i], Disk);
    KeepsPending(s, t, i, CountPending);
  }

  lemma AdvanceKeepsBytes(s: State, i: nat)
    requires SweepsOnlySubtract(s) && BytesBounded(s) && i < |s.processes| && s.processes[i].kind != Memory
    ensures BytesBounded(AdvanceDisk(s, i))
  {
    var t := AdvanceDisk(s, i);
    assert s.processes[i := s.processes[i]] == s.processes;
    OpenUpdate(s.processes, i, t.processes[i], Disk);
    KeepsPending(s, t, i, BytesPending);
  }

  lemma AdvanceMemoryKeepsBounded(s: State, i: nat)
    requires Bounded(s) && i < |s.processes| && s.processes[i].kind == Memory
    ensures Bounded(AdvanceMemory(s, i))
  {
    var t := AdvanceMemory(s, i);
    assert s.processes[i := s.processes[i]] == s.processes;
    OpenUpdate(s.processes, i, t.processes[i], Disk);
    OpenUpdate(s.processes, i, t.processes[i], Memory);
    KeepsPending(s, t, i, CountPending);
    KeepsPending(s, t, i, BytesPending);
  }

  lemma StepKeepsBounded(s: State, a: Action)
    requires Bounded(s)
    ensures Bounded(Step(s, a))
  {
    var t := Step(s, a);
    match a
    case Create(kind, size) =>
      OpenAppend(s.processes, Created(kind, size), Disk);
      OpenAppend(s.processes, Created(kind, size), Memory);
      KeepsPending(s, t, |s.processes|, CountPending);
      KeepsPending(s, t, |s.processes|, BytesPending);
    case Close(i) =>
      if i < |s.processes| && s.processes[i].phase == Open {
        OpenUpdate(s.processes, i, t.processes[i], Disk);
        OpenUpdate(s.processes, i, t.processes[i], Memory);
        KeepsPending(s, t, i, CountPending);
        KeepsPending(s, t, i, BytesPending);
      }
    case Advance(i) =>
      if i < |s.processes| {
        if s.processes[i].kind == Memory {
          AdvanceMemoryKeepsBounded(s, i);
        } else {
          AdvanceDiskKeepsBounded(s, i);
        }
      }
  }

  lemma {:induction false} CountersAreBounded(actions: seq<Action>)
    ensures Bounded(Run(INITIAL, actions))
  {
    if actions != [] {
      CountersAreBounded(actions[..|actions| - 1]);
      StepKeepsBounded(Run(INITIAL, actions[..|actions| - 1]), actions[|actions| - 1]);
    }
  }

  /** Whatever is swept and whenever, with no reset under way the usage lies between zero and the size of
      the open disk bodies. */
  lemma UsageIsBetween(actions: seq<Action>)
    requires var s := Run(INITIAL, actions); !Pending(s, CountPending) && !Pending(s, BytesPending)
    ensures var s := Run(INITIAL, actions);
            && 0 <= s.files <= OpenCount(s.processes, Disk)
            && 0 <= s.diskBytes <= OpenBytes(s.processes, Disk)
  {
    CountersAreBounded(actions);
  }

  // ---------------------------------------------------------------- one decrement each

  /** A process has subtracted its size once if it got that far, and not otherwise. */
  ghost predicate OncePerProcess(s: State) {
    && (forall i: nat :: i < |s.processes| ==>
          s.subtracted[i] == if s.processes[i].phase.BytesPending? || s.processes[i].phase.Closed? then 1 else 0)
    && (forall i: nat :: i >= |s.processes| ==> s.subtracted[i] == 0)
  }

  lemma StepKeepsOnce(s: State, a: Action)
    requires OncePerProcess(s)
    ensures OncePerProcess(Step(s, a))
  {
  }

  /** However often and from wherever a body is closed, its size is subtracted at most once, and exactly
      once when closing is done. */
  lemma {:induction false} SubtractedOnce(actions: seq<Action>)
    ensures OncePerProcess(Run(INITIAL, actions))
  {
    if actions != [] {
      SubtractedOnce(actions[..|actions| - 1]);
      StepKeepsOnce(Run(INITIAL, actions[..|actions| - 1]), actions[|actions| - 1]);
    }
  }

  // ---------------------------------------------------------------- what a sweep costs

  ghost predicate DiskExact(s: State) {
    s.files == OpenCount(s.processes, Disk) && s.diskBytes == OpenBytes(s.processes, Disk)
  }

  /** A sweep of one file with nothing in between; further steps of a finished sweep do nothing. */
  function AfterSweep(s: State, size: nat): State {
    var i := |s.processes|;
    Step(Step(Step(Step(Step(s, Create(Sweep, size)), Advance(i)), Advance(i)), Advance(i)), Advance(i))
  }

  function Floored(n: int): int {
    if n < 0 then 0 else n
  }

  lemma CountSwept(s: State, i: nat)
    requires i < |s.processes| && s.processes[i].kind == Sweep && s.processes[i].phase == Claimed
    ensures var t := Step(s, Advance(i));
            var u := if t.processes[i].phase == CountPending then Step(t, Advance(i)) else t;
            u == s.(processes := s.processes[i := s.processes[i].(phase := CountDone)], files := Floored(s.files - 1))
  {
  }

  lemma BytesSwept(s: State, i: nat)
    requires i < |s.processes| && s.processes[i].kind == Sweep && s.processes[i].phase == CountDone
    ensures var t := Step(s, Advance(i));
            var u := if t.processes[i].phase == BytesPending then Step(t, Advance(i)) else t;
            && u.processes == s.processes[i := s.processes[i].(phase := Closed)]
            && u.files == s.files && u.diskBytes == Floored(s.diskBytes - s.processes[i].size)
            && Step(u, Advance(i)) == u
  {
  }

  lemma SweepResult(s: State, size: nat)
    ensures var t := AfterSweep(s, size);
            && t.processes == s.processes + [Process(Sweep, size, Closed)]
            && t.files == Floored(s.files - 1) && t.diskBytes == Floored(s.diskBytes - size)
  {
    var i, s1 := |s.processes|, Step(s, Create(Sweep, size));
    var s2 := Step(s1, Advance(i));
    CountSwept(s1, i);
    var counted := if s2.processes[i].phase == CountPending then Step(s2, Advance(i)) else s2;
    BytesSwept(counted, i);
  }

  /** From exact counters, a sweep leaves them exact exactly when no body was counted in and, unless the
      file was empty, no bytes were: a sweep never makes up for anything. */
  lemma SweepKeepsExactIff(s: State, size: nat)
    requires DiskExact(s)
    ensures DiskExact(AfterSweep(s, size)) <==>
            OpenCount(s.processes, Disk) == 0 && (size == 0 || OpenBytes(s.processes, Disk) == 0)
  {
    SweepResult(s, size);
    OpenAppend(s.processes, Process(Sweep, size, Closed), Disk);
  }

  // ---- a swept body that is still open

  lemma {:induction false} RunAppend(s: State, a: seq<Action>, b: seq<Action>)
    ensures Run(s, a + b) == Run(Run(s, a), b)
  {
    if b == [] {
      assert a + b == a;
    } else {
      RunAppend(s, a, b[..|b| - 1]);
      assert (a + b)[..|a + b| - 1] == a + b[..|b| - 1];
    }
  }

  lemma RunThree(s: State, a: Action, b: Action, c: Action)
    ensures Run(s, [a, b, c]) == Step(Step(Step(s, a), b), c)
  {
    assert [a, b, c][..2] == [a, b] && [a, b][..1] == [a] && [a][..0] == [];
    assert Run(s, [a]) == Step(Run(s, [a][..0]), a);
    assert Run(s, [a, b]) == Step(Run(s, [a, b][..1]), b);
  }

  /** Creates the body with the next index and counts it in. */
  function Opens(i: nat, size: nat): seq<Action> {
    [Create(Disk, size), Advance(i), Advance(i)]
  }

  lemma TwoBodiesOpen(size: nat)
    ensures var open := Process(Disk, size, Open);
            Run(INITIAL, Opens(0, size) + Opens(1, size)) == State([open, open], 2, 2 * size, 0, 0, multiset{})
  {
    RunAppend(INITIAL, Opens(0, size), Opens(1, size));
    RunThree(INITIAL, Create(Disk, size), Advance(0), Advance(0));
    var open := Process(Disk, size, Open);
    var one := Run(INITIAL, Opens(0, size));
    assert one == State([open], 1, size, 0, 0, multiset{});
    RunThree(one, Create(Disk, size), Advance(1), Advance(1));
    assert Step(one, Create(Disk, size)).processes == [open, Process(Disk, size, New)];
  }

  lemma SweepsAndCloses(size: nat)
    requires size > 0
    ensures var open, swept := Process(Disk, size, Open), Process(Sweep, size, Closed);
            var s := State([open, open], 2, 2 * size, 0, 0, multiset{});
            var t := Run(Run(s, [Create(Sweep, size), Advance(2), Advance(2)]), [Close(0), Advance(0), Advance(0)]);
            t.processes == [open.(phase := Closed), open, swept] && t.diskBytes == 0
  {
    var open := Process(Disk, size, Open);
    var s := State([open, open], 2, 2 * size, 0, 0, multiset{});
    RunThree(s, Create(Sweep, size), Advance(2), Advance(2));
    var t := Run(s, [Create(Sweep, size), Advance(2), Advance(2)]);
    assert t.processes == [open, open, Process(Sweep, size, Closed)] && t.files == 1 && t.diskBytes == size;
    RunThree(t, Close(0), Advance(0), Advance(0));
  }

  /** A run in which two bodies of one size are opened, the file of the first is swept, and the first is
      closed: its size is subtracted twice, and the usage reads zero while the second body is open. */
  lemma SweptBodyIsSubtractedTwice(size: nat)
    requires size > 0
    ensures var opening := Opens(0, size) + Opens(1, size);
            var sweeping := [Create(Sweep, size), Advance(2), Advance(2)];
            var t := Run(INITIAL, opening + sweeping + [Close(0), Advance(0), Advance(0)]);
            && |t.processes| == 3 && t.processes[1] == Process(Disk, size, Open)
            && t.diskBytes == 0 && OpenBytes(t.processes, Disk) == size
  {
    var opening := Opens(0, size) + Opens(1, size);
    var sweeping := [Create(Sweep, size), Advance(2), Advance(2)];
    var closing := [Close(0), Advance(0), Advance(0)];
    RunAppend(INITIAL, opening + sweeping, closing);
    RunAppend(INITIAL, opening, sweeping);
    TwoBodiesOpen(size);
    SweepsAndCloses(size);
    var open, swept := Process(Disk, size, Open), Process(Sweep, size, Closed);
    var closed := open.(phase := Closed);
    OpenAppend([], closed, Disk);
    OpenAppend([closed], open, Disk);
    OpenAppend([closed, open], swept, Disk);
    assert [] + [closed] == [closed] && [closed] + [open] == [closed, open];
    assert [closed, open] + [swept] == [closed, open, swept];
  }
}
