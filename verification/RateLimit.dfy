/** The in-memory sliding-window rate limiter: counted buckets against a plain log of admitted times. */
module RateLimit {
  import opened Wrappers

  datatype Bucket = Bucket(timestamp: int, count: int)

  datatype Window = Window(buckets: seq<Bucket>, total: int)

  datatype Policy = Policy(maxRequests: int, duration: int) {
    /** Anything else fails closed. */
    predicate Enabled() {
      maxRequests > 0 && duration > 0
    }
  }

  type Store = map<string, Window>

  // ---------------------------------------------------------------- the bucketed limiter as functions

  function Sum(buckets: seq<Bucket>): int {
    if buckets == [] then 0 else buckets[0].count + Sum(buckets[1..])
  }

  /** The number of leading buckets that have left the window. */
  function Expired(buckets: seq<Bucket>, now: int, duration: int): (n: nat)
    ensures n <= |buckets|
  {
    if buckets != [] && now - buckets[0].timestamp >= duration then 1 + Expired(buckets[1..], now, duration) else 0
  }

  function Slide(w: Window, now: int, duration: int): Window {
    var n := Expired(w.buckets, now, duration);
    Window(w.buckets[n..], w.total - Sum(w.buckets[..n]))
  }

  function Admit(w: Window, now: int): Window {
    var last := |w.buckets| - 1;
    if last >= 0 && w.buckets[last].timestamp == now
    then Window(w.buckets[last := Bucket(now, w.buckets[last].count + 1)], w.total + 1)
    else Window(w.buckets + [Bucket(now, 1)], w.total + 1)
  }

  /** One request on a valid policy: the new window and the decision. */
  function Decide(w: Option<Window>, p: Policy, now: int): (Window, bool) {
    if w.None? then (Window([Bucket(now, 1)], 1), true)
    else
      var slid := Slide(w.value, now, p.duration);
      if slid.total >= p.maxRequests then (slid, false) else (Admit(slid, now), true)
  }

  function Find(store: Store, key: string): Option<Window> {
    if key in store then Some(store[key]) else None
  }

  function RequestStep(store: Store, key: string, p: Policy, now: int): (Store, bool) {
    if !p.Enabled() then (store, false)
    else
      var decision := Decide(Find(store, key), p, now);
      (store[key := decision.0], decision.1)
  }

  predicate Stale(w: Window, now: int, expiration: int) {
    w.buckets == [] || now - w.buckets[|w.buckets| - 1].timestamp > expiration
  }

  function CleanupStep(store: Store, now: int, expiration: int): Store {
    map key | key in store && !Stale(store[key], now, expiration) :: store[key]
  }

  // ---------------------------------------------------------------- the limiter itself

  class InMemoryRateLimiter {
    var store: Store
    const expiration: int

    constructor (expiration: int)
      ensures store == map[] && this.expiration == expiration
    {
      store := map[];
      this.expiration := expiration;
    }

    static method DropExpired(window: Window, now: int, duration: int) returns (slid: Window)
      ensures slid == Slide(window, now, duration)
    {
      var firstActive, total := 0, window.total;
      while firstActive < |window.buckets| && now - window.buckets[firstActive].timestamp >= duration
        invariant 0 <= firstActive <= |window.buckets|
        invariant total == window.total - Sum(window.buckets[..firstActive])
        invariant Expired(window.buckets, now, duration) ==
                  firstActive + Expired(window.buckets[firstActive..], now, duration)
      {
        SumAppend(window.buckets[..firstActive], window.buckets[firstActive]);
        assert window.buckets[..firstActive + 1] == window.buckets[..firstActive] + [window.buckets[firstActive]];
        total := total - window.buckets[firstActive].count;
        firstActive := firstActive + 1;
      }
      slid := Window(window.buckets[firstActive..], total);
    }

    method Request(key: string, p: Policy, now: int) returns (admitted: bool)
      modifies this
      ensures (store, admitted) == RequestStep(old(store), key, p, now)
    {
      if p.maxRequests <= 0 || p.duration <= 0 {
        return false;
      }
      if key !in store {
        store := store[key := Window([Bucket(now, 1)], 1)];
        return true;
      }
      var window := DropExpired(store[key], now, p.duration);
      if window.total >= p.maxRequests {
        store := store[key := window];
        return false;
      }
      var last := |window.buckets| - 1;
      if last >= 0 && window.buckets[last].timestamp == now {
        window := window.(buckets := window.buckets[last := Bucket(now, window.buckets[last].count + 1)]);
      } else {
        window := window.(buckets := window.buckets + [Bucket(now, 1)]);
      }
      store := store[key := window.(total := window.total + 1)];
      return true;
    }

    /** One round of `clearExpiredItems`. */
    method ClearExpiredItems(now: int)
      modifies this
      ensures store == CleanupStep(old(store), now, expiration)
    {
      var keys := store.Keys;
      var left := keys;
      while left != {}
        invariant left <= keys == old(store).Keys
        invariant forall key :: key in store <==>
                    key in keys && (key in left || !Stale(old(store)[key], now, expiration))
        invariant forall key :: key in store ==> store[key] == old(store)[key]
        decreases left
      {
        var key :| key in left;
        var window := store[key];
        var size := |window.buckets|;
        if size == 0 || now - window.buckets[size - 1].timestamp > expiration {
          store := store - {key};
        }
        left := left - {key};
      }
    }
  }

  lemma {:induction false} SumAppend(buckets: seq<Bucket>, b: Bucket)
    ensures Sum(buckets + [b]) == Sum(buckets) + b.count
  {
    if buckets == [] {
      assert buckets + [b] == [b];
      assert Sum([b]) == b.count + Sum([b][1..]);
    } else {
      SumAppend(buckets[1..], b);
      assert (buckets + [b])[1..] == buckets[1..] + [b];
    }
  }

  // ---------------------------------------------------------------- the plain log

  /** How many logged times are still inside the window. */
  function Active(log: seq<int>, now: int, duration: int): nat {
    if log == [] then 0 else (if now - log[0] < duration then 1 else 0) + Active(log[1..], now, duration)
  }

  type Logs = map<string, seq<int>>

  function LogOf(logs: Logs, key: string): seq<int> {
    if key in logs then logs[key] else []
  }

  predicate NaiveDecision(log: seq<int>, p: Policy, now: int) {
    p.Enabled() && Active(log, now, p.duration) < p.maxRequests
  }

  function NaiveStep(logs: Logs, key: string, p: Policy, now: int): (Logs, bool) {
    if NaiveDecision(LogOf(logs, key), p, now) then (logs[key := LogOf(logs, key) + [now]], true) else (logs, false)
  }

  // ---------------------------------------------------------------- runs

  datatype Event = Request(key: string, time: int) | Cleanup(time: int)

  type Policies = string -> Policy

  function LimiterRun(store: Store, events: seq<Event>, policies: Policies, expiration: int): (decisions: seq<bool>)
    ensures |decisions| <= |events|
    decreases |events|
  {
    if events == [] then []
    else match events[0]
      case Cleanup(now) => LimiterRun(CleanupStep(store, now, expiration), events[1..], policies, expiration)
      case Request(key, now) =>
        var (next, admitted) := RequestStep(store, key, policies(key), now);
        [admitted] + LimiterRun(next, events[1..], policies, expiration)
  }

  function NaiveRun(logs: Logs, events: seq<Event>, policies: Policies): seq<bool>
    decreases |events|
  {
    if events == [] then []
    else match events[0]
      case Cleanup(_) => NaiveRun(logs, events[1..], policies)
      case Request(key, now) =>
        var (next, admitted) := NaiveStep(logs, key, policies(key), now);
        [admitted] + NaiveRun(next, events[1..], policies)
  }

  ghost predicate InOrder(events: seq<Event>, clock: int) {
    && (forall i :: 0 <= i < |events| ==> clock <= events[i].time)
    && (forall i, j :: 0 <= i < j < |events| ==> events[i].time <= events[j].time)
  }

  // ---------------------------------------------------------------- what a window stands for

  function ActiveSum(buckets: seq<Bucket>, now: int, duration: int): int {
    if buckets == [] then 0
    else
      (if now - buckets[0].timestamp < duration then buckets[0].count else 0)
      + ActiveSum(buckets[1..], now, duration)
  }

  /** Buckets of the past, each counting something. */
  ghost predicate Past(buckets: seq<Bucket>, clock: int) {
    forall i :: 0 <= i < |buckets| ==> buckets[i].count >= 1 && buckets[i].timestamp <= clock
  }

  ghost predicate Rising(buckets: seq<Bucket>) {
    forall i, j :: 0 <= i < j < |buckets| ==> buckets[i].timestamp < buckets[j].timestamp
  }

  predicate Within(buckets: seq<Bucket>, duration: int) {
    buckets != [] ==> buckets[|buckets| - 1].timestamp - buckets[0].timestamp < duration
  }

  /** Buckets are strictly ordered in time, positive, counted by `total`, and span less than the duration. */
  ghost predicate WindowInv(w: Window, p: Policy, clock: int) {
    && Past(w.buckets, clock) && Rising(w.buckets) && Within(w.buckets, p.duration)
    && w.total == Sum(w.buckets) <= p.maxRequests
  }

  /** At every later time the window and the log count the same admissions. */
  ghost predicate Represents(w: Option<Window>, log: seq<int>, p: Policy, clock: int) {
    match w
    case None => forall now :: now >= clock ==> Active(log, now, p.duration) == 0
    case Some(w) =>
      && WindowInv(w, p, clock)
      && forall now :: now >= clock ==> Active(log, now, p.duration) == ActiveSum(w.buckets, now, p.duration)
  }

  // ---------------------------------------------------------------- counting lemmas

  lemma {:induction false} ActiveAppend(log: seq<int>, t: int, now: int, duration: int)
    ensures Active(log + [t], now, duration) == Active(log, now, duration) + (if now - t < duration then 1 else 0)
  {
    if log == [] {
      assert log + [t] == [t];
      assert Active([t], now, duration) == (if now - t < duration then 1 else 0) + Active([t][1..], now, duration);
    } else {
      ActiveAppend(log[1..], t, now, duration);
      assert (log + [t])[1..] == log[1..] + [t];
    }
  }

  lemma {:induction false} ActiveSumAppend(buckets: seq<Bucket>, b: Bucket, now: int, duration: int)
    ensures ActiveSum(buckets + [b], now, duration)
            == ActiveSum(buckets, now, duration) + (if now - b.timestamp < duration then b.count else 0)
  {
    if buckets == [] {
      assert buckets + [b] == [b];
      assert [b][1..] == [] && ActiveSum([b][1..], now, duration) == 0;
    } else {
      ActiveSumAppend(buckets[1..], b, now, duration);
      assert (buckets + [b])[1..] == buckets[1..] + [b];
    }
  }

  /** Dropping the expired prefix keeps the order, removes only inactive buckets and leaves active ones. */
  lemma {:induction false} ExpiredPrefix(buckets: seq<Bucket>, now: int, duration: int)
    requires Rising(buckets)
    ensures var n := Expired(buckets, now, duration);
            && (forall i :: 0 <= i < n ==> now - buckets[i].timestamp >= duration)
            && (forall i :: n <= i < |buckets| ==> now - buckets[i].timestamp < duration)
  {
    if buckets != [] && now - buckets[0].timestamp >= duration {
      ExpiredPrefix(buckets[1..], now, duration);
      assert forall i :: 1 <= i < |buckets| ==> buckets[i] == buckets[1..][i - 1];
    } else if buckets != [] {
      assert forall i :: 1 <= i < |buckets| ==> buckets[0].timestamp < buckets[i].timestamp;
    }
  }

  lemma {:induction false} DropInactive(buckets: seq<Bucket>, n: nat, now: int, duration: int)
    requires n <= |buckets|
    requires forall i :: 0 <= i < n ==> now - buckets[i].timestamp >= duration
    ensures ActiveSum(buckets, now, duration) == ActiveSum(buckets[n..], now, duration)
    ensures Sum(buckets) == Sum(buckets[..n]) + Sum(buckets[n..])
  {
    if n == 0 {
      assert buckets[0..] == buckets;
    } else {
      DropInactive(buckets[1..], n - 1, now, duration);
      assert buckets[1..][n - 1..] == buckets[n..];
      assert buckets[..n][1..] == buckets[1..][..n - 1];
    }
  }

  lemma {:induction false} AllActive(buckets: seq<Bucket>, now: int, duration: int)
    requires forall i :: 0 <= i < |buckets| ==> now - buckets[i].timestamp < duration
    ensures ActiveSum(buckets, now, duration) == Sum(buckets)
  {
    if buckets != [] {
      AllActive(buckets[1..], now, duration);
    }
  }

  lemma {:induction false} AllInactive(buckets: seq<Bucket>, now: int, duration: int)
    requires forall i :: 0 <= i < |buckets| ==> now - buckets[i].timestamp >= duration
    ensures ActiveSum(buckets, now, duration) == 0
  {
    if buckets != [] {
      AllInactive(buckets[1..], now, duration);
    }
  }

  // ---------------------------------------------------------------- one step keeps the representation

  /** Sliding the window to `now` leaves exactly the active buckets, still in order. */
  lemma SlideKeepsOrder(w: Window, p: Policy, clock: int, now: int)
    requires WindowInv(w, p, clock) && clock <= now && p.Enabled()
    ensures var slid := Slide(w, now, p.duration);
            && WindowInv(slid, p, now)
            && slid.total == ActiveSum(w.buckets, now, p.duration)
            && forall b :: b in slid.buckets ==> now - b.timestamp < p.duration
  {
    var n := Expired(w.buckets, now, p.duration);
    ExpiredPrefix(w.buckets, now, p.duration);
    DropInactive(w.buckets, n, now, p.duration);
    AllActive(w.buckets[n..], now, p.duration);
    DropKeepsInv(w, p, clock, now, n);
  }

  lemma DropKeepsPast(buckets: seq<Bucket>, clock: int, now: int, n: nat)
    requires Past(buckets, clock) && clock <= now && n <= |buckets|
    ensures Past(buckets[n..], now)
  {
    assert forall i :: 0 <= i < |buckets| - n ==> buckets[n..][i] == buckets[n + i];
  }

  lemma DropKeepsRising(buckets: seq<Bucket>, n: nat)
    requires Rising(buckets) && n <= |buckets|
    ensures Rising(buckets[n..])
  {
    assert forall i :: 0 <= i < |buckets| - n ==> buckets[n..][i] == buckets[n + i];
  }

  lemma DropKeepsWithin(buckets: seq<Bucket>, duration: int, n: nat)
    requires Rising(buckets) && Within(buckets, duration) && n <= |buckets|
    ensures Within(buckets[n..], duration)
  {
    if 0 < n < |buckets| {
      assert buckets[n..][0] == buckets[n] && buckets[n..][|buckets| - n - 1] == buckets[|buckets| - 1];
      assert buckets[0].timestamp < buckets[n].timestamp;
    } else if n == 0 {
      assert buckets[0..] == buckets;
    }
  }

  /** Dropping a prefix keeps the invariant. */
  lemma DropKeepsInv(w: Window, p: Policy, clock: int, now: int, n: nat)
    requires WindowInv(w, p, clock) && clock <= now && n <= |w.buckets|
    requires Sum(w.buckets) == Sum(w.buckets[..n]) + Sum(w.buckets[n..])
    ensures WindowInv(Window(w.buckets[n..], w.total - Sum(w.buckets[..n])), p, now)
  {
    assert forall i :: 0 <= i < n ==> w.buckets[..n][i] == w.buckets[i];
    NonNegative(w.buckets[..n]);
    DropKeepsPast(w.buckets, clock, now, n);
    DropKeepsRising(w.buckets, n);
    DropKeepsWithin(w.buckets, p.duration, n);
  }

  lemma SlideKeepsSums(w: Window, p: Policy, clock: int, now: int, later: int)
    requires WindowInv(w, p, clock) && now <= later
    ensures ActiveSum(w.buckets, later, p.duration) == ActiveSum(Slide(w, now, p.duration).buckets, later, p.duration)
  {
    ExpiredPrefix(w.buckets, now, p.duration);
    DropInactive(w.buckets, Expired(w.buckets, now, p.duration), later, p.duration);
  }

  lemma SlideRepresents(w: Window, log: seq<int>, p: Policy, clock: int, now: int)
    requires Represents(Some(w), log, p, clock) && clock <= now && p.Enabled()
    ensures Represents(Some(Slide(w, now, p.duration)), log, p, now)
    ensures Slide(w, now, p.duration).total == Active(log, now, p.duration)
  {
    SlideKeepsOrder(w, p, clock, now);
    forall later | later >= now
      ensures Active(log, later, p.duration) == ActiveSum(Slide(w, now, p.duration).buckets, later, p.duration)
    {
      SlideKeepsSums(w, p, clock, now, later);
    }
  }

  lemma {:induction false} NonNegative(buckets: seq<Bucket>)
    requires forall i :: 0 <= i < |buckets| ==> buckets[i].count >= 1
    ensures Sum(buckets) >= |buckets|
  {
    if buckets != [] {
      NonNegative(buckets[1..]);
    }
  }

  lemma ReplaceNewest(front: seq<Bucket>, newest: Bucket, b: Bucket, clock: int)
    requires Past(front + [newest], clock) && Rising(front + [newest])
    requires b.timestamp == newest.timestamp && b.count >= 1
    ensures Past(front + [b], clock) && Rising(front + [b])
  {
    var before, after := front + [newest], front + [b];
    assert forall i :: 0 <= i < |after| ==>
                         after[i].timestamp == before[i].timestamp && (after[i] == b || after[i] == before[i]);
  }

  /** A request in the second of the newest bucket joins it. */
  lemma JoinKeepsInv(w: Window, p: Policy, now: int)
    requires WindowInv(w, p, now) && w.total < p.maxRequests
    requires w.buckets != [] && w.buckets[|w.buckets| - 1].timestamp == now
    ensures WindowInv(Admit(w, now), p, now)
  {
    var last := |w.buckets| - 1;
    var front, newest, b := w.buckets[..last], w.buckets[last], Bucket(now, w.buckets[last].count + 1);
    assert w.buckets == front + [newest] && Admit(w, now).buckets == front + [b];
    ReplaceNewest(front, newest, b, now);
    SumAppend(front, newest);
    SumAppend(front, b);
  }

  /** Any other request opens a bucket of its own. */
  lemma OpenKeepsInv(w: Window, p: Policy, now: int)
    requires WindowInv(w, p, now) && w.total < p.maxRequests && p.Enabled()
    requires w.buckets != [] ==>
               w.buckets[|w.buckets| - 1].timestamp != now && now - w.buckets[0].timestamp < p.duration
    ensures WindowInv(Admit(w, now), p, now)
  {
    SumAppend(w.buckets, Bucket(now, 1));
  }

  lemma AdmitKeepsInv(w: Window, p: Policy, now: int)
    requires WindowInv(w, p, now) && w.total < p.maxRequests && p.Enabled()
    requires forall b :: b in w.buckets ==> now - b.timestamp < p.duration
    ensures WindowInv(Admit(w, now), p, now)
  {
    if w.buckets != [] {
      assert w.buckets[0] in w.buckets;
    }
    if w.buckets != [] && w.buckets[|w.buckets| - 1].timestamp == now {
      JoinKeepsInv(w, p, now);
    } else {
      OpenKeepsInv(w, p, now);
    }
  }

  /** At any later time the admitted request counts for one while it is active. */
  lemma AdmitCounts(w: Window, now: int, later: int, duration: int)
    ensures ActiveSum(Admit(w, now).buckets, later, duration)
            == ActiveSum(w.buckets, later, duration) + (if later - now < duration then 1 else 0)
  {
    var last := |w.buckets| - 1;
    if last >= 0 && w.buckets[last].timestamp == now {
      var front, newest, b := w.buckets[..last], w.buckets[last], Bucket(now, w.buckets[last].count + 1);
      assert w.buckets == front + [newest] && Admit(w, now).buckets == front + [b];
      ActiveSumAppend(front, newest, later, duration);
      ActiveSumAppend(front, b, later, duration);
    } else {
      ActiveSumAppend(w.buckets, Bucket(now, 1), later, duration);
    }
  }

  lemma AdmitRepresents(w: Window, log: seq<int>, p: Policy, now: int)
    requires Represents(Some(w), log, p, now) && w.total < p.maxRequests && p.Enabled()
    requires forall b :: b in w.buckets ==> now - b.timestamp < p.duration
    ensures Represents(Some(Admit(w, now)), log + [now], p, now)
  {
    AdmitKeepsInv(w, p, now);
    forall later | later >= now
      ensures Active(log + [now], later, p.duration) == ActiveSum(Admit(w, now).buckets, later, p.duration)
    {
      ActiveAppend(log, now, later, p.duration);
      AdmitCounts(w, now, later, p.duration);
    }
  }

  /** A request on represented state decides like the log and keeps representing it. */
  lemma DecideRefines(w: Option<Window>, log: seq<int>, p: Policy, clock: int, now: int)
    requires Represents(w, log, p, clock) && clock <= now && p.Enabled()
    ensures var (next, admitted) := Decide(w, p, now);
            && admitted == NaiveDecision(log, p, now)
            && Represents(Some(next), if admitted then log + [now] else log, p, now)
  {
    match w
    case None =>
      EmptyRepresents(log, p, now);
      AdmitRepresents(Window([], 0), log, p, now);
      assert Admit(Window([], 0), now) == Window([Bucket(now, 1)], 1);
    case Some(w) =>
      SlideRepresents(w, log, p, clock, now);
      SlideKeepsOrder(w, p, clock, now);
      if Slide(w, now, p.duration).total < p.maxRequests {
        AdmitRepresents(Slide(w, now, p.duration), log, p, now);
      }
  }

  lemma EmptyRepresents(log: seq<int>, p: Policy, now: int)
    requires Represents(None, log, p, now) && p.Enabled()
    ensures Represents(Some(Window([], 0)), log, p, now)
  {
  }

  /** Time alone, and a cleanup that only forgets what no longer counts, keep the representation. */
  lemma RepresentsLater(w: Option<Window>, log: seq<int>, p: Policy, clock: int, now: int)
    requires Represents(w, log, p, clock) && clock <= now
    ensures Represents(w, log, p, now)
  {
  }

  lemma ForgetStale(w: Window, log: seq<int>, p: Policy, now: int, expiration: int)
    requires Represents(Some(w), log, p, now) && Stale(w, now, expiration) && p.duration <= expiration + 1
    ensures Represents(None, log, p, now)
  {
    forall later | later >= now
      ensures Active(log, later, p.duration) == 0
    {
      AllInactive(w.buckets, later, p.duration);
    }
  }

  // ---------------------------------------------------------------- whole runs

  /** The window and the log of one key. */
  ghost predicate KeyRepresents(store: Store, logs: Logs, p: Policy, clock: int, key: string) {
    Represents(Find(store, key), LogOf(logs, key), p, clock)
  }

  /** A request of any key decides like the log if it is this one, and keeps this key represented. */
  lemma RequestKeepsKey(store: Store, logs: Logs, policies: Policies, clock: int, k: string, now: int, key: string)
    requires KeyRepresents(store, logs, policies(key), clock, key) && clock <= now
    ensures var step, naive := RequestStep(store, k, policies(k), now), NaiveStep(logs, k, policies(k), now);
            && (k == key ==> step.1 == naive.1)
            && KeyRepresents(step.0, naive.0, policies(key), now, key)
  {
    RepresentsLater(Find(store, key), LogOf(logs, key), policies(key), clock, now);
    if k == key && policies(key).Enabled() {
      DecideRefines(Find(store, key), LogOf(logs, key), policies(key), clock, now);
    }
  }

  lemma CleanupKeepsKey(store: Store, logs: Logs, p: Policy, clock: int, now: int, expiration: int, key: string)
    requires KeyRepresents(store, logs, p, clock, key) && clock <= now && p.duration <= expiration + 1
    ensures KeyRepresents(CleanupStep(store, now, expiration), logs, p, now, key)
  {
    RepresentsLater(Find(store, key), LogOf(logs, key), p, clock, now);
    if key in store && Stale(store[key], now, expiration) {
      ForgetStale(store[key], LogOf(logs, key), p, now, expiration);
    }
  }

  /** The decisions of a run on the requests of one key. */
  function DecisionsOf(events: seq<Event>, decisions: seq<bool>, key: string): seq<bool>
    decreases |events|
  {
    if events == [] || decisions == [] then []
    else if events[0].Cleanup? then DecisionsOf(events[1..], decisions, key)
    else (if events[0].key == key then [decisions[0]] else []) + DecisionsOf(events[1..], decisions[1..], key)
  }

  /** The times at which a run admits a key. */
  function Admissions(events: seq<Event>, decisions: seq<bool>, key: string): seq<int>
    decreases |events|
  {
    if events == [] || decisions == [] then []
    else if events[0].Cleanup? then Admissions(events[1..], decisions, key)
    else
      (if decisions[0] && events[0].key == key then [events[0].time] else [])
      + Admissions(events[1..], decisions[1..], key)
  }

  /** Two runs agree on the requests of one key. */
  ghost predicate Agree(events: seq<Event>, a: seq<bool>, b: seq<bool>, key: string) {
    && DecisionsOf(events, a, key) == DecisionsOf(events, b, key)
    && Admissions(events, a, key) == Admissions(events, b, key)
  }

  lemma AgreeOnRequest(events: seq<Event>, x: bool, a: seq<bool>, y: bool, b: seq<bool>, key: string)
    requires events != [] && events[0].Request? && Agree(events[1..], a, b, key) && (events[0].key == key ==> x == y)
    ensures Agree(events, [x] + a, [y] + b, key)
  {
    assert ([x] + a)[1..] == a && ([y] + b)[1..] == b;
  }

  lemma AgreeOnCleanup(events: seq<Event>, a: seq<bool>, b: seq<bool>, key: string)
    requires events != [] && events[0].Cleanup? && Agree(events[1..], a, b, key)
    ensures Agree(events, a, b, key)
  {
    assert DecisionsOf(events[1..], [], key) == [] && Admissions(events[1..], [], key) == [];
  }

  lemma {:induction false} RunRefinesFrom(store: Store, logs: Logs, events: seq<Event>, policies: Policies, clock: int,
                                          expiration: int, key: string)
    requires KeyRepresents(store, logs, policies(key), clock, key) && InOrder(events, clock)
    requires (forall e :: e in events ==> e.Request?) || policies(key).duration <= expiration + 1
    ensures Agree(events, LimiterRun(store, events, policies, expiration), NaiveRun(logs, events, policies), key)
    decreases |events|
  {
    if events != [] {
      var rest, now := events[1..], events[0].time;
      assert events[0] in events;
      assert InOrder(rest, now);
      match events[0]
      case Cleanup(_) =>
        CleanupKeepsKey(store, logs, policies(key), clock, now, expiration, key);
        var next := CleanupStep(store, now, expiration);
        RunRefinesFrom(next, logs, rest, policies, now, expiration, key);
        AgreeOnCleanup(events, LimiterRun(next, rest, policies, expiration), NaiveRun(logs, rest, policies), key);
      case Request(k, _) =>
        RequestKeepsKey(store, logs, policies, clock, k, now, key);
        var step, naive := RequestStep(store, k, policies(k), now), NaiveStep(logs, k, policies(k), now);
        RunRefinesFrom(step.0, naive.0, rest, policies, now, expiration, key);
        AgreeOnRequest(events, step.1, LimiterRun(step.0, rest, policies, expiration),
                       naive.1, NaiveRun(naive.0, rest, policies), key);
    }
  }

  /** In every run of requests for any keys, with cleanups at arbitrary moments, a key whose own duration
      does not exceed the expiration by more than a second is decided like the plain log; without
      cleanups every key is. */
  lemma LimiterRefinesLog(events: seq<Event>, policies: Policies, clock: int, expiration: int, key: string)
    requires InOrder(events, clock)
    requires (forall e :: e in events ==> e.Request?) || policies(key).duration <= expiration + 1
    ensures Agree(events, LimiterRun(map[], events, policies, expiration), NaiveRun(map[], events, policies), key)
  {
    RunRefinesFrom(map[], map[], events, policies, clock, expiration, key);
  }

  /** A longer duration is not safe: a cleanup can drop a window that still counts. */
  lemma LongDurationIsForgotten(expiration: int, duration: int, key: string)
    requires expiration >= 0 && duration > expiration + 1
    ensures var events := [Request(key, 0), Cleanup(expiration + 1), Request(key, expiration + 1)];
            var policies := (_: string) => Policy(1, duration);
            && InOrder(events, 0)
            && LimiterRun(map[], events, policies, expiration) == [true, true]
            && NaiveRun(map[], events, policies) == [true, false]
  {
    var events := [Request(key, 0), Cleanup(expiration + 1), Request(key, expiration + 1)];
    var policies := (_: string) => Policy(1, duration);
    var w := Window([Bucket(0, 1)], 1);
    var store: Store := map[key := w];
    assert events[1..] == [Cleanup(expiration + 1), Request(key, expiration + 1)];
    assert events[1..][1..] == [Request(key, expiration + 1)];
    assert events[1..][1..][1..] == [];
    assert RequestStep(map[], key, Policy(1, duration), 0) == (store, true);
    assert CleanupStep(store, expiration + 1, expiration) == map[];
    assert LimiterRun(map[], events[1..][1..], policies, expiration) == [true];
    var logs: Logs := map[key := [0]];
    assert [] + [0] == [0];
    assert Active([0], expiration + 1, duration) == 1;
    assert NaiveRun(logs, events[1..][1..], policies) == [false];
  }

  // ---------------------------------------------------------------- consequences

  /** The windows a run leaves behind. */
  function StoreAfter(store: Store, events: seq<Event>, policies: Policies, expiration: int): Store
    decreases |events|
  {
    if events == [] then store
    else match events[0]
      case Cleanup(now) => StoreAfter(CleanupStep(store, now, expiration), events[1..], policies, expiration)
      case Request(key, now) =>
        StoreAfter(RequestStep(store, key, policies(key), now).0, events[1..], policies, expiration)
  }

  function LastTime(events: seq<Event>, clock: int): int {
    if events == [] then clock else events[|events| - 1].time
  }

  ghost predicate StoreInv(store: Store, policies: Policies, clock: int) {
    forall key :: key in store ==> policies(key).Enabled() && WindowInv(store[key], policies(key), clock)
  }

  lemma InvLater(w: Window, p: Policy, clock: int, now: int)
    requires WindowInv(w, p, clock) && clock <= now
    ensures WindowInv(w, p, now)
  {
  }

  lemma DecideKeepsInv(w: Option<Window>, p: Policy, clock: int, now: int)
    requires p.Enabled() && clock <= now && (w.Some? ==> WindowInv(w.value, p, clock))
    ensures WindowInv(Decide(w, p, now).0, p, now)
  {
    if w.None? {
      assert Sum([Bucket(now, 1)][1..]) == 0;
    } else {
      SlideKeepsOrder(w.value, p, clock, now);
      if Slide(w.value, now, p.duration).total < p.maxRequests {
        AdmitKeepsInv(Slide(w.value, now, p.duration), p, now);
      }
    }
  }

  lemma StepKeepsStoreInv(store: Store, e: Event, policies: Policies, clock: int, expiration: int)
    requires StoreInv(store, policies, clock) && clock <= e.time
    ensures match e
            case Cleanup(now) => StoreInv(CleanupStep(store, now, expiration), policies, now)
            case Request(key, now) => StoreInv(RequestStep(store, key, policies(key), now).0, policies, now)
  {
    forall key | key in store
      ensures WindowInv(store[key], policies(key), e.time)
    {
      InvLater(store[key], policies(key), clock, e.time);
    }
    if e.Request? && policies(e.key).Enabled() {
      DecideKeepsInv(Find(store, e.key), policies(e.key), clock, e.time);
    }
  }

  lemma {:induction false} RunKeepsStoreInv(store: Store, events: seq<Event>, policies: Policies, clock: int,
                                            expiration: int)
    requires StoreInv(store, policies, clock) && InOrder(events, clock)
    ensures StoreInv(StoreAfter(store, events, policies, expiration), policies, LastTime(events, clock))
    decreases |events|
  {
    if events != [] {
      var rest, now := events[1..], events[0].time;
      StepKeepsStoreInv(store, events[0], policies, clock, expiration);
      assert InOrder(rest, now);
      match events[0]
      case Cleanup(_) => RunKeepsStoreInv(CleanupStep(store, now, expiration), rest, policies, now, expiration);
      case Request(key, _) =>
        RunKeepsStoreInv(RequestStep(store, key, policies(key), now).0, rest, policies, now, expiration);
    }
  }

  /** After every run, whatever the durations, each window has its buckets strictly ordered in time, a total
      that is the sum of their counts, and at most min(duration, limit) of them. */
  lemma WindowsStaySmall(events: seq<Event>, policies: Policies, clock: int, expiration: int, key: string)
    requires InOrder(events, clock) && key in StoreAfter(map[], events, policies, expiration)
    ensures var w, p := StoreAfter(map[], events, policies, expiration)[key], policies(key);
            && Rising(w.buckets) && w.total == Sum(w.buckets) <= p.maxRequests
            && |w.buckets| <= p.duration && |w.buckets| <= p.maxRequests
  {
    RunKeepsStoreInv(map[], events, policies, clock, expiration);
    WindowIsSmall(StoreAfter(map[], events, policies, expiration)[key], policies(key), LastTime(events, clock));
  }

  /** A window that keeps the invariant holds at most min(duration, limit) buckets. */
  lemma WindowIsSmall(w: Window, p: Policy, clock: int)
    requires WindowInv(w, p, clock) && p.Enabled()
    ensures |w.buckets| <= p.duration && |w.buckets| <= p.maxRequests
  {
    NonNegative(w.buckets);
    if w.buckets != [] {
      Spread(w.buckets, |w.buckets| - 1);
    }
  }

  lemma {:induction false} Spread(buckets: seq<Bucket>, n: nat)
    requires n < |buckets| && Rising(buckets)
    ensures buckets[n].timestamp - buckets[0].timestamp >= n
  {
    if n > 0 {
      Spread(buckets, n - 1);
    }
  }

  /** Admissions in the half-open span of `duration` seconds that starts at `a`. */
  function InSpan(log: seq<int>, a: int, duration: int): nat {
    if log == [] then 0
    else InSpan(log[..|log| - 1], a, duration) + (if a <= log[|log| - 1] < a + duration then 1 else 0)
  }

  /** The places of a log with a time in the span. */
  function SpanOf(log: seq<int>, a: int, duration: int): set<nat> {
    set i | 0 <= i < |log| && a <= log[i] < a + duration
  }

  lemma {:induction false} InSpanCounts(log: seq<int>, a: int, duration: int)
    ensures InSpan(log, a, duration) == |SpanOf(log, a, duration)|
  {
    if log == [] {
      assert SpanOf(log, a, duration) == {};
    } else {
      var last := |log| - 1;
      InSpanCounts(log[..last], a, duration);
      assert SpanOf(log, a, duration) ==
             SpanOf(log[..last], a, duration) + (if a <= log[last] < a + duration then {last} else {});
    }
  }

  ghost predicate Bounded(log: seq<int>, p: Policy) {
    && (forall i, j :: 0 <= i < j < |log| ==> log[i] <= log[j])
    && forall a :: InSpan(log, a, p.duration) <= p.maxRequests
  }

  /** In an ordered log, whatever shares a span with its newest entry is still active then. */
  lemma {:induction false} SpanIsActive(log: seq<int>, a: int, now: int, duration: int)
    requires forall i :: 0 <= i < |log| ==> log[i] <= now
    requires a <= now < a + duration
    ensures InSpan(log, a, duration) <= Active(log, now, duration)
  {
    if log != [] {
      var front, t := log[..|log| - 1], log[|log| - 1];
      SpanIsActive(front, a, now, duration);
      assert log == front + [t];
      ActiveAppend(front, t, now, duration);
    }
  }

  lemma AdmissionKeepsBound(log: seq<int>, p: Policy, now: int)
    requires Bounded(log, p) && p.Enabled() && NaiveDecision(log, p, now)
    requires forall i :: 0 <= i < |log| ==> log[i] <= now
    ensures Bounded(log + [now], p)
  {
    var next := log + [now];
    forall a
      ensures InSpan(next, a, p.duration) <= p.maxRequests
    {
      assert next[..|next| - 1] == log;
      if a <= now < a + p.duration {
        SpanIsActive(log, a, now, p.duration);
      }
    }
  }

  ghost predicate BoundedBy(log: seq<int>, p: Policy, clock: int) {
    Bounded(log, p) && forall i :: 0 <= i < |log| ==> log[i] <= clock
  }

  lemma NaiveStepLog(logs: Logs, k: string, p: Policy, now: int, key: string)
    ensures LogOf(NaiveStep(logs, k, p, now).0, key)
            == if NaiveStep(logs, k, p, now).1 && k == key then LogOf(logs, key) + [now] else LogOf(logs, key)
  {
  }

  lemma NaiveStepKeepsBound(logs: Logs, k: string, policies: Policies, clock: int, now: int, key: string)
    requires policies(key).Enabled() && BoundedBy(LogOf(logs, key), policies(key), clock) && clock <= now
    ensures BoundedBy(LogOf(NaiveStep(logs, k, policies(k), now).0, key), policies(key), now)
  {
    var log := LogOf(logs, key);
    NaiveStepLog(logs, k, policies(k), now, key);
    if NaiveStep(logs, k, policies(k), now).1 && k == key {
      AdmissionKeepsBound(log, policies(key), now);
    }
  }

  /** The log after a naive run is the log before it followed by the run's admissions. */
  lemma {:induction false} NaiveRunIsBounded(logs: Logs, events: seq<Event>, policies: Policies, clock: int,
                                             key: string)
    requires InOrder(events, clock) && policies(key).Enabled() && BoundedBy(LogOf(logs, key), policies(key), clock)
    ensures Bounded(LogOf(logs, key) + Admissions(events, NaiveRun(logs, events, policies), key), policies(key))
    decreases |events|
  {
    var log := LogOf(logs, key);
    if events == [] {
      assert log + [] == log;
    } else {
      var rest, now := events[1..], events[0].time;
      assert InOrder(rest, now);
      if events[0].Cleanup? {
        NaiveRunIsBounded(logs, rest, policies, now, key);
      } else {
        var k := events[0].key;
        var next := NaiveStep(logs, k, policies(k), now).0;
        NaiveStepKeepsBound(logs, k, policies, clock, now, key);
        NaiveRunIsBounded(next, rest, policies, now, key);
        AdmissionsStep(logs, events, policies, key);
      }
    }
  }

  lemma AdmissionsCons(events: seq<Event>, admitted: bool, later: seq<bool>, key: string)
    requires events != [] && events[0].Request?
    ensures Admissions(events, [admitted] + later, key)
            == (if admitted && events[0].key == key then [events[0].time] else []) + Admissions(events[1..], later, key)
  {
    assert ([admitted] + later)[1..] == later;
  }

  lemma NaiveRunStep(logs: Logs, events: seq<Event>, policies: Policies)
    requires events != [] && events[0].Request?
    ensures var step := NaiveStep(logs, events[0].key, policies(events[0].key), events[0].time);
            NaiveRun(logs, events, policies) == [step.1] + NaiveRun(step.0, events[1..], policies)
  {
  }

  lemma Regroup(a: seq<int>, b: seq<int>, c: seq<int>)
    ensures a + (b + c) == (a + b) + c
  {
  }

  lemma AdmissionsStep(logs: Logs, events: seq<Event>, policies: Policies, key: string)
    requires events != [] && events[0].Request?
    ensures var next := NaiveStep(logs, events[0].key, policies(events[0].key), events[0].time).0;
            LogOf(logs, key) + Admissions(events, NaiveRun(logs, events, policies), key)
            == LogOf(next, key) + Admissions(events[1..], NaiveRun(next, events[1..], policies), key)
  {
    var k, now := events[0].key, events[0].time;
    var step := NaiveStep(logs, k, policies(k), now);
    var later := NaiveRun(step.0, events[1..], policies);
    var added := if step.1 && k == key then [now] else [];
    NaiveRunStep(logs, events, policies);
    AdmissionsCons(events, step.1, later, key);
    NaiveStepLog(logs, k, policies(k), now, key);
    assert LogOf(step.0, key) == LogOf(logs, key) + added;
    Regroup(LogOf(logs, key), added, Admissions(events[1..], later, key));
  }

  /** No span of `duration` seconds ever holds more than the configured number of admissions. */
  lemma LimiterBoundsEverySpan(events: seq<Event>, policies: Policies, clock: int, expiration: int, key: string, a: int)
    requires InOrder(events, clock) && policies(key).Enabled()
    requires (forall e :: e in events ==> e.Request?) || policies(key).duration <= expiration + 1
    ensures var log := Admissions(events, LimiterRun(map[], events, policies, expiration), key);
            |SpanOf(log, a, policies(key).duration)| <= policies(key).maxRequests
  {
    LimiterRefinesLog(events, policies, clock, expiration, key);
    NaiveRunIsBounded(map[], events, policies, clock, key);
    var admissions := Admissions(events, NaiveRun(map[], events, policies), key);
    assert [] + admissions == admissions;
    InSpanCounts(admissions, a, policies(key).duration);
  }

  // ---------------------------------------------------------------- when a request is admitted

  lemma {:induction false} RunTracksKey(store: Store, logs: Logs, events: seq<Event>, policies: Policies, clock: int,
                                        expiration: int, key: string)
    requires KeyRepresents(store, logs, policies(key), clock, key) && InOrder(events, clock)
    requires (forall e :: e in events ==> e.Request?) || policies(key).duration <= expiration + 1
    ensures Represents(Find(StoreAfter(store, events, policies, expiration), key),
                       LogOf(logs, key) + Admissions(events, LimiterRun(store, events, policies, expiration), key),
                       policies(key), LastTime(events, clock))
    decreases |events|
  {
    if events == [] {
      assert LogOf(logs, key) + [] == LogOf(logs, key);
    } else {
      var rest, now := events[1..], events[0].time;
      assert events[0] in events;
      assert InOrder(rest, now);
      match events[0]
      case Cleanup(_) =>
        CleanupKeepsKey(store, logs, policies(key), clock, now, expiration, key);
        RunTracksKey(CleanupStep(store, now, expiration), logs, rest, policies, now, expiration, key);
      case Request(k, _) =>
        RequestKeepsKey(store, logs, policies, clock, k, now, key);
        var step, naive := RequestStep(store, k, policies(k), now), NaiveStep(logs, k, policies(k), now);
        RunTracksKey(step.0, naive.0, rest, policies, now, expiration, key);
        LogGrows(logs, events, policies, step.1, LimiterRun(step.0, rest, policies, expiration), key);
    }
  }

  lemma LogGrows(logs: Logs, events: seq<Event>, policies: Policies, admitted: bool, later: seq<bool>, key: string)
    requires events != [] && events[0].Request?
    requires var naive := NaiveStep(logs, events[0].key, policies(events[0].key), events[0].time);
             events[0].key == key ==> admitted == naive.1
    ensures var naive := NaiveStep(logs, events[0].key, policies(events[0].key), events[0].time);
            LogOf(naive.0, key) + Admissions(events[1..], later, key)
            == LogOf(logs, key) + Admissions(events, [admitted] + later, key)
  {
    var k, now := events[0].key, events[0].time;
    var naive := NaiveStep(logs, k, policies(k), now);
    var added := if naive.1 && k == key then [now] else [];
    AdmissionsCons(events, admitted, later, key);
    NaiveStepLog(logs, k, policies(k), now, key);
    assert LogOf(naive.0, key) == LogOf(logs, key) + added;
    Regroup(LogOf(logs, key), added, Admissions(events[1..], later, key));
  }

  /** The places of a log with a time less than the duration ago. */
  function Recent(log: seq<int>, now: int, duration: int): set<nat> {
    set i | 0 <= i < |log| && now - log[i] < duration
  }

  lemma {:induction false} ActiveIsRecent(log: seq<int>, now: int, duration: int)
    ensures Active(log, now, duration) == |Recent(log, now, duration)|
  {
    if log == [] {
      assert Recent(log, now, duration) == {};
    } else {
      var last := |log| - 1;
      ActiveIsRecent(log[..last], now, duration);
      assert log == log[..last] + [log[last]];
      ActiveAppend(log[..last], log[last], now, duration);
      assert Recent(log, now, duration) ==
             Recent(log[..last], now, duration) + (if now - log[last] < duration then {last} else {});
    }
  }

  /** After any run, the next request of a key is admitted exactly when limit and duration are positive and
      fewer than the limit of its own requests were admitted less than the duration ago. */
  lemma AdmittedIff(events: seq<Event>, policies: Policies, clock: int, expiration: int, key: string, now: int)
    requires InOrder(events, clock) && LastTime(events, clock) <= now
    requires (forall e :: e in events ==> e.Request?) || policies(key).duration <= expiration + 1
    ensures var log := Admissions(events, LimiterRun(map[], events, policies, expiration), key);
            RequestStep(StoreAfter(map[], events, policies, expiration), key, policies(key), now).1 <==>
            && policies(key).maxRequests > 0 && policies(key).duration > 0
            && |Recent(log, now, policies(key).duration)| < policies(key).maxRequests
  {
    var log, p := Admissions(events, LimiterRun(map[], events, policies, expiration), key), policies(key);
    RunTracksKey(map[], map[], events, policies, clock, expiration, key);
    assert LogOf(map[], key) + log == log;
    if p.Enabled() {
      DecideRefines(Find(StoreAfter(map[], events, policies, expiration), key), log, p, LastTime(events, clock), now);
      ActiveIsRecent(log, now, p.duration);
    }
  }
}
