/** Polling and billing of Midjourney tasks: several pollers hold copies of one row, a compare-and-set on
    the stored status picks the winner, and a ledger transaction finalizes the reserved quota. */
module Midjourney {
  import opened Wrappers

  const MAX_QUOTA: int := 0x7FFF_FFFF

  datatype Status = Success | Failure | Other(name: string) {
    predicate Terminal() {
      Success? || Failure?
    }
  }

  /** A task row or an in-memory copy of it; `target` is the recorded settlement intent. */
  datatype Task = Task(
    status: Status, progress: string, failReason: string, code: int, promptEn: string, state: string,
    submitTime: int, startTime: int, finishTime: int, imageUrl: string, videoUrl: string, videoUrls: string,
    properties: string, buttons: string, quota: int, target: Option<int>)

  /** One element of the provider's answer. */
  datatype Item = Item(
    status: Status, progress: string, failReason: string, promptEn: string, state: string,
    submitTime: int, startTime: int, finishTime: int, imageUrl: string, videoUrl: string, videoUrls: string,
    properties: Option<string>, buttons: Option<string>)

  datatype Bill = Settle(quota: int) | Refund {
    /** The stored status this bill belongs to. */
    function For(): Status {
      if Settle? then Success else Failure
    }
  }

  /** What the row's billing request leads to; `Unlinked`: to no reservation, or to one of another row. */
  datatype Reservation = Unlinked | Reserved | Settled(quota: int) | Refunded

  // ---------------------------------------------------------------- handling one provider answer

  /** `checkMjTaskNeedUpdate`. */
  predicate NeedsUpdate(t: Task, item: Item) {
    || t.code != 1 || t.progress != item.progress || t.promptEn != item.promptEn || t.state != item.state
    || t.submitTime != item.submitTime || t.startTime != item.startTime || t.finishTime != item.finishTime
    || t.imageUrl != item.imageUrl || t.status != item.status || t.failReason != item.failReason
    || (t.progress != "100%" && item.failReason != "")
    || t.videoUrl != item.videoUrl || t.videoUrls != item.videoUrls
  }

  predicate RefundsTask(item: Item) {
    item.failReason != "" || item.status == Failure
  }

  /** The copy with the provider's fields. */
  function Copied(t: Task, item: Item): Task {
    Task(
      item.status, item.progress, item.failReason, 1, item.promptEn, item.state,
      if item.submitTime != 0 then item.submitTime else t.submitTime,
      if item.startTime != 0 then item.startTime else t.startTime,
      if item.finishTime != 0 then item.finishTime else t.finishTime,
      item.imageUrl, item.videoUrl, item.videoUrls,
      item.properties.GetOr(t.properties), item.buttons.GetOr(t.buttons), t.quota, t.target)
  }

  /** The copy after a failure reason or a final status was taken into account. */
  function Overwritten(t: Task, item: Item): Task {
    if RefundsTask(item) then Copied(t, item).(progress := "100%", status := Failure)
    else if item.status == Success then Copied(t, item).(progress := "100%")
    else Copied(t, item)
  }

  /** `RecordBillingTargetQuota`: the intent, or nothing when another intent exists. */
  function RecordedTarget(t: Task): Option<int> {
    if t.quota < 0 || t.quota > MAX_QUOTA then None
    else if t.target.Some? && t.target.value != t.quota then None
    else Some(t.quota)
  }

  datatype Plan =
    | Ignore
    | BillCopy(bill: Bill)
    | IntentConflict(next: Task)
    | CompareAndSet(from: Status, next: Task, onWin: Option<Bill>)

  /** What one answer makes of one copy. */
  function PlanFor(t: Task, item: Item): Plan {
    if t.status == Success then BillCopy(Settle(t.quota))
    else if t.status == Failure then BillCopy(Refund)
    else if !NeedsUpdate(t, item) then Ignore
    else
      var next := Overwritten(t, item);
      if RefundsTask(item) then CompareAndSet(t.status, next, Some(Refund))
      else if item.status == Success then
        if RecordedTarget(t).None? then IntentConflict(next)
        else CompareAndSet(t.status, next.(target := RecordedTarget(t)), Some(Settle(t.quota)))
      else CompareAndSet(t.status, next, None)
  }

  /** The in-memory copy afterwards, whether or not the compare-and-set succeeds. */
  function CopyAfter(t: Task, item: Item): Task {
    match PlanFor(t, item)
    case IntentConflict(next) => next
    case CompareAndSet(_, next, _) => next
    case _ => t
  }

  // ---------------------------------------------------------------- the ledger transaction

  /** The row and the reservation after a bill; a bill that does not fit the stored row changes nothing. */
  function Ledger(row: Task, reservation: Reservation, bill: Bill): (Task, Reservation) {
    match bill
    case Settle(quota) =>
      if row.status != Success || quota < 0 || quota > MAX_QUOTA || (row.target.Some? && row.target.value != quota)
      then (row, reservation)
      else if reservation == Reserved || reservation == Settled(quota)
      then (row.(quota := quota, target := None), Settled(quota))
      else (row, reservation)
    case Refund =>
      if row.status != Failure || reservation.Unlinked? || reservation.Settled? then (row, reservation)
      else (row.(target := None), Refunded)
  }

  // ---------------------------------------------------------------- the imperative update

  class Database {
    var row: Task
    var reservation: Reservation

    constructor (row: Task, reservation: Reservation)
      ensures this.row == row && this.reservation == reservation
    {
      this.row, this.reservation := row, reservation;
    }

    /** `UpdateWithStatus`. */
    method UpdateWithStatus(from: Status, next: Task) returns (won: bool)
      modifies this
      ensures won <==> old(row.status) == from
      ensures row == (if won then next else old(row)) && reservation == old(reservation)
    {
      won := row.status == from;
      if won {
        row := next;
      }
    }

    method Finalize(bill: Bill)
      modifies this
      ensures (row, reservation) == Ledger(old(row), old(reservation), bill)
      ensures bill.Refund? && old(row).status == Failure && old(reservation) == Reserved ==> reservation == Refunded
      ensures bill.Settle? && 0 <= bill.quota <= 0x7FFF_FFFF && old(row).status == Success
              && (old(row).target == None || old(row).target == Some(bill.quota)) && old(reservation) == Reserved ==>
                reservation == Settled(bill.quota) && row.quota == bill.quota
    {
      match bill
      case Settle(quota) =>
        if quota < 0 || quota > MAX_QUOTA || row.status != Success {
          return;
        }
        if row.target.Some? && row.target.value != quota {
          return;
        }
        if reservation.Unlinked? {
          return;
        }
        if reservation == Refunded || (reservation.Settled? && reservation.quota != quota) {
          return;
        }
        reservation := Settled(quota);
        row := row.(quota := quota, target := None);
      case Refund =>
        if row.status != Failure || reservation.Unlinked? || reservation.Settled? {
          return;
        }
        reservation := Refunded;
        row := row.(target := None);
    }
  }

  class Copy {
    var task: Task

    constructor (task: Task)
      ensures this.task == task
    {
      this.task := task;
    }

    method CopyFields(item: Item)
      modifies this
      ensures task == Copied(old(task), item)
    {
      task := task.(code := 1, progress := item.progress, promptEn := item.promptEn, state := item.state);
      if item.submitTime != 0 { task := task.(submitTime := item.submitTime); }
      if item.startTime != 0 { task := task.(startTime := item.startTime); }
      if item.finishTime != 0 { task := task.(finishTime := item.finishTime); }
      task := task.(imageUrl := item.imageUrl, status := item.status, failReason := item.failReason);
      if item.properties.Some? { task := task.(properties := item.properties.value); }
      if item.buttons.Some? { task := task.(buttons := item.buttons.value); }
      task := task.(videoUrl := item.videoUrl, videoUrls := item.videoUrls);
    }

    /** `updateMidjourneyTaskFromProvider`, run without interference. */
    method UpdateFromProvider(item: Item, db: Database)
      modifies this, db
      ensures task == CopyAfter(old(task), item)
      ensures match PlanFor(old(task), item)
              case Ignore => db.row == old(db.row) && db.reservation == old(db.reservation)
              case IntentConflict(_) => db.row == old(db.row) && db.reservation == old(db.reservation)
              case BillCopy(bill) => (db.row, db.reservation) == Ledger(old(db.row), old(db.reservation), bill)
              case CompareAndSet(from, next, bill) =>
                if old(db.row.status) != from then db.row == old(db.row) && db.reservation == old(db.reservation)
                else if bill.None? then db.row == next && db.reservation == old(db.reservation)
                else (db.row, db.reservation) == Ledger(next, old(db.reservation), bill.value)
    {
      if task.status == Success {
        db.Finalize(Settle(task.quota));
        return;
      }
      if task.status == Failure {
        db.Finalize(Refund);
        return;
      }
      if !NeedsUpdate(task, item) {
        return;
      }
      var preStatus := task.status;
      CopyFields(item);
      var shouldRefund := item.failReason != "" || task.status == Failure;
      var shouldSettle := !shouldRefund && task.status == Success;
      if shouldRefund {
        task := task.(progress := "100%", status := Failure);
      } else if shouldSettle {
        task := task.(progress := "100%");
        var target := RecordedTarget(task);
        if target.None? {
          return;
        }
        task := task.(target := target);
      }
      var won := db.UpdateWithStatus(preStatus, task);
      if !won {
        return;
      }
      if shouldSettle {
        db.Finalize(Settle(task.quota));
      }
      if shouldRefund {
        db.Finalize(Refund);
      }
    }
  }

  // ---------------------------------------------------------------- interleaved pollers

  /** A poller's copy, the bill it has decided on but not yet issued, and whether it was processed since
      it was loaded. */
  datatype Poller = Poller(task: Task, pending: Option<Bill>, processed: bool)

  datatype System = System(row: Task, reservation: Reservation, pollers: map<nat, Poller>)

  /** Atomic steps: reading the row; handling an answer up to and including the compare-and-set, which may
      also fail with an error; the ledger transaction, which may also fail; losing a poller. */
  datatype Action =
    | Load(id: nat)
    | Process(id: nat, item: Item, databaseFails: bool)
    | Issue(id: nat, databaseFails: bool)
    | Crash(id: nat)

  function Step(s: System, a: Action): System {
    match a
    case Load(id) => s.(pollers := s.pollers[id := Poller(s.row, None, false)])
    case Crash(id) => s.(pollers := s.pollers - {id})
    case Process(id, item, databaseFails) =>
      if id !in s.pollers || s.pollers[id].pending.Some? then s else
      var t := s.pollers[id].task;
      var after := CopyAfter(t, item);
      (match PlanFor(t, item)
       case BillCopy(bill) => s.(pollers := s.pollers[id := Poller(after, Some(bill), true)])
       case CompareAndSet(from, next, bill) =>
         if s.row.status == from && !databaseFails
         then s.(row := next, pollers := s.pollers[id := Poller(after, bill, true)])
         else s.(pollers := s.pollers[id := Poller(after, None, true)])
       case _ => s.(pollers := s.pollers[id := Poller(after, None, true)]))
    case Issue(id, databaseFails) =>
      if id !in s.pollers || s.pollers[id].pending.None? then s else
      var cleared := s.pollers[id := s.pollers[id].(pending := None)];
      if databaseFails then s.(pollers := cleared)
      else
        var (row, reservation) := Ledger(s.row, s.reservation, s.pollers[id].pending.value);
        System(row, reservation, cleared)
  }

  /** A poller won the transition into a terminal status. */
  predicate WinsTerminal(s: System, a: Action) {
    !s.row.status.Terminal() && Step(s, a).row.status.Terminal()
  }

  /** The row or copy holds the reserved quota and intends no other. */
  ghost predicate HoldsQuota(t: Task, quota: int) {
    t.quota == quota && (t.target.None? || t.target.value == quota)
  }

  ghost predicate BillsQuota(bill: Option<Bill>, quota: int) {
    bill.Some? && bill.value.Settle? ==> bill.value.quota == quota
  }

  ghost predicate PollerHolds(p: Poller, quota: int) {
    HoldsQuota(p.task, quota) && BillsQuota(p.pending, quota)
  }

  ghost predicate Reconciled(status: Status, reservation: Reservation, quota: int) {
    && (reservation.Settled? ==> status == Success && reservation.quota == quota)
    && (reservation.Refunded? ==> status == Failure)
  }

  /** The reservation agrees with the stored status and the quota is the reserved one everywhere. */
  ghost predicate Inv(s: System, quota: int) {
    && Reconciled(s.row.status, s.reservation, quota) && HoldsQuota(s.row, quota)
    && forall id :: id in s.pollers ==> PollerHolds(s.pollers[id], quota)
  }

  ghost predicate Run(states: seq<System>, actions: seq<Action>, quota: int) {
    && |states| == |actions| + 1 && Inv(states[0], quota)
    && forall i :: 0 <= i < |actions| ==> states[i + 1] == Step(states[i], actions[i])
  }

  lemma PlanKeepsQuota(t: Task, item: Item, quota: int)
    requires HoldsQuota(t, quota)
    ensures HoldsQuota(CopyAfter(t, item), quota)
    ensures PlanFor(t, item).CompareAndSet? ==>
              PlanFor(t, item).next == CopyAfter(t, item) && BillsQuota(PlanFor(t, item).onWin, quota)
    ensures PlanFor(t, item).BillCopy? ==> BillsQuota(Some(PlanFor(t, item).bill), quota)
  {
  }

  /** Only the poller that handles the answer changes; the row becomes its copy or stays. */
  lemma ProcessEffect(s: System, a: Action, quota: int)
    requires a.Process? && a.id in s.pollers && PollerHolds(s.pollers[a.id], quota)
    ensures var t := Step(s, a);
            && t.pollers == s.pollers[a.id := t.pollers[a.id]] && PollerHolds(t.pollers[a.id], quota)
            && t.reservation == s.reservation
            && (t.row == s.row || (!s.row.status.Terminal() && HoldsQuota(t.row, quota)))
  {
    PlanKeepsQuota(s.pollers[a.id].task, a.item, quota);
  }

  lemma ProcessKeepsInv(s: System, a: Action, quota: int)
    requires Inv(s, quota) && a.Process?
    ensures Inv(Step(s, a), quota)
    ensures s.row.status.Terminal() ==> Step(s, a).row.status == s.row.status
    ensures Step(s, a).reservation == s.reservation
  {
    if a.id in s.pollers {
      ProcessEffect(s, a, quota);
    }
  }

  lemma StepKeepsInv(s: System, a: Action, quota: int)
    requires Inv(s, quota)
    ensures Inv(Step(s, a), quota)
    ensures s.row.status.Terminal() ==> Step(s, a).row.status == s.row.status
    ensures s.reservation != Reserved ==> Step(s, a).reservation == s.reservation
  {
    if a.Process? {
      ProcessKeepsInv(s, a, quota);
    }
  }

  lemma {:induction false} RunKeepsInv(states: seq<System>, actions: seq<Action>, quota: int, i: nat)
    requires Run(states, actions, quota) && i < |states|
    ensures Inv(states[i], quota)
  {
    if i > 0 {
      RunKeepsInv(states, actions, quota, i - 1);
      StepKeepsInv(states[i - 1], actions[i - 1], quota);
    }
  }

  /** Over every interleaving, duplicates, lost races and failures included: a terminal status and a
      finalized reservation never change again. */
  lemma {:induction false} TerminalIsAbsorbing(states: seq<System>, actions: seq<Action>, quota: int, i: nat, j: nat)
    requires Run(states, actions, quota) && i <= j < |states|
    ensures states[i].row.status.Terminal() ==> states[j].row.status == states[i].row.status
    ensures states[i].reservation != Reserved ==> states[j].reservation == states[i].reservation
    decreases j
  {
    if i < j {
      TerminalIsAbsorbing(states, actions, quota, i, j - 1);
      RunKeepsInv(states, actions, quota, j - 1);
      StepKeepsInv(states[j - 1], actions[j - 1], quota);
    }
  }

  /** At most one step of a run moves the row into a terminal status. */
  lemma OneWinner(states: seq<System>, actions: seq<Action>, quota: int, i: nat, j: nat)
    requires Run(states, actions, quota) && i < j < |actions|
    requires WinsTerminal(states[i], actions[i])
    ensures !WinsTerminal(states[j], actions[j])
  {
    TerminalIsAbsorbing(states, actions, quota, i + 1, j);
  }

  /** The money always follows the stored status: a settlement of the reserved quota only on success, a
      refund only on failure, and never one after the other. */
  lemma LedgerMatchesStatus(states: seq<System>, actions: seq<Action>, quota: int, i: nat, j: nat)
    requires Run(states, actions, quota) && i <= j < |states|
    ensures states[i].reservation.Settled? ==>
              states[i].reservation == Settled(quota) && states[i].row.status == Success
    ensures states[i].reservation.Refunded? ==> states[i].row.status == Failure
    ensures states[i].reservation.Settled? ==> !states[j].reservation.Refunded?
    ensures states[i].reservation.Refunded? ==> !states[j].reservation.Settled?
  {
    RunKeepsInv(states, actions, quota, i);
    TerminalIsAbsorbing(states, actions, quota, i, j);
  }

  /** The winner always bills in the direction of the status it stored, and only a winner stores one. */
  lemma WinnerBills(s: System, a: Action)
    requires WinsTerminal(s, a)
    ensures a.Process? && a.id in s.pollers
    ensures var p := Step(s, a).pollers[a.id];
            p.pending.Some? && p.pending.value.For() == Step(s, a).row.status
  {
  }

  // ---------------------------------------------------------------- bills and answers take effect

  /** The reservation after an issued bill: closed exactly when it is open and the stored status is the one
      the bill is for; a settlement also needs a quota in range and no other intent. */
  lemma IssuedBill(s: System, id: nat)
    requires id in s.pollers && s.pollers[id].pending.Some?
    ensures var t, bill := Step(s, Issue(id, false)), s.pollers[id].pending.value;
            t.reservation ==
            if bill == Refund && s.row.status == Failure && s.reservation == Reserved then Refunded
            else if && bill.Settle? && s.row.status == Success && s.reservation == Reserved
                    && 0 <= bill.quota <= 2147483647
                    && (s.row.target == None || s.row.target == Some(bill.quota)) then Settled(bill.quota)
            else s.reservation
    ensures Step(s, Issue(id, true)).reservation == s.reservation
  {
  }

  /** Any handled answer marks its copy, and only loading the row again unmarks it. */
  lemma HandledIsMarked(s: System, a: Action, id: nat)
    requires id in s.pollers && id in Step(s, a).pollers
    ensures Step(s, a).pollers[id].processed ==
            if a == Load(id) then false
            else if a.Process? && a.id == id && s.pollers[id].pending.None? then true
            else s.pollers[id].processed
  {
  }

  /** The stored row after an answer whose writer saw the stored status. */
  ghost predicate Shows(row: Task, t: Task, item: Item) {
    && row.progress == (if item.failReason != "" || item.status.Terminal() then "100%" else item.progress)
    && row.status == (if item.failReason != "" then Failure else item.status)
    && row.failReason == item.failReason && row.code == 1 && row.promptEn == item.promptEn && row.state == item.state
    && row.imageUrl == item.imageUrl && row.videoUrl == item.videoUrl && row.videoUrls == item.videoUrls
    && row.submitTime == (if item.submitTime == 0 then t.submitTime else item.submitTime)
    && row.startTime == (if item.startTime == 0 then t.startTime else item.startTime)
    && row.finishTime == (if item.finishTime == 0 then t.finishTime else item.finishTime)
    && row.properties == (if item.properties.Some? then item.properties.value else t.properties)
    && row.buttons == (if item.buttons.Some? then item.buttons.value else t.buttons)
    && row.quota == t.quota
  }

  /** Something the update looks at differs between the copy and the answer. */
  ghost predicate Differs(t: Task, item: Item) {
    || t.code != 1 || t.status != item.status || t.progress != item.progress || t.failReason != item.failReason
    || (item.failReason != "" && t.progress != "100%") || t.promptEn != item.promptEn || t.state != item.state
    || t.submitTime != item.submitTime || t.startTime != item.startTime || t.finishTime != item.finishTime
    || t.imageUrl != item.imageUrl || t.videoUrl != item.videoUrl || t.videoUrls != item.videoUrls
  }

  /** An answer is stored exactly when the copy is not final, differs from it and has the stored status, and
      no other settlement is intended; otherwise the row stays as it is. */
  lemma AnswerIsStored(s: System, id: nat, item: Item, databaseFails: bool)
    requires id in s.pollers && s.pollers[id].pending.None?
    ensures var t, row := s.pollers[id].task, Step(s, Process(id, item, databaseFails)).row;
            if && t.status != Success && t.status != Failure && Differs(t, item) && t.status == s.row.status
               && !databaseFails
               && (item.status == Success && item.failReason == "" ==>
                     0 <= t.quota <= 2147483647 && (t.target == None || t.target == Some(t.quota)))
            then Shows(row, t, item) && (row.status == Success ==> row.target == Some(t.quota))
            else row == s.row
  {
  }

  // ---------------------------------------------------------------- billing calls, before the ledger checks them

  /** The pending bill belongs to the stored status, and so does a fresh copy's final status. */
  ghost predicate CallMatches(p: Poller, status: Status) {
    && (p.pending.Some? ==> p.pending.value.For() == status)
    && (!p.processed && p.task.status.Terminal() ==> p.task.status == status)
  }

  ghost predicate CallsMatch(s: System) {
    forall id :: id in s.pollers ==> CallMatches(s.pollers[id], s.row.status)
  }

  /** Handling an answer decides on the wrong bill exactly when the copy is already terminal in memory but
      the row has another status. */
  lemma WrongCallIff(s: System, id: nat, item: Item, databaseFails: bool)
    requires id in s.pollers && s.pollers[id].pending.None?
    ensures var t := Step(s, Process(id, item, databaseFails));
            t.pollers[id].pending.Some? && t.pollers[id].pending.value.For() != t.row.status
            <==> s.pollers[id].task.status.Terminal() && s.pollers[id].task.status != s.row.status
  {
  }

  /** If every copy is processed at most once after it is loaded, every billing call matches the row. */
  lemma FreshStepKeepsCalls(s: System, a: Action, quota: int)
    requires Inv(s, quota) && CallsMatch(s)
    requires a.Process? && a.id in s.pollers ==> !s.pollers[a.id].processed
    ensures CallsMatch(Step(s, a))
  {
    StepKeepsInv(s, a, quota);
    if a.Process? && a.id in s.pollers && s.pollers[a.id].pending.None? {
      WrongCallIff(s, a.id, a.item, a.databaseFails);
    }
  }

  lemma {:induction false} FreshRunsCallCorrectly(states: seq<System>, actions: seq<Action>, quota: int, i: nat)
    requires Run(states, actions, quota) && i < |states| && CallsMatch(states[0])
    requires forall k :: 0 <= k < i && actions[k].Process? && actions[k].id in states[k].pollers ==>
               !states[k].pollers[actions[k].id].processed
    ensures CallsMatch(states[i])
  {
    if i > 0 {
      FreshRunsCallCorrectly(states, actions, quota, i - 1);
      RunKeepsInv(states, actions, quota, i - 1);
      FreshStepKeepsCalls(states[i - 1], actions[i - 1], quota);
    }
  }

  /** A fresh copy with a success answer wins. */
  lemma SuccessWins(s: System, id: nat, item: Item)
    requires id in s.pollers && s.pollers[id] == Poller(s.row, None, false)
    requires !s.row.status.Terminal() && 0 <= s.row.quota <= MAX_QUOTA && s.row.target.None?
    requires item.status == Success && item.failReason == ""
    ensures var t := Step(s, Process(id, item, false));
            t.row.status == Success && t.pollers == s.pollers[id := t.pollers[id]]
  {
  }

  /** A copy of an earlier status with a failure answer loses, and is a failure in memory. */
  lemma FailureLoses(s: System, id: nat, item: Item)
    requires id in s.pollers && s.pollers[id].pending.None? && item.status == Failure
    requires !s.pollers[id].task.status.Terminal() && s.pollers[id].task.status != s.row.status
    ensures var t := Step(s, Process(id, item, false));
            && t.row == s.row && id in t.pollers && t.pollers[id].pending.None?
            && t.pollers[id].task.status == Failure
  {
  }

  /** Without that, a copy that lost the race asks for the wrong bill when its answer is repeated; the
      ledger then leaves everything as it is. */
  lemma RepeatedAnswerCallsWrongly(s: System, winner: nat, loser: nat, success: Item, failure: Item)
    requires winner != loser
    requires s.pollers == map[winner := Poller(s.row, None, false), loser := Poller(s.row, None, false)]
    requires !s.row.status.Terminal() && 0 <= s.row.quota <= MAX_QUOTA && s.row.target.None?
    requires success.status == Success && success.failReason == "" && failure.status == Failure
    ensures var s1 := Step(s, Process(winner, success, false));
            var s2 := Step(s1, Process(loser, failure, false));
            var s3 := Step(s2, Process(loser, failure, false));
            && s3.row.status == Success && s3.pollers[loser].pending == Some(Refund)
            && Step(s3, Issue(loser, false)).reservation == s3.reservation
  {
    SuccessWins(s, winner, success);
    var s1 := Step(s, Process(winner, success, false));
    FailureLoses(s1, loser, failure);
  }
}
