/**
 Who wakes whom on a queue.  Tasks look, lock the queue and join a waiting list in several
 critical sections; interrupts may send and receive between any two of them, and while the
 queue is locked they only count what they did.  No wake-up is lost on the way.
 */
module QueueWakeups {
  import opened Rings
  import Scheduler

  type Task = Scheduler.Task

  /** `queueUNLOCKED`, `queueLOCKED_UNMODIFIED` and the largest value of a lock counter. */
  const UNLOCKED: int := -1
  const UNMODIFIED: int := 0
  const INT8_MAX: int := 127

  /** One more on a signed eight-bit counter. */
  function Bump(c: int): int { if c == INT8_MAX then -INT8_MAX - 1 else c + 1 }

  // ----- one side of a queue -----

  /**
   A waiting list, the tasks an event took off it that have not run since, and the lock that
   counts events meanwhile.  Readers wait for messages, writers for free places.
   */
  datatype Side = Side(waiting: seq<Task>, woken: set<Task>, lock: int)

  ghost predicate SideOk(s: Side) {
    NoDup(s.waiting) && (forall t :: t in s.waiting ==> t !in s.woken) && UNLOCKED <= s.lock <= INT8_MAX
  }

  /** While somebody waits, every available item is matched by a woken task or a counted event. */
  ghost predicate Matched(s: Side, available: int) {
    s.waiting != [] ==> available <= |s.woken| + (if s.lock > 0 then s.lock else 0)
  }

  /** `xTaskRemoveFromEventList` if the list is not empty. */
  function WakeOne(s: Side): Side {
    if s.waiting == [] then s else Side(s.waiting[1..], s.woken + {s.waiting[0]}, s.lock)
  }

  /** An event in an interrupt: wake a task, or count if the queue is locked. */
  function Notify(s: Side): Side {
    if s.lock == UNLOCKED then WakeOne(s) else s.(lock := Bump(s.lock))
  }

  function Lock(s: Side): Side { if s.lock == UNLOCKED then s.(lock := UNMODIFIED) else s }

  function WakeMany(s: Side, k: int): Side
    decreases |s.waiting|
  {
    if k <= 0 || s.waiting == [] then s else WakeMany(WakeOne(s), k - 1)
  }

  /** One half of `prvUnlockQueue`: a wake-up for every counted event while somebody waits. */
  function Unlock(s: Side): Side { WakeMany(s, s.lock).(lock := UNLOCKED) }

  function Join(s: Side, t: Task, p: nat): Side
    requires p <= |s.waiting|
  {
    s.(waiting := s.waiting[..p] + [t] + s.waiting[p..])
  }

  function Leave(s: Side, t: Task): Side { s.(waiting := Without(s.waiting, t)) }

  function Ran(s: Side, t: Task): Side { s.(woken := s.woken - {t}) }

  ghost predicate Shrinks(s: Side, r: Side) {
    && (forall t :: t in r.waiting ==> t in s.waiting)
    && (forall t :: t in r.woken ==> t in s.woken || t in s.waiting)
  }

  lemma WakeKeeps(s: Side, available: int)
    requires SideOk(s)
    ensures SideOk(WakeOne(s)) && Shrinks(s, WakeOne(s))
    ensures Matched(s, available) ==> Matched(WakeOne(s), available + 1)
  {
    if s.waiting != [] {
      NoDupRemove(s.waiting, 0);
      NoDupSlice(s.waiting, 1, |s.waiting|);
      assert s.waiting[1..|s.waiting|] == s.waiting[1..];
      assert s.waiting[0] in s.waiting;
    }
  }

  lemma NotifyKeeps(s: Side, available: int)
    requires SideOk(s) && s.lock != INT8_MAX
    ensures SideOk(Notify(s)) && Shrinks(s, Notify(s))
    ensures Matched(s, available) ==> Matched(Notify(s), available + 1)
  {
    WakeKeeps(s, available);
  }

  lemma {:induction false} WakeManyKeeps(s: Side, k: int)
    requires SideOk(s) && k >= 0
    ensures var r := WakeMany(s, k);
            && SideOk(r) && Shrinks(s, r) && r.lock == s.lock
            && r.waiting == (if k < |s.waiting| then s.waiting[k..] else [])
            && (r.waiting != [] ==> |r.woken| == |s.woken| + k)
    decreases |s.waiting|
  {
    if k > 0 && s.waiting != [] {
      WakeKeeps(s, 0);
      assert s.waiting[0] in s.waiting;
      WakeManyKeeps(WakeOne(s), k - 1);
    }
  }

  /** An unlock wakes as many of the first waiting tasks as events were counted, or all; no item is unmatched. */
  lemma UnlockKeeps(s: Side, available: int)
    requires SideOk(s) && s.lock >= 0
    ensures Unlock(s).waiting == if s.lock < |s.waiting| then s.waiting[s.lock..] else []
    ensures Unlock(s).lock == UNLOCKED
    ensures SideOk(Unlock(s)) && Shrinks(s, Unlock(s))
    ensures Matched(s, available) ==> Matched(Unlock(s), available)
  {
    WakeManyKeeps(s, s.lock);
  }

  lemma JoinKeeps(s: Side, t: Task, p: nat, available: int)
    requires SideOk(s) && p <= |s.waiting| && t !in s.waiting && t !in s.woken && available <= s.lock
    ensures SideOk(Join(s, t, p)) && Matched(Join(s, t, p), available)
    ensures forall u :: u in Join(s, t, p).waiting <==> u in s.waiting || u == t
  {
    NoDupInsert(s.waiting, p, t);
    assert s.waiting == s.waiting[..p] + s.waiting[p..];
  }

  lemma LeaveKeeps(s: Side, t: Task, available: int)
    requires SideOk(s) && t in s.waiting
    ensures SideOk(Leave(s, t)) && Shrinks(s, Leave(s, t)) && t !in Leave(s, t).waiting
    ensures Matched(s, available) ==> Matched(Leave(s, t), available)
  {
    NoDupWithout(s.waiting, t);
  }

  /** A woken task that runs uses up one item, or there was none. */
  lemma RanKeeps(s: Side, t: Task, available: int)
    requires SideOk(s)
    ensures SideOk(Ran(s, t)) && Shrinks(s, Ran(s, t))
    ensures Matched(s, available) ==> Matched(Ran(s, t), available - 1)
    ensures t !in s.woken ==> Ran(s, t) == s
    ensures Matched(Ran(s, t), 0)
  {
    assert t !in s.woken ==> s.woken - {t} == s.woken;
    assert t in s.woken ==> |s.woken - {t}| == |s.woken| - 1;
  }

  // ----- the queue and its steps -----

  /** Receiving and peeking wait for a message, sending waits for a place, overwriting never waits. */
  datatype Role = Receive | Peek | Send | Overwrite

  predicate Reads(r: Role) { r.Receive? || r.Peek? }

  /** In ordinary code; having found nothing to do and about to lock; or in the loop again, perhaps blocked. */
  datatype Phase = Idle | Pausing(role: Role) | Looping(role: Role)

  /** Where the task is that has suspended the scheduler and locked the queue. */
  datatype Section = Open | Checking(t: Task) | Confirmed(t: Task) | ReleasingTx(t: Task) | ReleasingRx(t: Task)

  datatype Queue = Queue(length: nat, count: nat, readers: Side, writers: Side, phase: map<Task, Phase>,
      section: Section)

  datatype Step =
    | Attempt(t: Task, role: Role, wait: bool)
    | Enter(t: Task)
    | Check(expired: bool)
    | Place(position: nat)
    | UnlockTx
    | UnlockRx
    | Timeout(t: Task)
    | IsrSend(overwrite: bool)
    | IsrReceive

  ghost predicate Blocked(q: Queue, t: Task) { t in q.readers.waiting || t in q.writers.waiting }

  /** The side a role waits on. */
  function Mine(q: Queue, r: Role): Side { if Reads(r) then q.readers else q.writers }

  /** Nothing to do: no message for a reader, no place for a writer. */
  predicate Nothing(q: Queue, r: Role) { if Reads(r) then q.count == 0 else q.count == q.length }

  ghost predicate Enabled(q: Queue, st: Step) {
    match st
    case Attempt(t, role, _) =>
      && q.section == Open && t in q.phase && (role.Overwrite? ==> q.length == 1)
      && (q.phase[t] == Idle || (q.phase[t] == Looping(role) && !Blocked(q, t)))
    case Enter(t) => q.section == Open && t in q.phase && q.phase[t].Pausing?
    case Check(_) => q.section.Checking? && q.section.t in q.phase && q.phase[q.section.t].Pausing?
    case Place(p) => q.section.Confirmed? && q.section.t in q.phase && q.phase[q.section.t].Pausing?
                     && p <= |Mine(q, q.phase[q.section.t].role).waiting|
    case UnlockTx => q.section.ReleasingTx?
    case UnlockRx => q.section.ReleasingRx?
    case Timeout(t) => q.section == Open && t in q.phase && q.phase[t].Looping? && Blocked(q, t)
    case IsrSend(overwrite) => overwrite ==> q.length == 1
    case IsrReceive => true
  }

  /** The number of messages after a message is copied in. */
  function CountAfterSend(count: nat, overwrite: bool): nat { if overwrite && count > 0 then count else count + 1 }

  /** The critical section at the top of the loop of a send, receive or peek. */
  function Attempted(q: Queue, t: Task, role: Role, wait: bool): Queue {
    var q1 := q.(readers := Ran(q.readers, t), writers := Ran(q.writers, t));
    var done := q1.(phase := q.phase[t := Idle]);
    match role
    case Receive =>
      if q.count > 0 then done.(count := q.count - 1, writers := WakeOne(q1.writers))
      else if wait then q1.(phase := q.phase[t := Pausing(role)]) else done
    case Peek =>
      if q.count > 0 then done.(readers := WakeOne(q1.readers))
      else if wait then q1.(phase := q.phase[t := Pausing(role)]) else done
    case Send =>
      if q.count < q.length then done.(count := q.count + 1, readers := WakeOne(q1.readers))
      else if wait then q1.(phase := q.phase[t := Pausing(role)]) else done
    case Overwrite => done.(count := CountAfterSend(q.count, true), readers := WakeOne(q1.readers))
  }

  function Checked(q: Queue, expired: bool): Queue
    requires q.section.Checking? && q.section.t in q.phase && q.phase[q.section.t].Pausing?
  {
    var t := q.section.t;
    var role := q.phase[t].role;
    if expired then
      q.(section := ReleasingTx(t), phase := q.phase[t := if role.Send? then Idle else Looping(role)])
    else if Nothing(q, role) then q.(section := Confirmed(t))
    else q.(section := ReleasingTx(t), phase := q.phase[t := Looping(role)])
  }

  function Placed(q: Queue, p: nat): Queue
    requires q.section.Confirmed? && q.section.t in q.phase && q.phase[q.section.t].Pausing?
    requires p <= |Mine(q, q.phase[q.section.t].role).waiting|
  {
    var t := q.section.t;
    var role := q.phase[t].role;
    var q1 := q.(section := ReleasingTx(t), phase := q.phase[t := Looping(role)]);
    if Reads(role) then q1.(readers := Join(q.readers, t, p)) else q1.(writers := Join(q.writers, t, p))
  }

  function SentFromIsr(q: Queue, overwrite: bool): Queue {
    if q.count < q.length || overwrite then q.(count := CountAfterSend(q.count, overwrite), readers := Notify(q.readers)) else q
  }

  function ReceivedFromIsr(q: Queue): Queue {
    if q.count > 0 then q.(count := q.count - 1, writers := Notify(q.writers)) else q
  }

  function Apply(q: Queue, st: Step): Queue
    requires Enabled(q, st)
  {
    match st
    case Attempt(t, role, wait) => Attempted(q, t, role, wait)
    case Enter(t) => q.(section := Checking(t), readers := Lock(q.readers), writers := Lock(q.writers))
    case Check(expired) => Checked(q, expired)
    case Place(p) => Placed(q, p)
    case UnlockTx => q.(section := ReleasingRx(q.section.t), readers := Unlock(q.readers))
    case UnlockRx => q.(section := Open, writers := Unlock(q.writers))
    case Timeout(t) => if t in q.readers.waiting then q.(readers := Leave(q.readers, t)) else q.(writers := Leave(q.writers, t))
    case IsrSend(overwrite) => SentFromIsr(q, overwrite)
    case IsrReceive => ReceivedFromIsr(q)
  }

  // ----- the invariant -----

  /** The tasks a side knows are in the loop of a call that waits on that side. */
  ghost predicate Roles(s: Side, phase: map<Task, Phase>, reading: bool) {
    && (forall t :: t in s.waiting ==> t in phase && phase[t].Looping? && Reads(phase[t].role) == reading)
    && (forall t :: t in s.woken ==> t in phase && phase[t].Looping? && Reads(phase[t].role) == reading)
  }

  ghost predicate SectionOk(q: Queue) {
    match q.section
    case Open => q.readers.lock == UNLOCKED && q.writers.lock == UNLOCKED
    case Checking(t) => q.readers.lock >= 0 && q.writers.lock >= 0 && t in q.phase && q.phase[t].Pausing?
    case Confirmed(t) =>
      && q.readers.lock >= 0 && q.writers.lock >= 0 && t in q.phase && q.phase[t].Pausing?
      && (if Reads(q.phase[t].role) then q.count <= q.readers.lock else q.length - q.count <= q.writers.lock)
    case ReleasingTx(_) => q.readers.lock >= 0 && q.writers.lock >= 0
    case ReleasingRx(_) => q.readers.lock == UNLOCKED && q.writers.lock >= 0
  }

  ghost predicate Inv(q: Queue) {
    && q.count <= q.length && SectionOk(q)
    && PartOk(q.readers, q.phase, true, q.count) && PartOk(q.writers, q.phase, false, q.length - q.count)
  }

  ghost predicate PartOk(s: Side, phase: map<Task, Phase>, reading: bool, available: int) {
    SideOk(s) && Roles(s, phase, reading) && Matched(s, available)
  }

  /** The counter an interrupt is about to bump is not at its limit. */
  predicate Countable(q: Queue, st: Step) {
    match st
    case IsrSend(_) => q.readers.lock != INT8_MAX
    case IsrReceive => q.writers.lock != INT8_MAX
    case _ => true
  }

  /** Shrinking a side and changing the phase of a task it does not know keeps its roles. */
  lemma RolesKeep(s: Side, r: Side, phase: map<Task, Phase>, t: Task, ph: Phase, reading: bool)
    requires Roles(s, phase, reading) && Shrinks(s, r)
    requires t !in r.waiting && t !in r.woken
    ensures Roles(r, phase[t := ph], reading)
  {
  }

  lemma RolesShrink(s: Side, r: Side, phase: map<Task, Phase>, reading: bool)
    requires Roles(s, phase, reading) && Shrinks(s, r)
    ensures Roles(r, phase, reading)
  {
  }

  /** The side a task has waited on, when it runs again and uses up an item, or finds none. */
  lemma RanPart(s: Side, phase: map<Task, Phase>, reading: bool, available: int, t: Task, ph: Phase)
    requires PartOk(s, phase, reading, available) && t !in s.waiting
    ensures PartOk(Ran(s, t), phase[t := ph], reading, available - 1)
    ensures available == 0 ==> PartOk(Ran(s, t), phase[t := ph], reading, 0)
  {
    RanKeeps(s, t, available);
    hide SideOk, Matched;
    RolesKeep(s, Ran(s, t), phase, t, ph, reading);
  }

  /** A side that somebody else makes an item available to. */
  lemma WokenPart(s: Side, phase: map<Task, Phase>, reading: bool, available: int)
    requires PartOk(s, phase, reading, available)
    ensures PartOk(WakeOne(s), phase, reading, available + 1)
  {
    WakeKeeps(s, available);
    hide SideOk, Matched;
    RolesShrink(s, WakeOne(s), phase, reading);
  }

  /** The side a task has nothing to do with. */
  lemma OtherPart(s: Side, phase: map<Task, Phase>, reading: bool, available: int, t: Task, ph: Phase)
    requires PartOk(s, phase, reading, available) && t !in s.waiting && t !in s.woken
    ensures Ran(s, t) == s && PartOk(s, phase[t := ph], reading, available)
  {
    RanKeeps(s, t, available);
    hide SideOk, Matched;
    RolesKeep(s, s, phase, t, ph, reading);
  }

  lemma FewerAvailable(s: Side, phase: map<Task, Phase>, reading: bool, available: int, fewer: int)
    requires PartOk(s, phase, reading, available) && fewer <= available
    ensures PartOk(s, phase, reading, fewer)
  {
  }

  lemma WhereIs(q: Queue, t: Task, role: Role)
    requires Inv(q) && t in q.phase && (q.phase[t] == Idle || (q.phase[t] == Looping(role) && !Blocked(q, t)))
    ensures t !in q.readers.waiting && t !in q.writers.waiting
    ensures Reads(role) ==> t !in q.writers.woken
    ensures !Reads(role) ==> t !in q.readers.woken
    ensures q.phase[t] == Idle ==> t !in q.readers.woken && t !in q.writers.woken
  {
  }

  lemma ReadKeeps(q: Queue, t: Task, role: Role, wait: bool)
    requires Inv(q) && Enabled(q, Attempt(t, role, wait)) && Reads(role)
    ensures Inv(Attempted(q, t, role, wait))
  {
    WhereIs(q, t, role);
    hide PartOk, WakeOne, Ran, Blocked, SectionOk;
    var free := q.length - q.count;
    var r := Attempted(q, t, role, wait);
    var ph := r.phase[t];
    RanPart(q.readers, q.phase, true, q.count, t, ph);
    OtherPart(q.writers, q.phase, false, free, t, ph);
    WokenPart(Ran(q.readers, t), r.phase, true, q.count - 1);
    WokenPart(q.writers, r.phase, false, free);
    SectionStays(q, t, role, wait);
  }

  lemma WriteKeeps(q: Queue, t: Task, role: Role, wait: bool)
    requires Inv(q) && Enabled(q, Attempt(t, role, wait)) && !Reads(role)
    ensures Inv(Attempted(q, t, role, wait))
  {
    WhereIs(q, t, role);
    hide PartOk, WakeOne, Ran, Blocked, SectionOk;
    var free := q.length - q.count;
    var r := Attempted(q, t, role, wait);
    var ph := r.phase[t];
    RanPart(q.writers, q.phase, false, free, t, ph);
    OtherPart(q.readers, q.phase, true, q.count, t, ph);
    WokenPart(q.readers, r.phase, true, q.count);
    FewerAvailable(WakeOne(q.readers), r.phase, true, q.count + 1, q.count);
    SectionStays(q, t, role, wait);
  }

  lemma AttemptKeeps(q: Queue, t: Task, role: Role, wait: bool)
    requires Inv(q) && Enabled(q, Attempt(t, role, wait))
    ensures Inv(Attempted(q, t, role, wait))
  {
    if Reads(role) {
      ReadKeeps(q, t, role, wait);
    } else {
      WriteKeeps(q, t, role, wait);
    }
  }

  lemma SectionStays(q: Queue, t: Task, role: Role, wait: bool)
    requires SectionOk(q) && q.section == Open
    ensures SectionOk(Attempted(q, t, role, wait))
  {
  }

  lemma IsrKeeps(q: Queue, st: Step)
    requires Inv(q) && Enabled(q, st) && Countable(q, st) && (st.IsrSend? || st.IsrReceive?)
    ensures Inv(Apply(q, st))
  {
    var r := Apply(q, st);
    if st.IsrSend? && (q.count < q.length || st.overwrite) {
      NotifyKeeps(q.readers, q.count);
      RolesShrink(q.readers, r.readers, q.phase, true);
    } else if st.IsrReceive? && q.count > 0 {
      NotifyKeeps(q.writers, q.length - q.count);
      RolesShrink(q.writers, r.writers, q.phase, false);
    }
  }

  lemma PlaceKeeps(q: Queue, p: nat)
    requires Inv(q) && Enabled(q, Place(p))
    ensures Inv(Placed(q, p))
  {
    var t := q.section.t;
    if Reads(q.phase[t].role) {
      JoinKeeps(q.readers, t, p, q.count);
    } else {
      JoinKeeps(q.writers, t, p, q.length - q.count);
    }
  }

  lemma UnlockingKeeps(q: Queue, st: Step)
    requires Inv(q) && Enabled(q, st) && (st.UnlockTx? || st.UnlockRx?)
    ensures Inv(Apply(q, st))
  {
    var r := Apply(q, st);
    if st.UnlockTx? {
      UnlockKeeps(q.readers, q.count);
      RolesShrink(q.readers, r.readers, q.phase, true);
    } else {
      UnlockKeeps(q.writers, q.length - q.count);
      RolesShrink(q.writers, r.writers, q.phase, false);
    }
  }

  lemma TimeoutKeeps(q: Queue, t: Task)
    requires Inv(q) && Enabled(q, Timeout(t))
    ensures Inv(Apply(q, Timeout(t)))
  {
    var r := Apply(q, Timeout(t));
    if t in q.readers.waiting {
      LeaveKeeps(q.readers, t, q.count);
      RolesShrink(q.readers, r.readers, q.phase, true);
    } else {
      LeaveKeeps(q.writers, t, q.length - q.count);
      RolesShrink(q.writers, r.writers, q.phase, false);
    }
  }

  lemma StepKeeps(q: Queue, st: Step)
    requires Inv(q) && Enabled(q, st) && Countable(q, st)
    ensures Inv(Apply(q, st))
  {
    match st
    case Attempt(t, role, wait) => AttemptKeeps(q, t, role, wait);
    case Enter(t) =>
    case Check(expired) =>
    case Place(p) => PlaceKeeps(q, p);
    case UnlockTx => UnlockingKeeps(q, st);
    case UnlockRx => UnlockingKeeps(q, st);
    case Timeout(t) => TimeoutKeeps(q, t);
    case IsrSend(_) => IsrKeeps(q, st);
    case IsrReceive => IsrKeeps(q, st);
  }

  // ----- runs -----

  ghost predicate Runnable(q: Queue, sts: seq<Step>)
    decreases |sts|
  {
    sts == [] || (Enabled(q, sts[0]) && Runnable(Apply(q, sts[0]), sts[1..]))
  }

  ghost function Run(q: Queue, sts: seq<Step>): Queue
    requires Runnable(q, sts)
    decreases |sts|
  {
    if sts == [] then q else Run(Apply(q, sts[0]), sts[1..])
  }

  /** No lock counter is bumped at its limit. */
  ghost predicate AllCountable(q: Queue, sts: seq<Step>)
    requires Runnable(q, sts)
    decreases |sts|
  {
    sts == [] || (Countable(q, sts[0]) && AllCountable(Apply(q, sts[0]), sts[1..]))
  }

  /** A new queue: empty, unlocked, and nobody has called it yet. */
  function Fresh(length: nat, tasks: set<Task>): (q: Queue)
    ensures Inv(q)
  {
    Queue(length, 0, Side([], {}, UNLOCKED), Side([], {}, UNLOCKED), map t | t in tasks :: Idle, Open)
  }

  lemma {:induction false} RunKeeps(q: Queue, sts: seq<Step>)
    requires Inv(q) && Runnable(q, sts) && AllCountable(q, sts)
    ensures Inv(Run(q, sts))
    decreases |sts|
  {
    hide Inv, Apply, Enabled;
    if sts != [] {
      StepKeeps(q, sts[0]);
      RunKeeps(Apply(q, sts[0]), sts[1..]);
    }
  }

  /**
   No wake-up is lost: in every reachable state the messages do not outnumber the woken readers
   that have not run yet and the events counted under the lock, and likewise for free places.
   */
  lemma NoLostWakeUp(length: nat, tasks: set<Task>, sts: seq<Step>)
    requires Runnable(Fresh(length, tasks), sts) && AllCountable(Fresh(length, tasks), sts)
    ensures var q := Run(Fresh(length, tasks), sts);
            && (q.readers.waiting != [] ==> q.count <= |q.readers.woken| + (if q.readers.lock > 0 then q.readers.lock else 0))
            && (q.writers.waiting != [] ==>
                  q.length - q.count <= |q.writers.woken| + (if q.writers.lock > 0 then q.writers.lock else 0))
  {
    RunKeeps(Fresh(length, tasks), sts);
  }

  /** Nothing is in flight: the queue is unlocked and every woken task has run. */
  predicate Quiet(q: Queue) { q.section == Open && q.readers.woken == {} && q.writers.woken == {} }

  /** Then blocked readers mean an empty queue and blocked writers a full one. */
  lemma QuietMeansNothingToDo(length: nat, tasks: set<Task>, sts: seq<Step>)
    requires Runnable(Fresh(length, tasks), sts) && AllCountable(Fresh(length, tasks), sts)
    ensures var q := Run(Fresh(length, tasks), sts);
            && (q.section == Open && q.readers.woken == {} && q.readers.waiting != [] ==> q.count == 0)
            && (q.section == Open && q.writers.woken == {} && q.writers.waiting != [] ==> q.count == q.length)
  {
    RunKeeps(Fresh(length, tasks), sts);
  }

  // ----- the limit of the lock counters -----

  /**
   A send counted under the lock is paid out in full at the unlock exactly if the counter was
   not at its limit; at the limit it turns negative and every counted wake-up is lost.
   */
  lemma CountedIsPaidExactly(s: Side)
    requires SideOk(s) && s.lock >= 0 && s.waiting != []
    ensures var left := |Unlock(Notify(s)).waiting|;
            |s.waiting| - left == (if s.lock + 1 < |s.waiting| then s.lock + 1 else |s.waiting|) <==> s.lock != INT8_MAX
    ensures s.lock == INT8_MAX ==> Unlock(Notify(s)).waiting == s.waiting
  {
    var n := Notify(s);
    if s.lock != INT8_MAX {
      WakeManyKeeps(n, n.lock);
    }
  }

  lemma RunTwice(q: Queue, a: seq<Step>, m: Queue, b: seq<Step>)
    requires Runnable(q, a) && Run(q, a) == m && Runnable(m, b)
    ensures Runnable(q, a + b) && Run(q, a + b) == Run(m, b)
    decreases |a|
  {
    if a == [] {
      assert a + b == b;
    } else {
      assert (a + b)[1..] == a[1..] + b;
      RunTwice(Apply(q, a[0]), a[1..], m, b);
    }
  }

  /** In interrupts, `n` messages come and go. */
  function ComeAndGo(n: nat): seq<Step> { if n == 0 then [] else [IsrSend(false), IsrReceive] + ComeAndGo(n - 1) }

  /** The state after task 0 has joined the waiting list of readers. */
  function OneWaits(): Queue {
    Fresh(2, {0, 1}).(readers := Side([0], {}, UNLOCKED), phase := map[0 := Looping(Receive), 1 := Idle])
  }

  lemma OneWaitsReached() returns (sts: seq<Step>)
    ensures Runnable(Fresh(2, {0, 1}), sts) && Run(Fresh(2, {0, 1}), sts) == OneWaits()
  {
    var sts1, m := LooksFirst();
    var sts2 := Joins(m);
    RunTwice(Fresh(2, {0, 1}), sts1, m, sts2);
    sts := sts1 + sts2;
  }

  lemma Joins(q: Queue) returns (sts: seq<Step>)
    requires q == OneWaits().(readers := Side([], {}, UNMODIFIED), writers := Side([], {}, UNMODIFIED), section := Confirmed(0),
                              phase := map[0 := Pausing(Receive), 1 := Idle])
    ensures Runnable(q, sts) && Run(q, sts) == OneWaits()
  {
    sts := [Place(0), UnlockTx, UnlockRx];
    var r := Apply(q, Place(0));
    assert r.readers == Side([0], {}, UNMODIFIED);
    assert Runnable(r, [UnlockTx, UnlockRx]);
  }

  lemma LooksFirst() returns (sts: seq<Step>, q: Queue)
    ensures Runnable(Fresh(2, {0, 1}), sts) && Run(Fresh(2, {0, 1}), sts) == q
    ensures q == OneWaits().(readers := Side([], {}, UNMODIFIED), writers := Side([], {}, UNMODIFIED), section := Confirmed(0),
                             phase := map[0 := Pausing(Receive), 1 := Idle])
  {
    sts := [Attempt(0, Receive, true), Enter(0), Check(false)];
    q := Run(Fresh(2, {0, 1}), sts);
  }

  /** Task 1 has looked too, and the queue is locked; `n` events have been counted on each side. */
  function Counted(n: int): Queue {
    OneWaits().(readers := Side([0], {}, n), writers := Side([], {}, n), section := Checking(1),
                phase := map[0 := Looping(Receive), 1 := Pausing(Receive)])
  }

  lemma {:induction false} CountsUp(k: nat, n: nat)
    requires k + n <= INT8_MAX
    ensures Runnable(Counted(k), ComeAndGo(n)) && Run(Counted(k), ComeAndGo(n)) == Counted(k + n)
    decreases n
  {
    if n > 0 {
      CountsUp(k + 1, n - 1);
      var once := [IsrSend(false), IsrReceive];
      assert Runnable(Counted(k), once) && Run(Counted(k), once) == Counted(k + 1);
      RunTwice(Counted(k), once, Counted(k + 1), ComeAndGo(n - 1));
    }
  }

  /**
   The limit can be reached.  A reader waits, another task locks the queue, and 128 messages come
   from interrupts, which take all but the last two away again; the task unlocks and receives one.
   Then nothing is in flight, a message is left, and the reader still waits for it.
   */
  lemma WakeUpIsLost() returns (sts: seq<Step>)
    ensures Runnable(Fresh(2, {0, 1}), sts) && !AllCountable(Fresh(2, {0, 1}), sts)
    ensures var q := Run(Fresh(2, {0, 1}), sts);
            && Quiet(q) && q.count == 1 && q.readers.waiting == [0] && q.writers.waiting == []
            && q.phase == map[0 := Looping(Receive), 1 := Idle]
  {
    var sts1 := OneWaitsReached();
    var locks := [Attempt(1, Receive, true), Enter(1)];
    assert Runnable(OneWaits(), locks) && Run(OneWaits(), locks) == Counted(0);
    CountsUp(0, 126);
    var sts2, m := Overflows();
    RunTwice(Counted(0), ComeAndGo(126), Counted(126), sts2);
    RunTwice(OneWaits(), locks, Counted(0), ComeAndGo(126) + sts2);
    RunTwice(Fresh(2, {0, 1}), sts1, OneWaits(), locks + (ComeAndGo(126) + sts2));
    sts := sts1 + (locks + (ComeAndGo(126) + sts2));
    if AllCountable(Fresh(2, {0, 1}), sts) {
      QuietMeansNothingToDo(2, {0, 1}, sts);
    }
  }

  lemma Overflows() returns (sts: seq<Step>, q: Queue)
    ensures Runnable(Counted(126), sts) && Run(Counted(126), sts) == q
    ensures Quiet(q) && q.count == 1 && q.readers.waiting == [0] && q.writers.waiting == []
    ensures q.phase == map[0 := Looping(Receive), 1 := Idle]
  {
    var sends, ends := [IsrSend(false), IsrSend(false), Check(false)], [UnlockTx, UnlockRx, Attempt(1, Receive, true)];
    var m := Run(Counted(126), sends);
    assert m.readers == Side([0], {}, -128);
    q := Run(m, ends);
    RunTwice(Counted(126), sends, m, ends);
    sts := sends + ends;
  }
  // ----- the object -----

  /** The fields of a queue that matter here, changed the way `queue.c` changes them. */
  class Events {
    const length: nat
    var messages: nat
    var txLock: int
    var rxLock: int
    var waitingToReceive: seq<Task>
    var waitingToSend: seq<Task>
    ghost var wokenReaders: set<Task>
    ghost var wokenWriters: set<Task>

    ghost function Readers(): Side
      reads this
    {
      Side(waitingToReceive, wokenReaders, txLock)
    }

    ghost function Writers(): Side
      reads this
    {
      Side(waitingToSend, wokenWriters, rxLock)
    }

    constructor (length: nat)
      ensures this.length == length && messages == 0
      ensures Readers() == Side([], {}, UNLOCKED) && Writers() == Side([], {}, UNLOCKED)
    {
      this.length := length;
      messages := 0;
      txLock := UNLOCKED;
      rxLock := UNLOCKED;
      waitingToReceive, waitingToSend := [], [];
      wokenReaders, wokenWriters := {}, {};
    }

    method WakeReader()
      modifies this`waitingToReceive, this`wokenReaders
      ensures Readers() == WakeOne(old(Readers()))
    {
      if waitingToReceive != [] {
        wokenReaders := wokenReaders + {waitingToReceive[0]};
        waitingToReceive := waitingToReceive[1..];
      }
    }

    method WakeWriter()
      modifies this`waitingToSend, this`wokenWriters
      ensures Writers() == WakeOne(old(Writers()))
    {
      if waitingToSend != [] {
        wokenWriters := wokenWriters + {waitingToSend[0]};
        waitingToSend := waitingToSend[1..];
      }
    }

    /** `prvLockQueue`. */
    method LockQueue()
      modifies this`txLock, this`rxLock
      ensures Readers() == Lock(old(Readers())) && Writers() == Lock(old(Writers()))
    {
      if rxLock == UNLOCKED {
        rxLock := UNMODIFIED;
      }
      if txLock == UNLOCKED {
        txLock := UNMODIFIED;
      }
    }

    /** The first critical section of `prvUnlockQueue`. */
    method UnlockTxSide()
      modifies this`txLock, this`waitingToReceive, this`wokenReaders
      ensures Readers() == Unlock(old(Readers()))
    {
      ghost var s := Readers();
      var counted := txLock;
      while counted > UNMODIFIED && waitingToReceive != []
        invariant txLock == s.lock && WakeMany(Readers(), counted) == WakeMany(s, s.lock)
        decreases |waitingToReceive|
      {
        WakeReader();
        counted := counted - 1;
      }
      txLock := UNLOCKED;
    }

    /** The second critical section of `prvUnlockQueue`. */
    method UnlockRxSide()
      modifies this`rxLock, this`waitingToSend, this`wokenWriters
      ensures Writers() == Unlock(old(Writers()))
    {
      ghost var s := Writers();
      var counted := rxLock;
      while counted > UNMODIFIED && waitingToSend != []
        invariant rxLock == s.lock && WakeMany(Writers(), counted) == WakeMany(s, s.lock)
        decreases |waitingToSend|
      {
        WakeWriter();
        counted := counted - 1;
      }
      rxLock := UNLOCKED;
    }

    /** `xQueueGenericSendFromISR`, and `xQueueGiveFromISR` when nothing is overwritten. */
    method SendFromIsr(overwrite: bool) returns (sent: bool)
      modifies this
      ensures sent == (old(messages) < length || overwrite)
      ensures messages == if sent then CountAfterSend(old(messages), overwrite) else old(messages)
      ensures Readers() == (if sent then Notify(old(Readers())) else old(Readers())) && Writers() == old(Writers())
    {
      sent := messages < length || overwrite;
      if sent {
        var counted := txLock;
        messages := CountAfterSend(messages, overwrite);
        if counted == UNLOCKED {
          WakeReader();
        } else {
          txLock := Bump(counted);
        }
      }
    }

    /** `xQueueReceiveFromISR`. */
    method ReceiveFromIsr() returns (received: bool)
      modifies this
      ensures received == (old(messages) > 0)
      ensures messages == if received then old(messages) - 1 else old(messages)
      ensures Writers() == (if received then Notify(old(Writers())) else old(Writers())) && Readers() == old(Readers())
    {
      received := messages > 0;
      if received {
        var counted := rxLock;
        messages := messages - 1;
        if counted == UNLOCKED {
          WakeWriter();
        } else {
          rxLock := Bump(counted);
        }
      }
    }
  }
}
