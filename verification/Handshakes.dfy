/** The handshake between the scheduler process and the threads of the traced
    process: a pair of semaphores for each thread, one semaphore for thread
    creation, and one mailbox in shared memory. Every semaphore operation and
    every write of the mailbox is a step of its own, and the steps of all
    parties interleave freely. */
module Handshakes {
  import opened ClockVectors
  import opened Limits

  /** What a thread announces in the mailbox. */
  datatype Op = Visible | Create(child: Tid) | Finish

  /** Where a thread is.

      Born       its wrapper has not registered it yet
      Parked     it is about to wait for the scheduler; finishing, when it has
                 announced that its routine returned
      Creating   it waits for the child to register
      Created    the child has registered, but is not announced
      Wrote      it has announced an operation, but not posted
      Leaving    it was woken after its routine returned
      WroteLast  it has announced its end, but not posted */
  datatype Pc = Unborn | Born | Parked(finishing: bool) | Running | Creating(child: Tid) | Created(child: Tid)
              | Wrote(op: Op) | Leaving | WroteLast | Gone

  /** The scheduler chooses, or has woken a thread and waits for it. */
  datatype SchedulerPc = Idle | Woke(t: Tid)

  datatype Mail = Empty | Mail(writer: Tid, op: Op)

  /** threadSem[p] wakes thread p, schedulerSem[p] tells the scheduler that p
      has announced an operation; known, pending and dead are the scheduler's
      own record of the threads. */
  datatype State = State(
    pc: seq<Pc>,
    threadSem: seq<nat>,
    schedulerSem: seq<nat>,
    createSem: nat,
    scheduler: SchedulerPc,
    mailbox: Mail,
    known: set<Tid>,
    pending: seq<Op>,
    dead: set<Tid>)

  datatype Step = SchedulerWakes(t: Tid) | SchedulerReads(t: Tid)
                | ThreadWakes(t: Tid) | Writes(t: Tid, op: Op) | Posts(t: Tid)
                | Spawns(t: Tid, u: Tid) | Registers(u: Tid) | Continues(t: Tid)

  ghost predicate Sized(s: State) {
    |s.pc| == |s.threadSem| == |s.schedulerSem| == |s.pending| == MAX_THREADS
  }

  /** The main thread waits to be started; it alone is known. */
  function Start(): State {
    State(
      seq(MAX_THREADS, p => if p == 0 then Parked(false) else Unborn),
      seq(MAX_THREADS, _ => 0), seq(MAX_THREADS, _ => 0), 0, Idle, Empty, {0},
      seq(MAX_THREADS, _ => Visible), {})
  }

  /** The next operation of a thread that announces op from pc. */
  predicate Announces(pc: Pc, op: Op) {
    || (pc == Running && !op.Create?)
    || (pc.Created? && op == Create(pc.child))
    || (pc == Leaving && op == Finish)
  }

  ghost predicate CanStep(s: State, step: Step)
    requires Sized(s)
  {
    match step
    case SchedulerWakes(t) => t < MAX_THREADS && s.scheduler == Idle && t in s.known && t !in s.dead && !(t == 0 && s.pending[t] == Finish)
    case SchedulerReads(t) => t < MAX_THREADS && s.scheduler == Woke(t) && s.schedulerSem[t] > 0
    case ThreadWakes(t) => t < MAX_THREADS && s.pc[t].Parked? && s.threadSem[t] > 0
    case Writes(t, op) => t < MAX_THREADS && Announces(s.pc[t], op)
    case Posts(t) => t < MAX_THREADS && (s.pc[t].Wrote? || s.pc[t] == WroteLast)
    case Spawns(t, u) => t < MAX_THREADS && u < MAX_THREADS && s.pc[t] == Running && s.pc[u] == Unborn
    case Registers(u) => u < MAX_THREADS && s.pc[u] == Born
    case Continues(t) => t < MAX_THREADS && s.pc[t].Creating? && s.createSem > 0
  }

  ghost function Take(s: State, step: Step): State
    requires Sized(s) && CanStep(s, step)
  {
    match step
    case SchedulerWakes(t) =>
      s.(threadSem := s.threadSem[t := s.threadSem[t] + 1], scheduler := Woke(t),
         dead := if s.pending[t] == Finish then s.dead + {t} else s.dead)
    case SchedulerReads(t) =>
      s.(schedulerSem := s.schedulerSem[t := s.schedulerSem[t] - 1], scheduler := Idle,
         pending := if s.mailbox.Mail? then s.pending[t := s.mailbox.op] else s.pending,
         known := if s.mailbox.Mail? && s.mailbox.op.Create? then s.known + {s.mailbox.op.child} else s.known)
    case ThreadWakes(t) =>
      s.(threadSem := s.threadSem[t := s.threadSem[t] - 1], pc := s.pc[t := if s.pc[t].finishing then Leaving else Running])
    case Writes(t, op) =>
      s.(mailbox := Mail(t, op), pc := s.pc[t := if s.pc[t] == Leaving then WroteLast else Wrote(op)])
    case Posts(t) =>
      s.(schedulerSem := s.schedulerSem[t := s.schedulerSem[t] + 1],
         pc := s.pc[t := if s.pc[t] == WroteLast then Gone else Parked(s.pc[t].op == Finish)])
    case Spawns(t, u) =>
      s.(pc := s.pc[t := Creating(u)][u := Born])
    case Registers(u) =>
      s.(pc := s.pc[u := Parked(false)], createSem := s.createSem + 1)
    case Continues(t) =>
      s.(pc := s.pc[t := Created(s.pc[t].child)], createSem := s.createSem - 1)
  }

  // ----- the invariant --------------------------------------------------

  ghost predicate Quiet(s: State, p: Tid)
    requires Sized(s) && p < MAX_THREADS
  {
    (s.pc[p] == Unborn || s.pc[p].Parked? || s.pc[p] == Gone) && s.threadSem[p] == 0 && s.schedulerSem[p] == 0
  }

  /** What the woken thread t has announced, once it has. */
  ghost predicate Announced(s: State, t: Tid, op: Op)
    requires Sized(s)
  {
    s.mailbox == Mail(t, op) && (op.Create? ==> op.child < MAX_THREADS && s.pc[op.child] == Parked(false))
  }

  /** The turn of thread t, from the wake-up to the post. */
  ghost predicate Turn(s: State, t: Tid)
    requires Sized(s) && t < MAX_THREADS
  {
    match s.pc[t]
    case Parked(finishing) =>
      && s.createSem == 0 && s.threadSem[t] + s.schedulerSem[t] == 1
      && (s.schedulerSem[t] == 1 ==> s.mailbox.Mail? && Announced(s, t, s.mailbox.op) && (s.mailbox.op == Finish <==> finishing))
    case Creating(u) =>
      && u < MAX_THREADS && s.threadSem[t] == s.schedulerSem[t] == 0
      && ((s.pc[u] == Born && s.createSem == 0) || (s.pc[u] == Parked(false) && s.createSem == 1))
    case Created(u) => u < MAX_THREADS && s.pc[u] == Parked(false) && s.createSem == 0 && s.threadSem[t] == s.schedulerSem[t] == 0
    case Wrote(op) => Announced(s, t, op) && s.createSem == 0 && s.threadSem[t] == s.schedulerSem[t] == 0
    case WroteLast => Announced(s, t, Finish) && s.createSem == 0 && s.threadSem[t] == s.schedulerSem[t] == 0
    case Gone => Announced(s, t, Finish) && s.createSem == 0 && s.threadSem[t] == 0 && s.schedulerSem[t] == 1
    case Running => s.createSem == 0 && s.threadSem[t] == s.schedulerSem[t] == 0
    case Leaving => s.createSem == 0 && s.threadSem[t] == s.schedulerSem[t] == 0
    case Unborn => false
    case Born => false
  }

  /** The child the woken thread is creating, while it registers. */
  ghost predicate Hatching(s: State, t: Tid, p: Tid)
    requires Sized(s) && t < MAX_THREADS && p < MAX_THREADS
  {
    s.pc[t] == Creating(p) && s.pc[p] == Born && s.threadSem[p] == s.schedulerSem[p] == 0
  }

  /** The scheduler has woken t, and t takes its last turn. */
  ghost predicate LastTurn(s: State, t: Tid)
    requires Sized(s) && t < MAX_THREADS
  {
    s.pc[t] == Leaving || s.pc[t] == WroteLast || s.pc[t] == Gone || (s.pc[t] == Parked(true) && s.threadSem[t] == 1)
  }

  /** The woken thread t has p as its child, and the scheduler has yet to read
      of it. */
  ghost predicate Announcing(s: State, t: Tid, p: Tid)
    requires Sized(s) && t < MAX_THREADS
  {
    match s.pc[t]
    case Creating(u) => u == p
    case Created(u) => u == p
    case Wrote(op) => op == Create(p)
    case Parked(_) => s.schedulerSem[t] == 1 && s.mailbox == Mail(t, Create(p))
    case _ => false
  }

  /** The scheduler's record of thread p is right. It knows every thread that
      has been born, except the child whose creation it is about to read. */
  ghost predicate Recorded(s: State, p: Tid)
    requires Sized(s) && p < MAX_THREADS
  {
    if p !in s.known then
      && p !in s.dead && s.pending[p] == Visible
      && (s.pc[p] != Unborn ==> s.scheduler.Woke? && s.scheduler.t < MAX_THREADS && Announcing(s, s.scheduler.t, p))
    else
      && s.pc[p] != Unborn && s.pc[p] != Born
      && if s.scheduler == Woke(p) then p in s.dead <==> LastTurn(s, p)
         else (p in s.dead <==> s.pc[p] == Gone) && (p !in s.dead ==> (s.pending[p] == Finish <==> s.pc[p] == Parked(true)))
  }

  ghost predicate Agreed(s: State) {
    && Sized(s)
    && (forall p: Tid | p < MAX_THREADS :: Recorded(s, p))
    && match s.scheduler
       case Idle => s.createSem == 0 && forall p: Tid | p < MAX_THREADS :: Quiet(s, p)
       case Woke(t) =>
         && t < MAX_THREADS && t in s.known && Turn(s, t)
         && forall p: Tid | p < MAX_THREADS && p != t :: Quiet(s, p) || Hatching(s, t, p)
  }

  lemma StartIsAgreed()
    ensures Agreed(Start())
  {
  }

  /** What Agreed says of one thread that is not the one woken. */
  lemma Others(s: State, p: Tid)
    requires Agreed(s) && p < MAX_THREADS
    ensures Recorded(s, p)
    ensures s.scheduler == Idle ==> Quiet(s, p)
    ensures s.scheduler.Woke? && s.scheduler.t != p ==> Quiet(s, p) || Hatching(s, s.scheduler.t, p)
  {
  }

  /** Only the woken thread, and the child it creates, can move. */
  lemma OnlyTheWokenMoves(s: State, step: Step)
    requires Agreed(s) && CanStep(s, step)
    ensures !step.SchedulerWakes? ==> s.scheduler.Woke?
    ensures match step
            case SchedulerWakes(t) => s.scheduler == Idle && s.pc[t].Parked?
            case Registers(u) => s.pc[s.scheduler.t] == Creating(u)
            case SchedulerReads(t) => s.scheduler == Woke(t) && (s.pc[t].Parked? || s.pc[t] == Gone)
            case _ => s.scheduler == Woke(step.t)
  {
    var p := if step.Registers? then step.u else step.t;
    Others(s, p);
  }

  lemma StepKeepsAgreed(s: State, step: Step)
    requires Agreed(s) && CanStep(s, step)
    ensures Agreed(Take(s, step))
  {
    OnlyTheWokenMoves(s, step);
    var s' := Take(s, step);
    forall p: Tid | p < MAX_THREADS
      ensures Recorded(s', p)
      ensures s'.scheduler == Idle ==> Quiet(s', p)
      ensures s'.scheduler.Woke? && s'.scheduler.t != p ==> Quiet(s', p) || Hatching(s', s'.scheduler.t, p)
    {
      Others(s, p);
    }
    var t := if step.SchedulerWakes? then step.t else s.scheduler.t;
    Others(s, t);
    if s'.scheduler.Woke? {
      assert t in s'.known;
      assert Turn(s', t);
    }
  }

  // ----- runs -----------------------------------------------------------

  ghost predicate IsRun(steps: seq<Step>, states: seq<State>) {
    && |states| == |steps| + 1 && states[0] == Start()
    && (forall i | 0 <= i < |states| :: Sized(states[i]))
    && forall i | 0 <= i < |steps| :: CanStep(states[i], steps[i]) && states[i + 1] == Take(states[i], steps[i])
  }

  lemma {:induction false} RunsAgree(steps: seq<Step>, states: seq<State>, i: nat)
    requires IsRun(steps, states) && i < |states|
    ensures Agreed(states[i])
  {
    hide Agreed, Take, CanStep;
    if i == 0 {
      StartIsAgreed();
    } else {
      RunsAgree(steps, states, i - 1);
      assert CanStep(states[i - 1], steps[i - 1]) && states[i] == Take(states[i - 1], steps[i - 1]);
      StepKeepsAgreed(states[i - 1], steps[i - 1]);
    }
  }

  /** No semaphore ever holds more than one. */
  lemma SemaphoresAreBinary(steps: seq<Step>, states: seq<State>, i: nat, p: Tid)
    requires IsRun(steps, states) && i < |states| && p < MAX_THREADS
    ensures states[i].threadSem[p] <= 1 && states[i].schedulerSem[p] <= 1 && states[i].createSem <= 1
  {
    RunsAgree(steps, states, i);
    var s := states[i];
    Others(s, p);
    if s.scheduler.Woke? {
      Others(s, s.scheduler.t);
      assert Turn(s, s.scheduler.t);
    }
  }

  /** When the scheduler chooses, its record is right: it knows exactly the
      threads that have been born, it has given up exactly those that are gone,
      and all others it knows wait for it. */
  lemma RecordIsRight(steps: seq<Step>, states: seq<State>, i: nat, p: Tid)
    requires IsRun(steps, states) && i < |states| && states[i].scheduler == Idle && p < MAX_THREADS
    ensures p in states[i].known <==> states[i].pc[p] != Unborn
    ensures p in states[i].dead <==> states[i].pc[p] == Gone
    ensures p in states[i].known && p !in states[i].dead ==> states[i].pc[p] == Parked(states[i].pending[p] == Finish)
  {
    RunsAgree(steps, states, i);
    Others(states[i], p);
  }

  /** So a thread can be woken then if and only if it has been born and is not
      gone, except the main thread once its routine has returned. */
  lemma WhoCanBeWoken(steps: seq<Step>, states: seq<State>, i: nat, p: Tid)
    requires IsRun(steps, states) && i < |states| && states[i].scheduler == Idle && p < MAX_THREADS
    ensures CanStep(states[i], SchedulerWakes(p))
            <==> states[i].pc[p] != Unborn && states[i].pc[p] != Gone && !(p == 0 && states[i].pc[p] == Parked(true))
  {
    RecordIsRight(steps, states, i, p);
  }

  ghost predicate WasSpawned(steps: seq<Step>, i: nat, p: Tid)
    requires i <= |steps|
  {
    exists j: nat :: j < i && steps[j].Spawns? && steps[j].u == p
  }

  ghost predicate HasEnded(steps: seq<Step>, states: seq<State>, i: nat, p: Tid)
    requires i <= |steps| && |states| == |steps| + 1
  {
    exists j: nat :: j < i && steps[j] == Posts(p) && |states[j].pc| == MAX_THREADS && p < MAX_THREADS && states[j].pc[p] == WroteLast
  }

  lemma BirthMoves(s: State, step: Step, p: Tid)
    requires Sized(s) && CanStep(s, step) && p < MAX_THREADS
    ensures Take(s, step).pc[p] != Unborn <==> s.pc[p] != Unborn || (step.Spawns? && step.u == p)
    ensures Take(s, step).pc[p] == Gone <==> s.pc[p] == Gone || (step == Posts(p) && s.pc[p] == WroteLast)
  {
  }

  /** A thread has been born when some thread has spawned it, and is gone when
      it has posted its end. */
  lemma {:induction false} BornIsSpawned(steps: seq<Step>, states: seq<State>, i: nat, p: Tid)
    requires IsRun(steps, states) && i < |states| && p < MAX_THREADS
    ensures states[i].pc[p] != Unborn <==> p == 0 || WasSpawned(steps, i, p)
    ensures states[i].pc[p] == Gone <==> HasEnded(steps, states, i, p)
  {
    hide CanStep, Take;
    if i > 0 {
      BornIsSpawned(steps, states, i - 1, p);
      assert CanStep(states[i - 1], steps[i - 1]) && states[i] == Take(states[i - 1], steps[i - 1]);
      BirthMoves(states[i - 1], steps[i - 1], p);
      assert steps[i - 1].Spawns? && steps[i - 1].u == p ==> WasSpawned(steps, i, p);
    }
  }

  /** By the steps alone: when the scheduler chooses, it knows the main thread
      and those that have been spawned, and no others; and it has given up those
      that have posted their end. */
  lemma SpawnedIsKnown(steps: seq<Step>, states: seq<State>, i: nat, p: Tid)
    requires IsRun(steps, states) && i < |states| && states[i].scheduler == Idle && p < MAX_THREADS
    ensures p in states[i].known <==> p == 0 || WasSpawned(steps, i, p)
    ensures p in states[i].dead <==> HasEnded(steps, states, i, p)
  {
    RecordIsRight(steps, states, i, p);
    BornIsSpawned(steps, states, i, p);
  }

  // ----- one write and one post a turn ----------------------------------

  /** How far the woken thread is: 0 nothing announced, 1 announced, 2 posted. */
  ghost function Phase(s: State, t: Tid): nat
    requires Sized(s) && t < MAX_THREADS
  {
    match s.pc[t]
    case Parked(_) => if s.schedulerSem[t] == 1 then 2 else 0
    case Gone => 2
    case Wrote(_) => 1
    case WroteLast => 1
    case _ => 0
  }

  ghost function Writings(steps: seq<Step>, from: nat, to: nat): nat
    requires from <= to <= |steps|
  {
    if from == to then 0 else Writings(steps, from, to - 1) + if steps[to - 1].Writes? then 1 else 0
  }

  ghost function Postings(steps: seq<Step>, from: nat, to: nat): nat
    requires from <= to <= |steps|
  {
    if from == to then 0 else Postings(steps, from, to - 1) + if steps[to - 1].Posts? then 1 else 0
  }

  /** Event w woke t, and t still has its turn at state i. */
  ghost predicate TurnSince(steps: seq<Step>, w: nat, i: nat, t: Tid)
    requires i <= |steps|
  {
    && w < i && steps[w] == SchedulerWakes(t)
    && forall j | w < j < i :: !steps[j].SchedulerWakes? && !steps[j].SchedulerReads?
  }

  lemma PhaseMoves(s: State, step: Step, t: Tid)
    requires Agreed(s) && CanStep(s, step) && s.scheduler == Woke(t) && t < MAX_THREADS
    ensures !step.SchedulerWakes?
    ensures step.SchedulerReads? ==> Phase(s, t) == 2
    ensures step.Writes? ==> step.t == t && Phase(s, t) == 0 && Phase(Take(s, step), t) == 1 && Take(s, step).mailbox == Mail(t, step.op)
    ensures step.Posts? ==> step.t == t && Phase(s, t) == 1 && Phase(Take(s, step), t) == 2 && Take(s, step).mailbox == s.mailbox
    ensures !step.Writes? && !step.Posts? && !step.SchedulerReads? ==> Phase(Take(s, step), t) == Phase(s, t) && Take(s, step).mailbox == s.mailbox
  {
    OnlyTheWokenMoves(s, step);
    Others(s, t);
    assert Turn(s, t);
    if step.Registers? {
      Others(s, step.u);
    }
  }

  lemma SchedulerMoves(s: State, step: Step)
    requires Sized(s) && CanStep(s, step)
    ensures Take(s, step).scheduler == if step.SchedulerReads? then Idle else if step.SchedulerWakes? then Woke(step.t) else s.scheduler
    ensures step.SchedulerWakes? ==> step.t < MAX_THREADS
  {
  }

  lemma WakingStartsTurn(s: State, t: Tid)
    requires Agreed(s) && CanStep(s, SchedulerWakes(t))
    ensures Phase(Take(s, SchedulerWakes(t)), t) == 0
  {
    Others(s, t);
  }

  /** In its turn a thread writes the mailbox once, then posts once, and nobody
      else does either. */
  lemma {:induction false} OneWriteOnePost(steps: seq<Step>, states: seq<State>, i: nat) returns (w: nat)
    requires IsRun(steps, states) && i < |states| && states[i].scheduler.Woke?
    ensures states[i].scheduler.t < MAX_THREADS && TurnSince(steps, w, i, states[i].scheduler.t)
    ensures var phase := Phase(states[i], states[i].scheduler.t);
            && Writings(steps, w + 1, i) == (if phase >= 1 then 1 else 0)
            && Postings(steps, w + 1, i) == (if phase == 2 then 1 else 0)
    ensures Phase(states[i], states[i].scheduler.t) >= 1 ==>
              states[i].mailbox.Mail? && exists j :: w < j < i && steps[j] == Writes(states[i].scheduler.t, states[i].mailbox.op)
  {
    hide Agreed, Phase, Take, CanStep;
    var s, step, t := states[i - 1], steps[i - 1], states[i].scheduler.t;
    RunsAgree(steps, states, i - 1);
    assert CanStep(s, step) && states[i] == Take(s, step);
    SchedulerMoves(s, step);
    if step.SchedulerWakes? {
      w := i - 1;
      WakingStartsTurn(s, t);
    } else {
      OnlyTheWokenMoves(s, step);
      assert s.scheduler == Woke(t);
      w := OneWriteOnePost(steps, states, i - 1);
      WokenIsThread(s);
      PhaseMoves(s, step, t);
      if Phase(s, t) >= 1 {
        var j :| w < j < i - 1 && steps[j] == Writes(t, s.mailbox.op);
        assert states[i].mailbox == s.mailbox;
      } else if step.Writes? {
        assert steps[i - 1] == Writes(t, states[i].mailbox.op);
      }
    }
  }

  /** The mailbox is written only by the thread the scheduler last woke, once,
      and before that thread posts. */
  lemma WriterWasWoken(steps: seq<Step>, states: seq<State>, i: nat) returns (w: nat)
    requires IsRun(steps, states) && i < |steps| && steps[i].Writes?
    ensures TurnSince(steps, w, i, steps[i].t)
    ensures Writings(steps, w + 1, i) == 0 && Postings(steps, w + 1, i) == 0
  {
    hide Agreed, Phase;
    RunsAgree(steps, states, i);
    assert CanStep(states[i], steps[i]);
    OnlyTheWokenMoves(states[i], steps[i]);
    w := OneWriteOnePost(steps, states, i);
    PhaseMoves(states[i], steps[i], states[i].scheduler.t);
  }

  /** What the scheduler reads is what the thread it woke wrote since. */
  lemma ReadSeesTheWrite(steps: seq<Step>, states: seq<State>, i: nat) returns (w: nat, j: nat)
    requires IsRun(steps, states) && i < |steps| && steps[i].SchedulerReads?
    ensures TurnSince(steps, w, i, steps[i].t) && w < j < i
    ensures states[i].mailbox.Mail? && states[i].mailbox.writer == steps[i].t && steps[j] == Writes(steps[i].t, states[i].mailbox.op)
    ensures Writings(steps, w + 1, i) == 1 && Postings(steps, w + 1, i) == 1
  {
    hide Phase;
    RunsAgree(steps, states, i);
    var s, t := states[i], steps[i].t;
    assert CanStep(s, steps[i]);
    OnlyTheWokenMoves(s, steps[i]);
    w := OneWriteOnePost(steps, states, i);
    PhaseMoves(s, steps[i], t);
    j :| w < j < i && steps[j] == Writes(t, s.mailbox.op);
    Others(s, t);
    assert Turn(s, t);
  }

  /** What thread p announced last among the first i steps. */
  ghost function LastAnnounced(steps: seq<Step>, i: nat, p: Tid): Op
    requires i <= |steps|
  {
    if i == 0 then Visible
    else if steps[i - 1].Writes? && steps[i - 1].t == p then steps[i - 1].op
    else LastAnnounced(steps, i - 1, p)
  }

  /** The operation recorded as pending for thread p, counting what is in the
      mailbox but not read. */
  ghost function Told(s: State, p: Tid): Op
    requires Sized(s) && p < MAX_THREADS
  {
    if s.scheduler == Woke(p) && Phase(s, p) >= 1 && s.mailbox.Mail? then s.mailbox.op else s.pending[p]
  }

  lemma ToldMoves(s: State, step: Step, p: Tid)
    requires Agreed(s) && CanStep(s, step) && p < MAX_THREADS
    ensures Told(Take(s, step), p) == if step.Writes? && step.t == p then step.op else Told(s, p)
  {
    hide Phase;
    OnlyTheWokenMoves(s, step);
    SchedulerMoves(s, step);
    if s.scheduler.Woke? {
      WokenIsThread(s);
      PhaseMoves(s, step, s.scheduler.t);
      assert Turn(s, s.scheduler.t);
      if step.SchedulerReads? {
        Others(s, s.scheduler.t);
      }
    } else {
      WakingStartsTurn(s, step.t);
    }
  }

  /** The operation the scheduler holds as a thread's next one is the last the
      thread announced. */
  lemma {:induction false} PendingIsLastAnnounced(steps: seq<Step>, states: seq<State>, i: nat, p: Tid)
    requires IsRun(steps, states) && i < |states| && p < MAX_THREADS
    ensures Told(states[i], p) == LastAnnounced(steps, i, p)
    ensures states[i].scheduler == Idle ==> states[i].pending[p] == LastAnnounced(steps, i, p)
  {
    hide Agreed, Take, CanStep;
    if i > 0 {
      PendingIsLastAnnounced(steps, states, i - 1, p);
      RunsAgree(steps, states, i - 1);
      assert CanStep(states[i - 1], steps[i - 1]) && states[i] == Take(states[i - 1], steps[i - 1]);
      ToldMoves(states[i - 1], steps[i - 1], p);
    }
  }

  ghost predicate Delivered(s: State)
    requires Sized(s)
  {
    s.scheduler.Woke? ==> s.scheduler.t < MAX_THREADS && Phase(s, s.scheduler.t) == 2
  }

  /** After a post nobody writes the mailbox until the scheduler wakes a
      thread again. */
  lemma {:induction false} NoWriteBeforeNextWake(steps: seq<Step>, states: seq<State>, j: nat, i: nat)
    requires IsRun(steps, states) && j < i < |states| && steps[j].Posts?
    requires forall k | j < k < i :: !steps[k].SchedulerWakes?
    ensures Delivered(states[i])
    ensures i < |steps| ==> !steps[i].Writes?
    decreases i
  {
    hide Agreed, Phase, Take, CanStep;
    var s, step := states[i - 1], steps[i - 1];
    RunsAgree(steps, states, i - 1);
    RunsAgree(steps, states, i);
    assert CanStep(s, step) && states[i] == Take(s, step);
    OnlyTheWokenMoves(s, step);
    WokenIsThread(s);
    if i - 1 > j {
      NoWriteBeforeNextWake(steps, states, j, i - 1);
    }
    if s.scheduler.Woke? {
      PhaseMoves(s, step, s.scheduler.t);
      SchedulerMoves(s, step);
    }
    if i < |steps| && steps[i].Writes? {
      assert CanStep(states[i], steps[i]);
      OnlyTheWokenMoves(states[i], steps[i]);
      PhaseMoves(states[i], steps[i], states[i].scheduler.t);
      assert false;
    }
  }

  lemma WokenIsThread(s: State)
    requires Agreed(s)
    ensures s.scheduler.Woke? ==> s.scheduler.t < MAX_THREADS
  {
  }

  // ----- every turn ends ------------------------------------------------

  const LONGEST_TURN: nat := 8

  /** Steps left in the turn, at most. */
  ghost function Rank(s: State): nat
    requires Sized(s)
  {
    if s.scheduler == Idle || s.scheduler.t >= MAX_THREADS then 0
    else
      match s.pc[s.scheduler.t]
      case Parked(_) => if s.schedulerSem[s.scheduler.t] == 1 then 1 else LONGEST_TURN
      case Gone => 1
      case Wrote(_) => 2
      case WroteLast => 2
      case Leaving => 3
      case Created(_) => 3
      case Creating(_) => if s.createSem == 1 then 4 else 5
      case _ => 6
  }

  /** A turn is never stuck, and each of its steps brings its end nearer. */
  lemma TurnsProgress(s: State, step: Step)
    requires Agreed(s) && s.scheduler.Woke?
    ensures exists next :: CanStep(s, next)
    ensures CanStep(s, step) ==> Rank(Take(s, step)) < Rank(s)
    ensures Rank(s) > 0
  {
    var t := s.scheduler.t;
    Others(s, t);
    assert Turn(s, t);
    if CanStep(s, step) {
      OnlyTheWokenMoves(s, step);
    }
    var next := match s.pc[t]
      case Parked(_) => if s.schedulerSem[t] == 1 then SchedulerReads(t) else ThreadWakes(t)
      case Gone => SchedulerReads(t)
      case Wrote(_) => Posts(t)
      case WroteLast => Posts(t)
      case Leaving => Writes(t, Finish)
      case Created(u) => Writes(t, Create(u))
      case Creating(u) => if s.createSem == 1 then Continues(t) else Registers(u)
      case _ => Writes(t, Visible);
    assert CanStep(s, next);
  }

  /** However the steps interleave, the scheduler is waiting for nobody at
      most eight steps after it woke a thread. */
  lemma {:induction false} TurnsEnd(steps: seq<Step>, states: seq<State>, w: nat, i: nat)
    requires IsRun(steps, states) && w < i < |states| && steps[w].SchedulerWakes?
    requires forall k | w < k < i :: states[k].scheduler.Woke?
    ensures Rank(states[i]) + (i - w - 1) <= LONGEST_TURN
    ensures states[i].scheduler.Woke? ==> i - w <= LONGEST_TURN
    decreases i
  {
    hide Agreed, Take, CanStep, Rank;
    RunsAgree(steps, states, i - 1);
    RunsAgree(steps, states, i);
    assert CanStep(states[i - 1], steps[i - 1]) && states[i] == Take(states[i - 1], steps[i - 1]);
    if states[i].scheduler.Woke? {
      TurnsProgress(states[i], steps[w]);
    }
    if i - 1 == w {
      RankIsBounded(states[i]);
    } else {
      TurnsEnd(steps, states, w, i - 1);
      TurnsProgress(states[i - 1], steps[i - 1]);
    }
  }

  lemma RankIsBounded(s: State)
    requires Sized(s)
    ensures Rank(s) <= LONGEST_TURN
  {
  }
}
