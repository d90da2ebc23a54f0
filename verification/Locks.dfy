/** The four mutexes of Server and identity.Service under every interleaving of one Run, its
    Service goroutine, and any number of threads calling IsRunning, AddServer, Stop, Enroll
    or asking for the MQTT status. Each thread is the rest of its program; a step runs
    one atomic instruction of one thread. */
module Locks {

  datatype Lock = Running | Servers | Legacy | Settings

  function Rank(l: Lock): nat {
    match l case Running => 0 case Servers => 1 case Legacy => 2 case Settings => 3
  }

  type Tid = nat
  type AddOn = nat

  datatype Instr =
    | Acquire(l: Lock)
    | Release(l: Lock)
    | Local                        // own computation, or an outside call that returns
    | CallStart(srv: AddOn)
    | Append(srv: AddOn)           // s.otherServers = append(...)
    | StopAll                      // Stop's loop over the list, then emptying it
    | StopFrom(i: nat)             // that loop in progress, at index i
    | CloseLegacy
    | WriteLegacy(nonNil: bool)    // s.legacy = legacy, nil or not
    | AttachHandler                // natsServer.SetLegacy(&s.legacy)
    | UseHandler                   // dereference of s.legacy
    | Post                         // an enrolment was issued and its credentials stored
    | Tear                         // storing broke off: the credentials file no longer decodes
    | Forget                       // an unregister message removes the credentials file, under no lock
    | StartService
    | AwaitTick
    | AwaitQuit
    | AwaitService

  datatype Cond = CredentialsCached | HandlerAttached

  datatype Prog =
    | End
    | Do(i: Instr, next: Prog)
    | If(c: Cond, yes: Prog, no: Prog)
    | Choose(left: Prog, right: Prog)     // decided by an outside call
    | Repeat(body: Prog, next: Prog)      // any number of times

  /** Run p, then q. */
  function Then(p: Prog, q: Prog): Prog {
    match p
    case End => q
    case Do(i, n) => Do(i, Then(n, q))
    case If(c, y, n) => If(c, Then(y, q), Then(n, q))
    case Choose(a, b) => Choose(Then(a, q), Then(b, q))
    case Repeat(b, n) => Repeat(b, Then(n, q))
  }

  // ---------------------------------------------------------------- the programs; k is what follows

  /** One instruction inside one critical section. */
  function Guarded(l: Lock, i: Instr, k: Prog): Prog {
    Do(Acquire(l), Do(i, Do(Release(l), k)))
  }

  function AddServerCode(srv: AddOn, k: Prog): Prog {
    Do(Acquire(Servers), Do(CallStart(srv), Do(Append(srv), Do(Release(Servers), k))))
  }

  /** What follows the loop of a Stop. */
  function Closing(k: Prog): Prog {
    Guarded(Legacy, CloseLegacy, Do(Release(Servers), k))
  }

  function StopCode(k: Prog): Prog {
    Do(Acquire(Servers), Do(StopAll, Closing(k)))
  }

  /** createLegacySubscriber, then the write of s.legacy. */
  function StoreHandler(nonNil: bool, k: Prog): Prog {
    Do(Local, Guarded(Legacy, WriteLegacy(nonNil), k))
  }

  /** No connection: the handler is cleared. No subscription: it is kept. */
  function ConnectFails(k: Prog): Prog {
    Choose(StoreHandler(false, k), StoreHandler(true, k))
  }

  /** getCredentials: the credentials file is read in a critical section of its own. A file that decodes
      is a hit if it can be read at all, which the step decides. */
  function Lookup(hit: Prog, miss: Prog): Prog {
    Do(Acquire(Settings), If(CredentialsCached, Do(Release(Settings), hit), Do(Release(Settings), Do(Local, miss))))
  }

  /** The second section requests an enrolment and stores it, or breaks the file, or leaves it as it was: when no
      enrolment is issued, cannot be serialised or the file cannot be opened. */
  function Requested(k: Prog): Prog {
    Choose(Guarded(Settings, Local, k), Choose(Guarded(Settings, Post, k), Guarded(Settings, Tear, k)))
  }

  /** An Enroll that returns nil. */
  function EnrollSucceeds(k: Prog): Prog {
    Lookup(StoreHandler(true, k), Requested(StoreHandler(true, k)))
  }

  /** An Enroll that returns an error: in the connection after a cache hit; before the request; in the
      request or in storing credentials or device data; or in the connection. */
  function EnrollFails(k: Prog): Prog {
    Lookup(ConnectFails(k), MissFails(k))
  }

  function MissFails(k: Prog): Prog {
    Choose(k, Requested(Choose(k, ConnectFails(k))))
  }

  /** From the end of the enrolment loop to the end of Run; tickers are created under the servers lock. */
  function ServeCode(k: Prog): Prog {
    Do(AttachHandler, Guarded(Servers, Local, Do(StartService, Do(AwaitQuit, StopCode(k)))))
  }

  /** Ticks that fail, any number of them, and one that does not. */
  function LoopCode(k: Prog): Prog {
    Repeat(Do(AwaitTick, EnrollFails(End)), Do(AwaitTick, EnrollSucceeds(k)))
  }

  function RunCode(nats: AddOn, k: Prog): Prog {
    Guarded(Running, Local, Do(CallStart(nats), AddServerCode(nats, Guarded(Servers, Local, LoopCode(ServeCode(k))))))
  }

  const ServiceCode := Do(AwaitService, Repeat(Do(AwaitTick, Do(UseHandler, End)), End))

  /** Unregister: the message handler's removal of the files; the process may live on after it. */
  datatype Op = IsRunning | AddServer(srv: AddOn) | Stop | Enroll | Status | Unregister

  function Code(op: Op): Prog {
    match op
    case IsRunning => Guarded(Running, Local, End)
    case AddServer(srv) => AddServerCode(srv, End)
    case Stop => StopCode(End)
    case Enroll => Choose(EnrollFails(End), EnrollSucceeds(End))
    case Status => If(HandlerAttached, Do(UseHandler, End), End)
    case Unregister => Do(Forget, End)
  }

  // ---------------------------------------------------------------- states and steps

  /** legacy: the handler is not nil; writes counts how often it was assigned, posts the enrolments stored.
      cached: the credentials file decodes. addLog and stopLog are histories of completed appends and of Stop calls
      on add-on servers, closings of Stop's looks at the handler: whether there was one to close. */
  datatype State = State(
    owner: map<Lock, Tid>, threads: map<Tid, Prog>,
    others: seq<AddOn>, legacy: bool, writes: nat, attached: bool, serving: bool, cached: bool, posts: nat,
    addLog: seq<AddOn>, stopLog: seq<AddOn>, closings: seq<bool>)

  const RunThread: Tid := 0
  const ServiceThread: Tid := 1

  /** The process starts with or without stored credentials. */
  function Initial(nats: AddOn, cached: bool): State {
    State(map[], map[RunThread := RunCode(nats, End), ServiceThread := ServiceCode],
          [], false, 0, false, false, cached, 0, [], [], [])
  }

  predicate Enabled(s: State, t: Tid) {
    t in s.threads && !s.threads[t].End? &&
    (s.threads[t].Do? ==>
      && (s.threads[t].i.Acquire? ==> s.threads[t].i.l !in s.owner)
      && (s.threads[t].i.AwaitService? ==> s.serving))
  }

  function Holds(s: State, c: Cond): bool {
    match c case CredentialsCached => s.cached case HandlerAttached => s.attached
  }

  /** What an instruction does to the shared fields. */
  function Effect(s: State, i: Instr): State {
    match i
    case Append(srv) => s.(others := s.others + [srv], addLog := s.addLog + [srv])
    case StopFrom(j) =>
      if j < |s.others| then s.(stopLog := s.stopLog + [s.others[j]]) else s.(others := [])
    case CloseLegacy => s.(closings := s.closings + [s.legacy])
    case WriteLegacy(nonNil) => s.(legacy := nonNil, writes := s.writes + 1)
    case AttachHandler => s.(attached := true)
    case Post => s.(cached := true, posts := s.posts + 1)
    case Tear => s.(cached := false)
    case Forget => s.(cached := false)
    case StartService => s.(serving := true)
    case _ => s
  }

  function OwnerAfter(owner: map<Lock, Tid>, i: Instr, t: Tid): map<Lock, Tid> {
    match i
    case Acquire(l) => owner[l := t]
    case Release(l) => owner - {l}
    case _ => owner
  }

  /** Whether the first branch is taken: a credentials file that decodes must also be readable. */
  predicate Takes(s: State, c: Cond, pick: bool) {
    Holds(s, c) && (c == CredentialsCached ==> pick)
  }

  /** The rest of the program; pick decides what an outside call would. */
  function Rest(s: State, p: Prog, pick: bool): Prog {
    match p
    case End => End
    case Do(i, n) =>
      if i.StopAll? then Do(StopFrom(0), n)
      else if i.StopFrom? && i.i < |s.others| then Do(StopFrom(i.i + 1), n)
      else n
    case If(c, y, n) => if Takes(s, c, pick) then y else n
    case Choose(a, b) => if pick then a else b
    case Repeat(b, n) => if pick then Then(b, p) else n
  }

  /** One step of thread t. */
  function Step(s: State, t: Tid, pick: bool): State
    requires Enabled(s, t)
  {
    var p := s.threads[t];
    var threads := s.threads[t := Rest(s, p, pick)];
    if p.Do? then Effect(s, p.i).(owner := OwnerAfter(s.owner, p.i, t), threads := threads)
    else s.(threads := threads)
  }

  /** A caller arrives on a thread of its own, or a thread that can move does. */
  datatype Event = Arrive(t: Tid, op: Op) | Move(t: Tid, pick: bool)

  function Next(s: State, e: Event): State {
    match e
    case Arrive(t, op) => if t in s.threads then s else s.(threads := s.threads[t := Code(op)])
    case Move(t, pick) => if Enabled(s, t) then Step(s, t, pick) else s
  }

  function Run(s: State, es: seq<Event>): State
    decreases |es|
  {
    if es == [] then s else Run(Next(s, es[0]), es[1..])
  }

  lemma {:induction false} RunConcat(s: State, a: seq<Event>, b: seq<Event>)
    ensures Run(s, a + b) == Run(Run(s, a), b)
    decreases |a|
  {
    if a == [] {
      assert a + b == b;
    } else {
      assert (a + b)[0] == a[0] && (a + b)[1..] == a[1..] + b;
      RunConcat(Next(s, a[0]), a[1..], b);
    }
  }

  // ---------------------------------------------------------------- lock discipline

  function HeldIn(owner: map<Lock, Tid>, t: Tid): set<Lock> {
    set l | l in owner && owner[l] == t
  }

  function Held(s: State, t: Tid): set<Lock> {
    HeldIn(s.owner, t)
  }

  function LocksAfter(held: set<Lock>, i: Instr): set<Lock> {
    match i
    case Acquire(l) => held + {l}
    case Release(l) => held - {l}
    case _ => held
  }

  /** Locks are taken in rising rank, none twice, and released by their holder; shared fields are
      written under their lock; waiting for the outside is done with no lock at all. */
  predicate Allowed(i: Instr, held: set<Lock>) {
    match i
    case Acquire(l) => forall h :: h in held ==> Rank(h) < Rank(l)
    case Release(l) => l in held
    case Append(_) => Servers in held
    case StopAll => Servers in held
    case StopFrom(_) => Servers in held
    case WriteLegacy(_) => Legacy in held
    case CloseLegacy => Legacy in held && Servers in held
    case Post => Settings in held
    case Tear => Settings in held
    case AwaitTick => held == {}
    case AwaitQuit => held == {}
    case AwaitService => held == {}
    case _ => true
  }

  /** From these locks on, every instruction of p is allowed, p ends with no lock, and
      no loop of a Stop to come has started. */
  predicate Disciplined(p: Prog, held: set<Lock>) {
    match p
    case End => held == {}
    case Do(i, n) => Allowed(i, held) && !i.StopFrom? && Disciplined(n, LocksAfter(held, i))
    case If(_, y, n) => Disciplined(y, held) && Disciplined(n, held)
    case Choose(a, b) => Disciplined(a, held) && Disciplined(b, held)
    case Repeat(b, n) => held == {} && Disciplined(b, {}) && Disciplined(n, {})
  }

  lemma {:induction false} DisciplinedThen(p: Prog, q: Prog, held: set<Lock>)
    requires Disciplined(p, held) && Disciplined(q, {})
    ensures Disciplined(Then(p, q), held)
  {
    match p
    case End =>
    case Do(i, n) => DisciplinedThen(n, q, LocksAfter(held, i));
    case If(_, y, n) => DisciplinedThen(y, q, held); DisciplinedThen(n, q, held);
    case Choose(a, b) => DisciplinedThen(a, q, held); DisciplinedThen(b, q, held);
    case Repeat(_, n) => DisciplinedThen(n, q, {});
  }

  lemma GuardedDisciplined(l: Lock, i: Instr, k: Prog, held: set<Lock>)
    requires Disciplined(k, held) && Allowed(Acquire(l), held) && Allowed(i, held + {l})
    requires !i.Acquire? && !i.Release? && !i.StopFrom?
    ensures Disciplined(Guarded(l, i, k), held)
  {
    assert held + {l} - {l} == held;
    assert Disciplined(Do(Release(l), k), held + {l});
  }

  lemma ConnectFailsDisciplined(k: Prog)
    requires Disciplined(k, {})
    ensures Disciplined(StoreHandler(true, k), {}) && Disciplined(ConnectFails(k), {})
  {
    GuardedDisciplined(Legacy, WriteLegacy(true), k, {});
    GuardedDisciplined(Legacy, WriteLegacy(false), k, {});
  }

  lemma LookupDisciplined(hit: Prog, miss: Prog)
    requires Disciplined(hit, {}) && Disciplined(miss, {})
    ensures Disciplined(Lookup(hit, miss), {})
  {
    var held: set<Lock> := {} + {Settings};
    assert held - {Settings} == {};
    assert Disciplined(Do(Release(Settings), hit), held);
    assert Disciplined(Do(Release(Settings), Do(Local, miss)), held);
  }

  lemma RequestedDisciplined(k: Prog)
    requires Disciplined(k, {})
    ensures Disciplined(Requested(k), {})
  {
    GuardedDisciplined(Settings, Local, k, {});
    GuardedDisciplined(Settings, Post, k, {});
    GuardedDisciplined(Settings, Tear, k, {});
  }

  lemma EnrollSucceedsDisciplined(k: Prog)
    requires Disciplined(k, {})
    ensures Disciplined(EnrollSucceeds(k), {})
  {
    ConnectFailsDisciplined(k);
    RequestedDisciplined(StoreHandler(true, k));
    LookupDisciplined(StoreHandler(true, k), Requested(StoreHandler(true, k)));
  }

  lemma EnrollFailsDisciplined(k: Prog)
    requires Disciplined(k, {})
    ensures Disciplined(EnrollFails(k), {})
  {
    ConnectFailsDisciplined(k);
    var rest := Choose(k, ConnectFails(k));
    RequestedDisciplined(rest);
    LookupDisciplined(ConnectFails(k), Choose(k, Requested(rest)));
  }

  lemma AddServerDisciplined(srv: AddOn, k: Prog)
    requires Disciplined(k, {})
    ensures Disciplined(AddServerCode(srv, k), {})
  {
    var held: set<Lock> := {} + {Servers};
    assert held - {Servers} == {};
    assert Disciplined(Do(Append(srv), Do(Release(Servers), k)), held);
  }

  lemma StopDisciplined(k: Prog)
    requires Disciplined(k, {})
    ensures Disciplined(StopCode(k), {})
  {
    var held: set<Lock> := {} + {Servers};
    assert held - {Servers} == {};
    assert Disciplined(Do(Release(Servers), k), held);
    GuardedDisciplined(Legacy, CloseLegacy, Do(Release(Servers), k), held);
  }

  lemma ServeDisciplined(k: Prog)
    requires Disciplined(k, {})
    ensures Disciplined(ServeCode(k), {})
  {
    StopDisciplined(k);
    var quit := Do(StartService, Do(AwaitQuit, StopCode(k)));
    assert Disciplined(quit, {});
    GuardedDisciplined(Servers, Local, quit, {});
  }

  lemma LoopDisciplined(k: Prog)
    requires Disciplined(k, {})
    ensures Disciplined(LoopCode(k), {})
  {
    EnrollSucceedsDisciplined(k);
    EnrollFailsDisciplined(End);
  }

  /** Run keeps the discipline. */
  lemma RunDisciplined(nats: AddOn, k: Prog)
    requires Disciplined(k, {})
    ensures Disciplined(RunCode(nats, k), {})
  {
    ServeDisciplined(k);
    LoopDisciplined(ServeCode(k));
    StartDisciplined(nats, LoopCode(ServeCode(k)));
  }

  lemma StartDisciplined(nats: AddOn, loop: Prog)
    requires Disciplined(loop, {})
    ensures Disciplined(Guarded(Running, Local,
              Do(CallStart(nats), AddServerCode(nats, Guarded(Servers, Local, loop)))), {})
  {
    GuardedDisciplined(Servers, Local, loop, {});
    AddServerDisciplined(nats, Guarded(Servers, Local, loop));
    GuardedDisciplined(Running, Local, Do(CallStart(nats), AddServerCode(nats, Guarded(Servers, Local, loop))), {});
  }

  /** Every operation keeps the discipline: locks are taken in the order running, servers, legacy,
      settings, and no thread takes a mutex it holds. */
  lemma CodeDisciplined(op: Op)
    ensures Disciplined(Code(op), {})
  {
    match op
    case IsRunning => GuardedDisciplined(Running, Local, End, {});
    case AddServer(srv) => AddServerDisciplined(srv, End);
    case Stop => StopDisciplined(End);
    case Enroll =>
      EnrollFailsDisciplined(End);
      EnrollSucceedsDisciplined(End);
    case Status =>
    case Unregister =>
  }

  predicate Stopping(p: Prog) {
    p.Do? && p.i.StopFrom?
  }

  /** Disciplined, with a Stop loop perhaps under way. */
  predicate Proceeds(p: Prog, held: set<Lock>) {
    if Stopping(p) then Servers in held && Disciplined(p.next, held) else Disciplined(p, held)
  }

  predicate Orderly(s: State) {
    && (forall t :: t in s.threads ==> Proceeds(s.threads[t], Held(s, t)))
    && (forall l :: l in s.owner ==> s.owner[l] in s.threads)
  }

  lemma ArriveOrderly(s: State, t: Tid, op: Op)
    requires Orderly(s) && t !in s.threads
    ensures Orderly(Next(s, Arrive(t, op)))
  {
    var s' := Next(s, Arrive(t, op));
    CodeDisciplined(op);
    assert Held(s, t) == {};
    assert !Stopping(Code(op));
    forall u | u in s'.threads ensures Proceeds(s'.threads[u], Held(s', u)) {
      assert Held(s', u) == Held(s, u);
    }
  }

  /** What an instruction does to the locks of the thread that runs it, and to those of the others. */
  lemma HeldAfter(owner: map<Lock, Tid>, i: Instr, t: Tid)
    requires i.Acquire? ==> i.l !in owner
    requires i.Release? ==> i.l in HeldIn(owner, t)
    ensures HeldIn(OwnerAfter(owner, i, t), t) == LocksAfter(HeldIn(owner, t), i)
    ensures forall u :: u != t ==> HeldIn(OwnerAfter(owner, i, t), u) == HeldIn(owner, u)
  {
  }

  lemma RestProceeds(s: State, p: Prog, held: set<Lock>, pick: bool)
    requires Proceeds(p, held) && !p.End?
    ensures Proceeds(Rest(s, p, pick), if p.Do? then LocksAfter(held, p.i) else held)
    ensures Stopping(Rest(s, p, pick)) ==> p.Do? && (p.i.StopAll? || p.i.StopFrom?)
  {
    match p
    case Do(i, n) => assert Disciplined(n, LocksAfter(held, i));
    case If(c, y, n) => assert Disciplined(y, held) && Disciplined(n, held);
    case Choose(a, b) => assert Disciplined(a, held) && Disciplined(b, held);
    case Repeat(b, n) =>
      DisciplinedThen(b, p, held);
      assert Disciplined(Then(b, p), held) && Disciplined(n, held);
  }

  lemma MoveOrderly(s: State, t: Tid, pick: bool)
    requires Orderly(s) && Enabled(s, t)
    ensures Orderly(Step(s, t, pick))
  {
    var p := s.threads[t];
    assert Proceeds(p, Held(s, t));
    if p.Do? {
      HeldAfter(s.owner, p.i, t);
    }
    RestProceeds(s, p, Held(s, t), pick);
  }

  lemma OrderlyStep(s: State, e: Event)
    requires Orderly(s)
    ensures Orderly(Next(s, e))
  {
    match e
    case Arrive(t, op) =>
      if t !in s.threads {
        ArriveOrderly(s, t, op);
      }
    case Move(t, pick) =>
      if Enabled(s, t) {
        MoveOrderly(s, t, pick);
      }
  }

  lemma {:induction false} OrderlyRun(s: State, es: seq<Event>)
    requires Orderly(s)
    ensures Orderly(Run(s, es))
    decreases |es|
  {
    if es != [] {
      OrderlyStep(s, es[0]);
      OrderlyRun(Next(s, es[0]), es[1..]);
    }
  }

  lemma InitialOrderly(nats: AddOn, cached: bool)
    ensures Orderly(Initial(nats, cached))
  {
    RunDisciplined(nats, End);
    assert Disciplined(ServiceCode, {});
    var s := Initial(nats, cached);
    forall t | t in s.threads ensures Proceeds(s.threads[t], Held(s, t)) {
      assert Held(s, t) == {};
    }
  }

  // ---------------------------------------------------------------- deadlock freedom

  /** The thread waits for a mutex somebody holds. */
  predicate Waiting(s: State, t: Tid) {
    t in s.threads && s.threads[t].Do? && s.threads[t].i.Acquire? && s.threads[t].i.l in s.owner
  }

  predicate Awaits(p: Prog) {
    p.Do? && (p.i == AwaitTick || p.i == AwaitQuit || p.i == AwaitService)
  }

  lemma SomeLock(s: State)
    requires s.owner != map[]
    ensures Running in s.owner || Servers in s.owner || Legacy in s.owner || Settings in s.owner
  {
    var m :| m in s.owner;
    match m case Running => case Servers => case Legacy => case Settings =>
  }

  /** The lock of highest rank that anybody holds. */
  function Highest(s: State): (l: Lock)
    requires s.owner != map[]
    ensures l in s.owner && forall m :: m in s.owner ==> Rank(m) <= Rank(l)
  {
    SomeLock(s);
    if Settings in s.owner then Settings
    else if Legacy in s.owner then Legacy
    else if Servers in s.owner then Servers
    else Running
  }

  /** Its owner can always move, without waiting for anything outside. */
  lemma HighestMoves(s: State)
    requires Orderly(s) && s.owner != map[]
    ensures var t := s.owner[Highest(s)];
            && t in s.threads && Enabled(s, t) && !Awaits(s.threads[t]) && !s.threads[t].Repeat?
            && Highest(s) in Held(s, t) && Proceeds(s.threads[t], Held(s, t))
  {
    var t := s.owner[Highest(s)];
    assert Highest(s) in Held(s, t);
    assert Proceeds(s.threads[t], Held(s, t));
  }

  /** Deadlock freedom: in every reachable state in which a thread waits for a mutex, a thread
      that holds one can take a step of its own. */
  lemma NoDeadlock(nats: AddOn, cached: bool, es: seq<Event>, t: Tid)
    ensures var s := Run(Initial(nats, cached), es);
            Waiting(s, t) ==>
              exists u :: u in s.threads && Held(s, u) != {} && Enabled(s, u) && !Awaits(s.threads[u])
  {
    InitialOrderly(nats, cached);
    OrderlyRun(Initial(nats, cached), es);
    var s := Run(Initial(nats, cached), es);
    if Waiting(s, t) {
      HighestMoves(s);
    }
  }

  function Size(p: Prog): nat {
    match p
    case End => 0
    case Do(i, n) => (if i.StopAll? then 2 else 1) + Size(n)
    case If(_, y, n) => 1 + Size(y) + Size(n)
    case Choose(a, b) => 1 + Size(a) + Size(b)
    case Repeat(b, n) => 1 + Size(b) + Size(n)
  }

  ghost function Sum(ts: set<Tid>, threads: map<Tid, Prog>): nat
    requires forall t :: t in ts ==> t in threads
  {
    if ts == {} then 0
    else
      var t :| t in ts;
      Size(threads[t]) + Sum(ts - {t}, threads)
  }

  lemma {:induction false} SumSplit(ts: set<Tid>, threads: map<Tid, Prog>, t: Tid)
    requires t in ts && forall u :: u in ts ==> u in threads
    ensures Sum(ts, threads) == Size(threads[t]) + Sum(ts - {t}, threads)
  {
    var u :| u in ts && Sum(ts, threads) == Size(threads[u]) + Sum(ts - {u}, threads);
    if u != t {
      SumSplit(ts - {u}, threads, t);
      SumSplit(ts - {t}, threads, u);
      assert ts - {u} - {t} == ts - {t} - {u};
    }
  }

  lemma {:induction false} SumSame(ts: set<Tid>, a: map<Tid, Prog>, b: map<Tid, Prog>)
    requires forall t :: t in ts ==> t in a && t in b && a[t] == b[t]
    ensures Sum(ts, a) == Sum(ts, b)
  {
    if ts != {} {
      var t :| t in ts;
      SumSame(ts - {t}, a, b);
      SumSplit(ts, a, t);
      SumSplit(ts, b, t);
    }
  }

  ghost function Holders(s: State): set<Tid> {
    set l | l in s.owner :: s.owner[l]
  }

  /** What the threads inside critical sections have left to do. */
  ghost function Work(s: State): nat
    requires Orderly(s)
  {
    Sum(Holders(s), s.threads)
  }

  /** How far the Stop in progress, if any, has got through the list. */
  function Stopped(s: State): nat {
    if Servers in s.owner && s.owner[Servers] in s.threads && Stopping(s.threads[s.owner[Servers]])
    then s.threads[s.owner[Servers]].i.i else 0
  }

  function LeftToStop(s: State): nat {
    if Stopped(s) <= |s.others| then |s.others| - Stopped(s) else 0
  }

  /** The step's own thread gets smaller, or its Stop loop gets nearer to the end. */
  lemma StepShrinks(s: State, t: Tid)
    requires Enabled(s, t) && !s.threads[t].Repeat?
    requires Stopping(s.threads[t]) ==> Servers in s.owner && s.owner[Servers] == t
    ensures var s' := Step(s, t, true);
            || Size(s'.threads[t]) < Size(s.threads[t])
            || (Size(s'.threads[t]) == Size(s.threads[t]) && Size(s.threads[t]) > 0
                && s'.owner == s.owner && LeftToStop(s') < LeftToStop(s))
  {
  }

  lemma HoldersAfter(s: State, t: Tid)
    requires Enabled(s, t) && t in Holders(s)
    requires s.threads[t].Do? && s.threads[t].i.Release? ==> s.threads[t].i.l in Held(s, t)
    ensures Holders(Step(s, t, true)) - {t} == Holders(s) - {t}
  {
    var s' := Step(s, t, true);
    forall u | u in Holders(s) && u != t ensures u in Holders(s') {
      var l :| l in s.owner && s.owner[l] == u;
      assert l in s'.owner && s'.owner[l] == u;
    }
    forall u | u in Holders(s') && u != t ensures u in Holders(s) {
      var l :| l in s'.owner && s'.owner[l] == u;
      assert l in s.owner && s.owner[l] == u;
    }
  }

  /** The work of the others stays as it is. */
  lemma WorkAfter(s: State, t: Tid)
    requires Orderly(s) && Enabled(s, t) && t in Holders(s)
    requires s.threads[t].Do? && s.threads[t].i.Release? ==> s.threads[t].i.l in Held(s, t)
    requires Orderly(Step(s, t, true))
    ensures var s' := Step(s, t, true);
            Work(s') == Work(s) - Size(s.threads[t]) + if t in Holders(s') then Size(s'.threads[t]) else 0
  {
    var s' := Step(s, t, true);
    var rest := Holders(s) - {t};
    HoldersAfter(s, t);
    SumSplit(Holders(s), s.threads, t);
    SumSame(rest, s.threads, s'.threads);
    if t in Holders(s') {
      SumSplit(Holders(s'), s'.threads, t);
    } else {
      assert Holders(s') == rest;
    }
  }

  /** A step of the owner of the highest lock brings the end of the critical sections nearer. */
  lemma StepTowardsFree(s: State)
    requires Orderly(s) && s.owner != map[]
    ensures var s' := Next(s, Move(s.owner[Highest(s)], true));
            && Orderly(s')
            && (Work(s') < Work(s) || (Work(s') == Work(s) && LeftToStop(s') < LeftToStop(s)))
  {
    HighestMoves(s);
    var t := s.owner[Highest(s)];
    MoveOrderly(s, t, true);
    assert t in Holders(s);
    StepShrinks(s, t);
    WorkAfter(s, t);
  }

  /** A thread outside every critical section is not touched by others' steps. */
  lemma OutsideUntouched(s: State, t: Tid, u: Tid)
    requires Orderly(s) && Enabled(s, t) && u in s.threads && u != t
    ensures var s' := Step(s, t, true);
            u in s'.threads && s'.threads[u] == s.threads[u] && Held(s', u) == Held(s, u)
  {
    var p := s.threads[t];
    assert Proceeds(p, Held(s, t));
    if p.Do? {
      HeldAfter(s.owner, p.i, t);
    }
  }

  predicate OnlyMoves(es: seq<Event>) {
    forall i :: 0 <= i < |es| ==> es[i].Move?
  }

  lemma Drain(s: State) returns (es: seq<Event>)
    requires Orderly(s)
    ensures OnlyMoves(es) && Run(s, es).owner == map[]
    ensures forall u :: u in s.threads && Held(s, u) == {}
              ==> u in Run(s, es).threads && Run(s, es).threads[u] == s.threads[u]
    decreases Work(s), LeftToStop(s)
  {
    if s.owner == map[] {
      es := [];
    } else {
      StepTowardsFree(s);
      HighestMoves(s);
      var t := s.owner[Highest(s)];
      var e := Move(t, true);
      var more := Drain(Next(s, e));
      forall u | u in s.threads && Held(s, u) == {}
        ensures u in Next(s, e).threads && Next(s, e).threads[u] == s.threads[u] && Held(Next(s, e), u) == {}
      {
        OutsideUntouched(s, t, u);
      }
      es := [e] + more;
      assert es[1..] == more;
    }
  }

  /** From every reachable state the threads inside critical sections can leave them, with nobody
      arriving and no thread outside one touched; then every waiting thread has its mutex free. */
  lemma LocksComeFree(nats: AddOn, cached: bool, es: seq<Event>)
    ensures exists more ::
              && OnlyMoves(more)
              && var s, s' := Run(Initial(nats, cached), es), Run(Initial(nats, cached), es + more);
                 && s'.owner == map[]
                 && forall u :: u in s.threads && Held(s, u) == {}
                      ==> u in s'.threads && s'.threads[u] == s.threads[u] && (Waiting(s, u) ==> Enabled(s', u))
  {
    InitialOrderly(nats, cached);
    OrderlyRun(Initial(nats, cached), es);
    var s := Run(Initial(nats, cached), es);
    var more := Drain(s);
    RunConcat(Initial(nats, cached), es, more);
  }

  /** An add-on Start that does not return blocks the rest: as long as that thread does not move,
      nobody else appends a server or stops one, whatever arrives. */
  lemma {:induction false} BlockedStartBlocksServers(s: State, t: Tid, es: seq<Event>)
    requires Orderly(s) && t in s.threads && Servers in s.owner && s.owner[Servers] == t
    requires forall i :: 0 <= i < |es| ==> es[i].Move? ==> es[i].t != t
    ensures var s' := Run(s, es);
            && Servers in s'.owner && s'.owner[Servers] == t
            && s'.others == s.others && s'.stopLog == s.stopLog && s'.addLog == s.addLog
    decreases |es|
  {
    if es != [] {
      OrderlyStep(s, es[0]);
      OthersKeptOut(s, t, es[0]);
      BlockedStartBlocksServers(Next(s, es[0]), t, es[1..]);
    }
  }

  lemma ClosingsKept(s: State, i: Instr)
    requires i != CloseLegacy
    ensures Effect(s, i).closings == s.closings
  {
  }

  lemma OthersKeptOut(s: State, t: Tid, e: Event)
    requires Orderly(s) && t in s.threads && Servers in s.owner && s.owner[Servers] == t
    requires e.Move? ==> e.t != t
    ensures var s' := Next(s, e);
            && t in s'.threads && Servers in s'.owner && s'.owner[Servers] == t
            && s'.others == s.others && s'.stopLog == s.stopLog && s'.addLog == s.addLog
            && s'.closings == s.closings
  {
    if e.Move? && Enabled(s, e.t) {
      var p := s.threads[e.t];
      assert Proceeds(p, Held(s, e.t)) && Servers !in Held(s, e.t);
      if p.Do? {
        ListsKept(s, p.i);
        ClosingsKept(s, p.i);
      }
    }
  }

  // ---------------------------------------------------------------- conservation of servers

  predicate Conserved(s: State) {
    && Stopped(s) <= |s.others|
    && s.addLog == s.stopLog + s.others[Stopped(s)..]
  }

  lemma ListsKept(s: State, i: Instr)
    requires !i.StopFrom? && !i.Append?
    ensures var e := Effect(s, i);
            e.others == s.others && e.stopLog == s.stopLog && e.addLog == s.addLog
  {
  }

  /** A step outside Append and Stop's loop changes neither list nor progress. */
  lemma StoppedKept(s: State, t: Tid, pick: bool)
    requires Orderly(s) && Enabled(s, t)
    requires !Stopping(s.threads[t]) && !(s.threads[t].Do? && s.threads[t].i.Append?)
    ensures var s' := Step(s, t, pick);
            && s'.others == s.others && s'.stopLog == s.stopLog && s'.addLog == s.addLog
            && Stopped(s') == Stopped(s)
  {
    var p := s.threads[t];
    assert Proceeds(p, Held(s, t));
    RestProceeds(s, p, Held(s, t), pick);
    if p.Do? {
      HeldAfter(s.owner, p.i, t);
      ListsKept(s, p.i);
    }
    var s' := Step(s, t, pick);
    assert s'.threads[t] == Rest(s, p, pick);
    if Servers in s.owner && s.owner[Servers] != t {
      assert s'.threads[s.owner[Servers]] == s.threads[s.owner[Servers]];
    }
  }

  lemma AppendConserved(s: State, t: Tid, pick: bool)
    requires Orderly(s) && Conserved(s) && Enabled(s, t)
    requires s.threads[t].Do? && s.threads[t].i.Append?
    ensures Conserved(Step(s, t, pick))
  {
    var p := s.threads[t];
    assert Proceeds(p, Held(s, t)) && Servers in Held(s, t);
    RestProceeds(s, p, Held(s, t), pick);
    var s' := Step(s, t, pick);
    assert Stopped(s) == 0 && Stopped(s') == 0;
    assert (s.others + [p.i.srv])[0..] == s.others[0..] + [p.i.srv];
  }

  lemma NextStopped(log: seq<AddOn>, list: seq<AddOn>, i: nat)
    requires i < |list|
    ensures log + [list[i]] + list[i + 1..] == log + list[i..]
    ensures log + list[..i] + [list[i]] == log + list[..i + 1]
  {
    assert list[i..] == [list[i]] + list[i + 1..];
    assert list[..i + 1] == list[..i] + [list[i]];
  }

  lemma StopConserved(s: State, t: Tid, pick: bool)
    requires Orderly(s) && Conserved(s) && Enabled(s, t) && Stopping(s.threads[t])
    ensures Conserved(Step(s, t, pick))
  {
    var p := s.threads[t];
    assert Proceeds(p, Held(s, t)) && Servers in Held(s, t);
    var s' := Step(s, t, pick);
    var j := p.i.i;
    assert Stopped(s) == j;
    assert s'.owner == s.owner;
    if j < |s.others| {
      assert s'.threads[t] == Do(StopFrom(j + 1), p.next);
      NextStopped(s.stopLog, s.others, j);
    } else {
      assert s'.threads[t] == p.next && !Stopping(p.next);
      assert s'.others == [] && Stopped(s') == 0;
    }
  }

  lemma ConservedStep(s: State, e: Event)
    requires Orderly(s) && Conserved(s)
    ensures Conserved(Next(s, e))
  {
    if e.Move? && Enabled(s, e.t) {
      var p := s.threads[e.t];
      if Stopping(p) {
        StopConserved(s, e.t, e.pick);
      } else if p.Do? && p.i.Append? {
        AppendConserved(s, e.t, e.pick);
      } else {
        StoppedKept(s, e.t, e.pick);
      }
    }
  }

  lemma {:induction false} ConservedRun(s: State, es: seq<Event>)
    requires Orderly(s) && Conserved(s)
    ensures Orderly(Run(s, es)) && Conserved(Run(s, es))
    decreases |es|
  {
    if es != [] {
      OrderlyStep(s, es[0]);
      ConservedStep(s, es[0]);
      ConservedRun(Next(s, es[0]), es[1..]);
    }
  }

  /** Over every interleaving, servers are stopped in exactly the order in which they were added, and
      those added but not yet stopped are the rest of the list: with nobody inside a servers section,
      the whole list; so for each server, completed adds equal stops plus its remaining multiplicity. */
  lemma ServersConserved(nats: AddOn, cached: bool, es: seq<Event>)
    ensures var s := Run(Initial(nats, cached), es);
            && Stopped(s) <= |s.others|
            && s.addLog == s.stopLog + s.others[Stopped(s)..]
            && (Servers !in s.owner ==> s.addLog == s.stopLog + s.others)
            && forall x :: multiset(s.addLog)[x] == multiset(s.stopLog)[x] + multiset(s.others[Stopped(s)..])[x]
  {
    InitialOrderly(nats, cached);
    ConservedRun(Initial(nats, cached), es);
  }

  // ---------------------------------------------------------------- the critical section of Stop

  /** The points of a Stop that has emptied the list: before and after its look at the handler. */
  predicate BeforeClose(p: Prog, k: Prog) {
    p == Closing(k) || p == Do(CloseLegacy, Do(Release(Legacy), Do(Release(Servers), k)))
  }

  predicate AfterClose(p: Prog, k: Prog) {
    p == Do(Release(Legacy), Do(Release(Servers), k)) || p == Do(Release(Servers), k)
  }

  /** What a Stop finds: the list, the log of servers stopped before, and the looks at the handler before. */
  datatype Found = Found(list: seq<AddOn>, log: seq<AddOn>, closings: seq<bool>)

  function Finds(s: State): Found {
    Found(s.others, s.stopLog, s.closings)
  }

  /** One more look at the handler has been taken. */
  predicate Looked(s: State, f: Found) {
    |s.closings| == |f.closings| + 1 && s.closings[..|f.closings|] == f.closings
  }

  /** Thread t is inside the section of a Stop that found f. */
  predicate Section(s: State, t: Tid, k: Prog, f: Found) {
    && t in s.threads && Servers in s.owner && s.owner[Servers] == t
    && var p := s.threads[t];
       || (p == Do(StopAll, Closing(k)) && Finds(s) == f)
       || (Stopping(p) && p.next == Closing(k) && p.i.i <= |f.list|
           && s.others == f.list && s.stopLog == f.log + f.list[..p.i.i] && s.closings == f.closings)
       || (BeforeClose(p, k) && s.others == [] && s.stopLog == f.log + f.list && s.closings == f.closings)
       || (AfterClose(p, k) && s.others == [] && s.stopLog == f.log + f.list && Looked(s, f))
  }

  /** The section is over: all of the list was stopped, in order, none is left, and the handler was looked at once. */
  predicate Done(s: State, t: Tid, k: Prog, f: Found) {
    && t in s.threads && s.threads[t] == k && Servers !in s.owner
    && s.others == [] && s.stopLog == f.log + f.list && Looked(s, f)
  }

  lemma LoopMoves(s: State, t: Tid, k: Prog, f: Found, pick: bool)
    requires Section(s, t, k, f) && Enabled(s, t)
    requires s.threads[t] == Do(StopAll, Closing(k)) || Stopping(s.threads[t])
    ensures Section(Step(s, t, pick), t, k, f)
  {
    var p, s' := s.threads[t], Step(s, t, pick);
    assert s'.owner == s.owner && s'.closings == s.closings;
    if p.i.StopAll? {
      assert s'.threads[t] == Do(StopFrom(0), Closing(k));
      assert f.log + f.list[..0] == f.log;
    } else if p.i.i < |f.list| {
      assert s'.threads[t] == Do(StopFrom(p.i.i + 1), Closing(k));
      NextStopped(f.log, f.list, p.i.i);
    } else {
      assert s'.threads[t] == Closing(k);
      assert f.list[..p.i.i] == f.list;
    }
  }

  lemma ClosingMoves(s: State, t: Tid, k: Prog, f: Found, pick: bool)
    requires Section(s, t, k, f) && Enabled(s, t)
    requires BeforeClose(s.threads[t], k) || AfterClose(s.threads[t], k)
    ensures var s' := Step(s, t, pick);
            && (if s.threads[t] == Do(Release(Servers), k) then Done(s', t, k, f) else Section(s', t, k, f))
            && (s.threads[t].i == CloseLegacy ==> s'.closings == f.closings + [s.legacy])
  {
    var p, s' := s.threads[t], Step(s, t, pick);
    assert s'.threads[t] == p.next && s'.others == s.others && s'.stopLog == s.stopLog;
    assert s'.closings == if p.i == CloseLegacy then s.closings + [s.legacy] else s.closings;
  }

  /** Whatever happens next, the section goes on, undisturbed, or its own last step ends it. */
  lemma SectionStep(s: State, e: Event, t: Tid, k: Prog, f: Found)
    requires Orderly(s) && Section(s, t, k, f)
    ensures Section(Next(s, e), t, k, f) || Done(Next(s, e), t, k, f)
  {
    if e.Move? && e.t == t {
      if Enabled(s, t) {
        if BeforeClose(s.threads[t], k) || AfterClose(s.threads[t], k) {
          ClosingMoves(s, t, k, f, e.pick);
        } else {
          LoopMoves(s, t, k, f, e.pick);
        }
      }
    } else {
      OthersKeptOut(s, t, e);
      assert Next(s, e).threads[t] == s.threads[t];
    }
  }

  /** The section is over after the first n of the events, and not before. */
  predicate EndsAfter(s: State, es: seq<Event>, n: nat, t: Tid, k: Prog, f: Found) {
    && n <= |es| && Done(Run(s, es[..n]), t, k, f)
    && forall m :: 0 <= m < n ==> Section(Run(s, es[..m]), t, k, f)
  }

  lemma {:induction false} SectionRuns(s: State, es: seq<Event>, t: Tid, k: Prog, f: Found)
    requires Orderly(s) && Section(s, t, k, f)
    ensures Section(Run(s, es), t, k, f) || exists n :: EndsAfter(s, es, n, t, k, f)
    decreases |es|
  {
    if es != [] {
      var s' := Next(s, es[0]);
      OrderlyStep(s, es[0]);
      SectionStep(s, es[0], t, k, f);
      if Done(s', t, k, f) {
        OneStep(s, es);
        assert EndsAfter(s, es, 1, t, k, f);
      } else {
        SectionRuns(s', es[1..], t, k, f);
        if n :| EndsAfter(s', es[1..], n, t, k, f) {
          EndsLater(s, es, n, t, k, f);
        }
      }
    }
  }

  lemma OneStep(s: State, es: seq<Event>)
    requires es != []
    ensures Run(s, es[..1]) == Next(s, es[0]) && Run(s, es[..0]) == s
  {
    assert es[..1][0] == es[0] && es[..1][1..] == [];
  }

  lemma EndsLater(s: State, es: seq<Event>, n: nat, t: Tid, k: Prog, f: Found)
    requires es != [] && Section(s, t, k, f)
    requires EndsAfter(Next(s, es[0]), es[1..], n, t, k, f)
    ensures EndsAfter(s, es, n + 1, t, k, f)
  {
    forall m | 0 < m <= n + 1 ensures Run(s, es[..m]) == Run(Next(s, es[0]), es[1..][..m - 1]) {
      assert es[..m][0] == es[0] && es[..m][1..] == es[1..][..m - 1];
    }
    assert es[..0] == [];
  }

  /** Thread t is about to run the loop of a Stop, in its critical section. */
  predicate Begins(s: State, t: Tid, k: Prog) {
    t in s.threads && s.threads[t] == Do(StopAll, Closing(k))
  }

  lemma BeginsSection(s: State, t: Tid, k: Prog)
    requires Orderly(s) && Begins(s, t, k)
    ensures Section(s, t, k, Finds(s))
  {
    assert Proceeds(s.threads[t], Held(s, t)) && Servers in Held(s, t);
  }

  /** Over every interleaving, the critical section of every Stop stops the servers it found, each once for each time
      it was listed and in order, with nobody adding or stopping any meanwhile, looks at the handler once,
      and leaves the list empty: after any further events it is still under way, or such was its end. */
  lemma StopSection(nats: AddOn, cached: bool, es: seq<Event>, t: Tid, k: Prog, more: seq<Event>)
    requires Begins(Run(Initial(nats, cached), es), t, k)
    ensures var s := Run(Initial(nats, cached), es);
            Section(Run(s, more), t, k, Finds(s))
            || exists n :: EndsAfter(s, more, n, t, k, Finds(s))
  {
    InitialOrderly(nats, cached);
    OrderlyRun(Initial(nats, cached), es);
    var s := Run(Initial(nats, cached), es);
    BeginsSection(s, t, k);
    SectionRuns(s, more, t, k, Finds(s));
  }

  /** A call of Stop begins such a section as soon as it gets the lock. */
  lemma StopBegins(s: State, t: Tid, k: Prog, pick: bool)
    requires t in s.threads && s.threads[t] == StopCode(k) && Enabled(s, t)
    ensures Begins(Step(s, t, pick), t, k)
    ensures Code(Stop) == StopCode(End) && Finds(Step(s, t, pick)) == Finds(s)
  {
  }

  /** A status request uses the handler if and only if the NATS server has its pointer. */
  lemma StatusUsesExact(s: State, t: Tid, pick: bool)
    requires t in s.threads && s.threads[t] == Code(Status)
    ensures Step(s, t, pick).threads[t] == (if s.attached then Do(UseHandler, End) else End)
  {
  }

  /** And from there it can always be brought to its end, with nobody arriving. */
  lemma StopSectionEnds(nats: AddOn, cached: bool, es: seq<Event>, t: Tid, k: Prog)
    requires Begins(Run(Initial(nats, cached), es), t, k)
    ensures var s := Run(Initial(nats, cached), es);
            exists more, n :: OnlyMoves(more) && EndsAfter(s, more, n, t, k, Finds(s))
  {
    InitialOrderly(nats, cached);
    OrderlyRun(Initial(nats, cached), es);
    var s := Run(Initial(nats, cached), es);
    var more := Drain(s);
    StopSection(nats, cached, es, t, k, more);
    assert !Section(Run(s, more), t, k, Finds(s));
  }
}
