/** Who may write s.legacy and enrol: with Run as the only caller of Enroll, over every interleaving, nobody
    dereferences a nil handler, the handler is never replaced, and at most one enrolment is stored;
    allowing one outside caller of Enroll breaks this, and nothing else does. */
module HandlerSafety {
  import opened Locks
  import opened Programs

  /** What Run knows of s.legacy: nothing yet, set and not yet handed out, or handed out. */
  datatype Know = Unset | Set | Exposed

  predicate NoExpose(p: Prog) {
    match p
    case End => true
    case Do(i, n) => i != AttachHandler && i != StartService && NoExpose(n)
    case If(_, y, n) => NoExpose(y) && NoExpose(n)
    case Choose(a, b) => NoExpose(a) && NoExpose(b)
    case Repeat(b, n) => NoExpose(b) && NoExpose(n)
  }

  function KnowAfter(i: Instr, k: Know): Know {
    if i.WriteLegacy? then (if i.nonNil then Set else Unset)
    else if i == AttachHandler || i == StartService then Exposed
    else k
  }

  /** The handler is handed out only when set and not written afterwards; the credentials file is written
      only after having looked it up in vain (cold). */
  predicate Permitted(i: Instr, k: Know, cold: bool) {
    && (i.WriteLegacy? ==> k != Exposed)
    && (i == AttachHandler || i == StartService || i == UseHandler ==> k != Unset)
    && (i == Post || i == Tear ==> cold)
    && i != Forget
  }

  /** From this knowledge on, all instructions of p are permitted. */
  predicate Flow(p: Prog, k: Know, cold: bool) {
    match p
    case End => true
    case Do(i, n) => Permitted(i, k, cold) && Flow(n, KnowAfter(i, k), cold && i != Post)
    case If(c, y, n) =>
      Flow(y, k, cold && c != CredentialsCached) && Flow(n, k, cold || c == CredentialsCached)
    case Choose(a, b) => Flow(a, k, cold) && Flow(b, k, cold)
    case Repeat(b, n) => k != Exposed && NoExpose(b) && Flow(b, Unset, false) && Flow(n, Unset, false)
  }

  /** What a guest may do: it neither writes the handler, nor hands it out, nor enrols; and in a steady run it does
      not remove the credentials. */
  predicate GuestDoes(i: Instr, steady: bool) {
    && !i.WriteLegacy? && i != AttachHandler && i != StartService && i != Post && i != Tear
    && (steady ==> i != Forget)
  }

  predicate Guest(p: Prog, steady: bool) {
    match p
    case End => true
    case Do(i, n) => GuestDoes(i, steady) && Guest(n, steady)
    case If(_, y, n) => Guest(y, steady) && Guest(n, steady)
    case Choose(a, b) => Guest(a, steady) && Guest(b, steady)
    case Repeat(b, n) => Guest(b, steady) && Guest(n, steady)
  }

  /** Dereferences the handler without waiting for it or testing for it first. */
  predicate Needs(p: Prog) {
    match p
    case End => false
    case Do(i, n) => i == UseHandler || (i != AwaitService && Needs(n))
    case If(c, y, n) => (c != HandlerAttached && Needs(y)) || Needs(n)
    case Choose(a, b) => Needs(a) || Needs(b)
    case Repeat(b, n) => Needs(b) || Needs(n)
  }

  lemma {:induction false} FlowThen(p: Prog, q: Prog, k: Know, cold: bool)
    requires Flow(p, k, cold) && NoExpose(p) && k != Exposed
    requires q.Repeat? && Flow(q, Unset, false)
    ensures Flow(Then(p, q), k, cold)
  {
    match p
    case End =>
    case Do(i, n) => FlowThen(n, q, KnowAfter(i, k), cold && i != Post);
    case If(c, y, n) =>
      FlowThen(y, q, k, cold && c != CredentialsCached);
      FlowThen(n, q, k, cold || c == CredentialsCached);
    case Choose(a, b) => FlowThen(a, q, k, cold); FlowThen(b, q, k, cold);
    case Repeat(_, n) => FlowThen(n, q, Unset, false);
  }

  lemma {:induction false} GuestThen(p: Prog, q: Prog, steady: bool)
    requires Guest(p, steady) && Guest(q, steady)
    ensures Guest(Then(p, q), steady) && (Needs(Then(p, q)) ==> Needs(p) || Needs(q))
  {
    match p
    case End =>
    case Do(_, n) => GuestThen(n, q, steady);
    case If(_, y, n) => GuestThen(y, q, steady); GuestThen(n, q, steady);
    case Choose(a, b) => GuestThen(a, q, steady); GuestThen(b, q, steady);
    case Repeat(_, n) => GuestThen(n, q, steady);
  }

  /** steady: every lookup so far read the credentials file, if it decoded, and no unregister message came.
      Only then does a vain lookup mean that no enrolment was stored. */
  predicate Consistent(s: State, k: Know, cold: bool, steady: bool) {
    && (k != Exposed ==> !s.attached && !s.serving)
    && (k != Unset ==> s.legacy)
    && (steady && cold ==> !s.cached)
  }

  ghost predicate RunKnows(s: State, steady: bool) {
    RunThread in s.threads &&
    exists k, cold :: Consistent(s, k, cold, steady) && Flow(s.threads[RunThread], k, cold)
  }

  predicate GuestsQuiet(s: State, steady: bool) {
    forall t :: t in s.threads && t != RunThread ==>
      Guest(s.threads[t], steady) && (Needs(s.threads[t]) ==> s.attached || s.serving)
  }

  /** stored: whether the process began with credentials. */
  predicate EnrolledOnce(s: State, stored: bool) {
    (stored ==> s.cached) && s.posts == if s.cached && !stored then 1 else 0
  }

  ghost predicate Safe(s: State, stored: bool, steady: bool) {
    && RunKnows(s, steady) && GuestsQuiet(s, steady)
    && (s.attached || s.serving ==> s.legacy)
    && (steady ==> EnrolledOnce(s, stored))
  }

  lemma RunActionKnows(s: State, pick: bool, k: Know, cold: bool, steady: bool)
    requires Enabled(s, RunThread) && s.threads[RunThread].Do?
    requires Consistent(s, k, cold, steady) && Flow(s.threads[RunThread], k, cold)
    requires s.attached || s.serving ==> s.legacy
    ensures RunKnows(Step(s, RunThread, pick), steady)
    ensures var s' := Step(s, RunThread, pick); s'.attached || s'.serving ==> s'.legacy
  {
    var Do(i, n) := s.threads[RunThread];
    var s' := Step(s, RunThread, pick);
    var k', cold' := KnowAfter(i, k), cold && i != Post;
    var rest := s'.threads[RunThread];
    assert Flow(n, k', cold');
    assert Flow(rest, k', cold') by {
      if rest != n {
        assert rest.next == n && rest.i.StopFrom? && KnowAfter(rest.i, k') == k';
      }
    }
    assert Consistent(s', k', cold', steady);
  }

  /** Nothing that is attached or serving stops being so, and only a Post, Tear or Forget touches the cache. */
  lemma StepMonotone(s: State, t: Tid, pick: bool)
    requires Enabled(s, t)
    ensures var s' := Step(s, t, pick);
            var posts := s.threads[t].Do? && s.threads[t].i == Post;
            var tears := s.threads[t].Do? && (s.threads[t].i == Tear || s.threads[t].i == Forget);
            && (s.attached ==> s'.attached) && (s.serving ==> s'.serving)
            && s'.posts == s.posts + (if posts then 1 else 0)
            && s'.cached == ((s.cached && !tears) || posts)
  {
    if s.threads[t].Do? {
      var i := s.threads[t].i;
      assert Effect(s, i).posts == s.posts + (if i == Post then 1 else 0);
      assert Effect(s, i).cached == ((s.cached && i != Tear && i != Forget) || i == Post);
    }
  }

  lemma OthersStay(s: State, t: Tid, pick: bool)
    requires Enabled(s, t)
    ensures var s' := Step(s, t, pick);
            forall u :: u in s'.threads && u != t ==> u in s.threads && s'.threads[u] == s.threads[u]
  {
    assert Step(s, t, pick).threads == s.threads[t := Rest(s, s.threads[t], pick)];
  }

  lemma RunActionSafe(s: State, pick: bool, k: Know, cold: bool, stored: bool, steady: bool)
    requires Safe(s, stored, steady) && Enabled(s, RunThread) && s.threads[RunThread].Do?
    requires Consistent(s, k, cold, steady) && Flow(s.threads[RunThread], k, cold)
    ensures Safe(Step(s, RunThread, pick), stored, steady)
  {
    RunActionKnows(s, pick, k, cold, steady);
    StepMonotone(s, RunThread, pick);
    OthersStay(s, RunThread, pick);
    assert Permitted(s.threads[RunThread].i, k, cold);
  }

  lemma RunMoveSafe(s: State, pick: bool, stored: bool, steady: bool)
    requires Safe(s, stored, steady) && Enabled(s, RunThread)
    requires steady ==> Reads(s, Move(RunThread, pick))
    ensures Safe(Step(s, RunThread, pick), stored, steady)
  {
    var p := s.threads[RunThread];
    var k, cold :| Consistent(s, k, cold, steady) && Flow(p, k, cold);
    var s' := Step(s, RunThread, pick);
    var rest := s'.threads[RunThread];
    match p
    case Do(i, n) => RunActionSafe(s, pick, k, cold, stored, steady);
    case If(c, y, n) =>
      var cold' := if Takes(s, c, pick) then cold && c != CredentialsCached else cold || c == CredentialsCached;
      assert Consistent(s', k, cold', steady) && Flow(rest, k, cold');
    case Choose(a, b) => assert Consistent(s', k, cold, steady) && Flow(rest, k, cold);
    case Repeat(b, n) =>
      if pick {
        FlowThen(b, p, Unset, false);
      }
      assert Consistent(s', Unset, false, steady) && Flow(rest, Unset, false);
  }

  lemma GuestRest(s: State, p: Prog, pick: bool, steady: bool)
    requires Guest(p, steady)
    ensures Guest(Rest(s, p, pick), steady)
    ensures Needs(Rest(s, p, pick)) ==>
              Needs(p) || (p.Do? && p.i == AwaitService) || (p.If? && p.c == HandlerAttached && s.attached)
  {
    if p.Repeat? {
      GuestThen(p.body, p, steady);
    }
  }

  lemma GuestMoveSafe(s: State, t: Tid, pick: bool, stored: bool, steady: bool)
    requires Safe(s, stored, steady) && Enabled(s, t) && t != RunThread
    ensures Safe(Step(s, t, pick), stored, steady)
  {
    var p := s.threads[t];
    var s' := Step(s, t, pick);
    var k, cold :| Consistent(s, k, cold, steady) && Flow(s.threads[RunThread], k, cold);
    assert s'.threads[RunThread] == s.threads[RunThread];
    GuestLeaves(s, t, pick, steady);
    assert Consistent(s', k, cold, steady) && Flow(s'.threads[RunThread], k, cold);
    GuestRest(s, p, pick, steady);
    assert s'.threads[t] == Rest(s, p, pick);
    StepMonotone(s, t, pick);
    OthersStay(s, t, pick);
  }

  lemma GuestLeaves(s: State, t: Tid, pick: bool, steady: bool)
    requires Enabled(s, t) && Guest(s.threads[t], steady)
    ensures var s' := Step(s, t, pick);
            && s'.legacy == s.legacy && s'.writes == s.writes && s'.attached == s.attached && s'.serving == s.serving
            && s'.posts == s.posts && (steady ==> s'.cached == s.cached)
  {
    if s.threads[t].Do? {
      GuestEffect(s, s.threads[t].i, steady);
    }
  }

  lemma GuestEffect(s: State, i: Instr, steady: bool)
    requires GuestDoes(i, steady)
    ensures var e := Effect(s, i);
            && e.legacy == s.legacy && e.writes == s.writes && e.attached == s.attached && e.serving == s.serving
            && e.posts == s.posts && (steady ==> e.cached == s.cached)
  {
    if !i.Append? && !i.StopFrom? && i != Forget && i != CloseLegacy {
      assert Effect(s, i) == s;
    }
  }

  predicate Harmless(i: Instr) {
    GuestDoes(i, true) && i != UseHandler
  }

  lemma GuestDo(i: Instr, n: Prog, steady: bool)
    requires Harmless(i) && Guest(n, steady) && !Needs(n)
    ensures Guest(Do(i, n), steady) && !Needs(Do(i, n))
  {
  }

  lemma GuestGuarded(l: Lock, i: Instr, n: Prog, steady: bool)
    requires Harmless(i) && Guest(n, steady) && !Needs(n)
    ensures Guest(Guarded(l, i, n), steady) && !Needs(Guarded(l, i, n))
  {
    GuestDo(Release(l), n, steady);
    GuestDo(i, Do(Release(l), n), steady);
    GuestDo(Acquire(l), Do(i, Do(Release(l), n)), steady);
  }

  lemma AddServerIsGuest(srv: AddOn, n: Prog, steady: bool)
    requires Guest(n, steady) && !Needs(n)
    ensures Guest(AddServerCode(srv, n), steady) && !Needs(AddServerCode(srv, n))
  {
    var release := Do(Release(Servers), n);
    GuestDo(Release(Servers), n, steady);
    GuestDo(Append(srv), release, steady);
    GuestDo(CallStart(srv), Do(Append(srv), release), steady);
    GuestDo(Acquire(Servers), Do(CallStart(srv), Do(Append(srv), release)), steady);
  }

  lemma StopIsGuest(n: Prog, steady: bool)
    requires Guest(n, steady) && !Needs(n)
    ensures Guest(StopCode(n), steady) && !Needs(StopCode(n))
  {
    GuestDo(Release(Servers), n, steady);
    GuestGuarded(Legacy, CloseLegacy, Do(Release(Servers), n), steady);
    GuestDo(StopAll, Closing(n), steady);
    GuestDo(Acquire(Servers), Do(StopAll, Closing(n)), steady);
  }

  /** Which operations are guests: all but Enroll, and in a steady run Unregister. */
  predicate GuestOp(op: Op, steady: bool) {
    op != Enroll && (steady ==> op != Unregister)
  }

  lemma AskIsGuest(op: Op, n: Prog, steady: bool)
    requires GuestOp(op, steady) && n.End? && (op.IsRunning? || op.Status? || op.Unregister?)
    ensures Guest(Code(op), steady) && !Needs(Code(op))
  {
    if op.IsRunning? {
      GuestGuarded(Running, Local, n, steady);
    } else if op.Status? {
      assert Guest(Do(UseHandler, n), steady) && Guest(n, steady) && !Needs(n);
    } else {
      assert Guest(n, steady) && !Needs(n);
    }
  }

  lemma CodeIsGuest(op: Op, steady: bool)
    requires GuestOp(op, steady)
    ensures Guest(Code(op), steady) && !Needs(Code(op))
  {
    if op.AddServer? {
      AddServerIsGuest(op.srv, End, steady);
    } else if op.Stop? {
      StopIsGuest(End, steady);
    } else {
      AskIsGuest(op, End, steady);
    }
  }

  lemma SafeStep(s: State, e: Event, stored: bool, steady: bool)
    requires Safe(s, stored, steady) && (e.Arrive? ==> GuestOp(e.op, steady))
    requires steady ==> Reads(s, e)
    ensures Safe(Next(s, e), stored, steady)
  {
    match e
    case Arrive(t, op) =>
      if t !in s.threads {
        CodeIsGuest(op, steady);
        var s' := Next(s, e);
        var k, cold :| Consistent(s, k, cold, steady) && Flow(s.threads[RunThread], k, cold);
        assert Consistent(s', k, cold, steady) && Flow(s'.threads[RunThread], k, cold);
      }
    case Move(t, pick) =>
      if Enabled(s, t) {
        if t == RunThread {
          RunMoveSafe(s, pick, stored, steady);
        } else {
          GuestMoveSafe(s, t, pick, stored, steady);
        }
      }
  }

  lemma {:induction false} SafeRun(s: State, es: seq<Event>, stored: bool, steady: bool)
    requires Safe(s, stored, steady) && Enroll !in Arrivals(es)
    requires steady ==> AllRead(s, es) && Unregister !in Arrivals(es)
    ensures Safe(Run(s, es), stored, steady)
    decreases |es|
  {
    if es != [] {
      var n := |es| - 1;
      SafeRun(s, es[..n], stored, steady);
      SafeStep(Run(s, es[..n]), es[n], stored, steady);
      Extend(s, es[..n], es[n]);
      assert es[..n] + [es[n]] == es;
    }
  }

  // ---------------------------------------------------------------- Run's own program

  lemma GuardedFlows(l: Lock, i: Instr, n: Prog, k: Know, cold: bool)
    requires Permitted(i, k, cold) && Flow(n, KnowAfter(i, k), cold && i != Post)
    requires !i.Acquire? && !i.Release?
    ensures Flow(Guarded(l, i, n), k, cold)
  {
    assert Flow(Do(Release(l), n), KnowAfter(i, k), cold && i != Post);
  }

  lemma StoreHandlerFlows(nonNil: bool, n: Prog, k: Know, cold: bool)
    requires Flow(n, if nonNil then Set else Unset, cold) && k != Exposed
    ensures Flow(StoreHandler(nonNil, n), k, cold)
  {
    GuardedFlows(Legacy, WriteLegacy(nonNil), n, k, cold);
  }

  lemma LookupFlows(hit: Prog, miss: Prog)
    requires Flow(hit, Unset, false) && Flow(miss, Unset, true)
    ensures Flow(Lookup(hit, miss), Unset, false)
  {
    assert Flow(Do(Release(Settings), hit), Unset, false);
    assert Flow(Do(Release(Settings), Do(Local, miss)), Unset, true);
  }

  lemma RequestedFlows(n: Prog)
    requires Flow(n, Unset, true) && Flow(n, Unset, false)
    ensures Flow(Requested(n), Unset, true)
  {
    GuardedFlows(Settings, Local, n, Unset, true);
    GuardedFlows(Settings, Post, n, Unset, true);
    GuardedFlows(Settings, Tear, n, Unset, true);
  }

  /** What may follow a lookup may follow a vain one. */
  lemma {:induction false} FlowColder(p: Prog, k: Know)
    requires Flow(p, k, false)
    ensures Flow(p, k, true)
  {
    match p
    case End =>
    case Do(i, n) =>
      if i != Post {
        FlowColder(n, KnowAfter(i, k));
      }
    case If(c, y, n) =>
      if c != CredentialsCached {
        FlowColder(y, k);
        FlowColder(n, k);
      }
    case Choose(a, b) => FlowColder(a, k); FlowColder(b, k);
    case Repeat(b, n) =>
  }

  lemma EnrollSucceedsFlows(n: Prog)
    requires Flow(n, Set, false)
    ensures Flow(EnrollSucceeds(n), Unset, false)
  {
    var store := StoreHandler(true, n);
    StoreHandlerFlows(true, n, Unset, false);
    FlowColder(store, Unset);
    RequestedFlows(store);
    LookupFlows(store, Requested(store));
  }

  lemma ConnectFailsFlows(n: Prog)
    requires Flow(n, Set, false) && Flow(n, Unset, false)
    ensures Flow(ConnectFails(n), Unset, false)
  {
    StoreHandlerFlows(true, n, Unset, false);
    StoreHandlerFlows(false, n, Unset, false);
  }

  /** A failing tick, whatever it leaves behind, ends where the next one may start. */
  lemma EnrollFailsFlows(n: Prog)
    requires Flow(n, Set, false) && Flow(n, Unset, false)
    ensures Flow(EnrollFails(n), Unset, false)
  {
    var fails := ConnectFails(n);
    ConnectFailsFlows(n);
    FlowColder(n, Unset);
    FlowColder(fails, Unset);
    RequestedFlows(Choose(n, fails));
    LookupFlows(fails, Choose(n, Requested(Choose(n, fails))));
  }

  lemma NoExposeGuarded(l: Lock, i: Instr, n: Prog)
    requires NoExpose(n) && i != AttachHandler && i != StartService
    ensures NoExpose(Guarded(l, i, n))
  {
    assert NoExpose(Do(Release(l), n));
    assert NoExpose(Do(i, Do(Release(l), n)));
  }

  lemma RequestedNoExpose(n: Prog)
    requires NoExpose(n)
    ensures NoExpose(Requested(n))
  {
    NoExposeGuarded(Settings, Local, n);
    NoExposeGuarded(Settings, Post, n);
    NoExposeGuarded(Settings, Tear, n);
  }

  lemma ConnectFailsNoExpose(n: Prog)
    requires NoExpose(n)
    ensures NoExpose(ConnectFails(n))
  {
    NoExposeGuarded(Legacy, WriteLegacy(true), n);
    NoExposeGuarded(Legacy, WriteLegacy(false), n);
  }

  lemma LookupNoExpose(hit: Prog, miss: Prog)
    requires NoExpose(hit) && NoExpose(miss)
    ensures NoExpose(Lookup(hit, miss))
  {
    assert NoExpose(Do(Release(Settings), hit)) && NoExpose(Do(Release(Settings), Do(Local, miss)));
  }

  lemma EnrollFailsNoExpose(n: Prog)
    requires NoExpose(n)
    ensures NoExpose(EnrollFails(n))
  {
    var rest := Choose(n, ConnectFails(n));
    ConnectFailsNoExpose(n);
    RequestedNoExpose(rest);
    LookupNoExpose(ConnectFails(n), Choose(n, Requested(rest)));
  }

  lemma LoopFlows(n: Prog)
    requires Flow(n, Set, false)
    ensures Flow(LoopCode(n), Unset, false)
  {
    EnrollSucceedsFlows(n);
    EnrollFailsFlows(End);
    EnrollFailsNoExpose(End);
    var body := Do(AwaitTick, EnrollFails(End));
    assert Flow(body, Unset, false) && NoExpose(body);
  }

  lemma StopFlows(n: Prog)
    requires Flow(n, Exposed, false)
    ensures Flow(StopCode(n), Exposed, false)
  {
    GuardedFlows(Legacy, CloseLegacy, Do(Release(Servers), n), Exposed, false);
    assert Flow(Do(StopAll, Guarded(Legacy, CloseLegacy, Do(Release(Servers), n))), Exposed, false);
  }

  lemma AttachFlows(quit: Prog)
    requires Flow(quit, Exposed, false)
    ensures Flow(Do(AttachHandler, Guarded(Servers, Local, quit)), Set, false)
  {
    GuardedFlows(Servers, Local, quit, Exposed, false);
  }

  lemma ServeFlows(n: Prog)
    requires Flow(n, Exposed, false)
    ensures Flow(ServeCode(n), Set, false)
  {
    StopFlows(n);
    QuitFlows(StopCode(n));
    AttachFlows(Do(StartService, Do(AwaitQuit, StopCode(n))));
  }

  lemma QuitFlows(n: Prog)
    requires Flow(n, Exposed, false)
    ensures Flow(Do(StartService, Do(AwaitQuit, n)), Exposed, false)
  {
  }

  lemma RunFlows(nats: AddOn, n: Prog)
    requires Flow(n, Exposed, false)
    ensures Flow(RunCode(nats, n), Unset, false)
  {
    ServeFlows(n);
    LoopFlows(ServeCode(n));
    StartFlows(nats, LoopCode(ServeCode(n)));
  }

  lemma StartFlows(nats: AddOn, loop: Prog)
    requires Flow(loop, Unset, false)
    ensures Flow(Guarded(Running, Local,
              Do(CallStart(nats), AddServerCode(nats, Guarded(Servers, Local, loop)))), Unset, false)
  {
    GuardedFlows(Servers, Local, loop, Unset, false);
    var rest := Guarded(Servers, Local, loop);
    assert Flow(Do(Append(nats), Do(Release(Servers), rest)), Unset, false);
    assert Flow(AddServerCode(nats, rest), Unset, false);
    GuardedFlows(Running, Local, Do(CallStart(nats), AddServerCode(nats, rest)), Unset, false);
  }

  lemma InitialSafe(nats: AddOn, stored: bool, steady: bool)
    ensures Safe(Initial(nats, stored), stored, steady)
  {
    RunFlows(nats, End);
    ServiceIsGuest(steady);
    FreshSafe(Initial(nats, stored), RunCode(nats, End), ServiceCode, stored, steady);
  }

  lemma FreshSafe(s: State, run: Prog, service: Prog, stored: bool, steady: bool)
    requires s == State(map[], map[RunThread := run, ServiceThread := service],
                        [], false, 0, false, false, stored, 0, [], [], [])
    requires Flow(run, Unset, false) && Guest(service, steady) && !Needs(service)
    ensures Safe(s, stored, steady)
  {
    assert Consistent(s, Unset, false, steady) && Flow(s.threads[RunThread], Unset, false);
  }

  /** The Service goroutine waits to be started before it uses the handler. */
  lemma ServiceIsGuest(steady: bool)
    ensures Guest(ServiceCode, steady) && !Needs(ServiceCode)
  {
    var body := Do(AwaitTick, Do(UseHandler, End));
    assert Guest(body, steady);
    assert Guest(Repeat(body, End), steady);
  }

  // ---------------------------------------------------------------- Run as the only caller of Enroll

  predicate UsesNil(s: State, t: Tid) {
    t in s.threads && s.threads[t].Do? && s.threads[t].i == UseHandler && !s.legacy
  }

  lemma SafeUses(s: State, t: Tid, stored: bool, steady: bool)
    requires Safe(s, stored, steady)
    ensures !UsesNil(s, t)
  {
    if t in s.threads && s.threads[t].Do? && s.threads[t].i == UseHandler {
      if t == RunThread {
        var k, cold :| Consistent(s, k, cold, steady) && Flow(s.threads[t], k, cold);
      } else {
        assert Needs(s.threads[t]);
      }
    }
  }

  /** With Run as the only caller of Enroll, over every interleaving with any number of other callers and whatever
      the outside calls come to: no thread about to dereference s.legacy finds it nil, and it is there
      from the moment the NATS server has its pointer or the Service goroutine runs. */
  lemma HandlerAlwaysThere(nats: AddOn, stored: bool, es: seq<Event>)
    requires Enroll !in Arrivals(es)
    ensures var s := Run(Initial(nats, stored), es);
            && (forall t :: !UsesNil(s, t))
            && (s.attached || s.serving ==> s.legacy)
  {
    InitialSafe(nats, stored, false);
    SafeRun(Initial(nats, stored), es, stored, false);
    var s := Run(Initial(nats, stored), es);
    forall t ensures !UsesNil(s, t) {
      SafeUses(s, t, stored, false);
    }
  }

  /** Run is past its enrolment loop. */
  predicate PastLoop(s: State) {
    || s.attached || s.serving
    || (RunThread in s.threads && s.threads[RunThread].Do? && s.threads[RunThread].i == AttachHandler)
  }

  lemma RunWritesNoMore(s: State, pick: bool, stored: bool, steady: bool)
    requires Safe(s, stored, steady) && PastLoop(s) && Enabled(s, RunThread)
    ensures var s' := Step(s, RunThread, pick);
            s.legacy && s'.writes == s.writes && s'.legacy == s.legacy && PastLoop(s')
  {
    var k, cold :| Consistent(s, k, cold, steady) && Flow(s.threads[RunThread], k, cold);
    StepMonotone(s, RunThread, pick);
    if s.threads[RunThread].Do? {
      assert Permitted(s.threads[RunThread].i, k, cold);
      EffectWrites(s, s.threads[RunThread].i);
    }
  }

  lemma EffectWrites(s: State, i: Instr)
    requires !i.WriteLegacy?
    ensures Effect(s, i).writes == s.writes && Effect(s, i).legacy == s.legacy
    ensures i == AttachHandler ==> Effect(s, i).attached
  {
  }

  lemma WritesNoMore(s: State, e: Event, stored: bool, steady: bool)
    requires Safe(s, stored, steady) && PastLoop(s) && (e.Arrive? ==> e.op != Enroll)
    ensures var s' := Next(s, e);
            s.legacy && s'.writes == s.writes && s'.legacy == s.legacy && PastLoop(s')
  {
    var k, cold :| Consistent(s, k, cold, steady) && Flow(s.threads[RunThread], k, cold);
    if e.Move? && Enabled(s, e.t) {
      if e.t == RunThread {
        RunWritesNoMore(s, e.pick, stored, steady);
      } else {
        GuestLeaves(s, e.t, e.pick, steady);
      }
    }
  }

  lemma {:induction false} WritesNoMoreRun(s: State, es: seq<Event>, stored: bool)
    requires Safe(s, stored, false) && PastLoop(s) && Enroll !in Arrivals(es)
    ensures var s' := Run(s, es);
            s.legacy && s'.legacy && s'.writes == s.writes && PastLoop(s')
    decreases |es|
  {
    if es == [] {
      WritesNoMore(s, Move(RunThread, true), stored, false);
    } else {
      var n := |es| - 1;
      WritesNoMoreRun(s, es[..n], stored);
      SafeRun(s, es[..n], stored, false);
      WritesNoMore(Run(s, es[..n]), es[n], stored, false);
      Extend(s, es[..n], es[n]);
      assert es[..n] + [es[n]] == es;
    }
  }

  /** With Run as the only caller of Enroll, the handler is set for good at the end of the enrolment loop: over every
      interleaving after it, it is never nil and never assigned again. */
  lemma HandlerNeverReplaced(nats: AddOn, stored: bool, before: seq<Event>, after: seq<Event>)
    requires Enroll !in Arrivals(before) && Enroll !in Arrivals(after)
    requires PastLoop(Run(Initial(nats, stored), before))
    ensures var s, s' := Run(Initial(nats, stored), before), Run(Initial(nats, stored), before + after);
            s.legacy && s'.legacy && s'.writes == s.writes && PastLoop(s')
  {
    InitialSafe(nats, stored, false);
    SafeRun(Initial(nats, stored), before, stored, false);
    WritesNoMoreRun(Run(Initial(nats, stored), before), after, stored);
    RunConcat(Initial(nats, stored), before, after);
  }

  /** With Run as the only caller of Enroll, no unregister message, and credentials that can be read when they are
      there, over every interleaving: one enrolment is stored if and only if there was none and now there is,
      and never two. */
  lemma OneEnrolment(nats: AddOn, stored: bool, es: seq<Event>)
    requires Enroll !in Arrivals(es) && Unregister !in Arrivals(es) && AllRead(Initial(nats, stored), es)
    ensures var s := Run(Initial(nats, stored), es);
            s.posts <= 1 && (s.posts == 1 <==> s.cached && !stored)
  {
    InitialSafe(nats, stored, true);
    SafeRun(Initial(nats, stored), es, stored, true);
  }

  // ---------------------------------------------------------------- an outside caller of Enroll

  /** Run gets to its enrolment loop. */
  lemma ReachesLoop(s: State, nats: AddOn, k: Prog) returns (es: seq<Event>)
    requires s.owner == map[] && RunThread in s.threads && s.threads[RunThread] == RunCode(nats, k)
    ensures Continues(s, [], es)
    ensures Run(s, es) == s.(others := s.others + [nats], addLog := s.addLog + [nats],
                             threads := s.threads[RunThread := LoopCode(ServeCode(k))])
  {
    var loop := LoopCode(ServeCode(k));
    var add := AddServerCode(nats, Guarded(Servers, Local, loop));
    es := RunsGuarded(s, [], RunThread, Running, Local, Do(CallStart(nats), add));
    es := StepsOn(s, es, RunThread, CallStart(nats), add);
    es := AddServerIsProgramRun(s, es, RunThread, nats, Guarded(Servers, Local, loop));
    es := RunsGuarded(s, es, RunThread, Servers, Local, loop);
    assert Run(s, es).threads == s.threads[RunThread := loop];
  }

  /** An Enroll that succeeds, with the credentials there are or with new ones. */
  lemma Enrols(s: State, es: seq<Event>, t: Tid, k: Prog) returns (more: seq<Event>)
    requires At(Run(s, es), t, EnrollSucceeds(k))
    ensures Continues(s, es, more)
    ensures var now := Run(s, es);
            Run(s, more) == now.(legacy := true, writes := now.writes + 1, cached := true,
                                 posts := now.posts + (if now.cached then 0 else 1), threads := now.threads[t := k])
  {
    var now := Run(s, es);
    var store := StoreHandler(true, k);
    more := Looks(s, es, t, store, Requested(store), true);
    if !now.cached {
      more := Requests(s, more, t, Post, store);
    }
    more := Stores(s, more, t, true, k);
    assert Run(s, more).threads == now.threads[t := k];
  }

  /** Past the loop Run hands the handler out and waits for a signal. */
  lemma Serves(s: State, es: seq<Event>, k: Prog) returns (more: seq<Event>)
    requires At(Run(s, es), RunThread, ServeCode(k)) && Servers !in Run(s, es).owner
    ensures Continues(s, es, more)
    ensures var now := Run(s, es);
            Run(s, more) == now.(attached := true, serving := true,
                                 threads := now.threads[RunThread := Do(AwaitQuit, StopCode(k))])
  {
    var now := Run(s, es);
    var quit := Do(AwaitQuit, StopCode(k));
    var start := Do(StartService, quit);
    more := StepsOn(s, es, RunThread, AttachHandler, Guarded(Servers, Local, start));
    more := TickerThenService(s, more, quit);
    Again(now.threads, RunThread, Guarded(Servers, Local, start), quit);
  }

  lemma TickerThenService(s: State, es: seq<Event>, k: Prog) returns (more: seq<Event>)
    requires At(Run(s, es), RunThread, Guarded(Servers, Local, Do(StartService, k))) && Servers !in Run(s, es).owner
    ensures Continues(s, es, more)
    ensures var now := Run(s, es);
            Run(s, more) == now.(serving := true, threads := now.threads[RunThread := k])
  {
    more := RunsGuarded(s, es, RunThread, Servers, Local, Do(StartService, k));
    more := StepsOn(s, more, RunThread, StartService, k);
    Again(Run(s, es).threads, RunThread, Do(StartService, k), k);
  }

  const ServiceLoop := Repeat(Do(AwaitTick, Do(UseHandler, End)), End)

  lemma ServiceTurns()
    ensures Then(Do(AwaitTick, Do(UseHandler, End)), ServiceLoop) == Do(AwaitTick, Do(UseHandler, ServiceLoop))
  {
    assert Then(Do(UseHandler, End), ServiceLoop) == Do(UseHandler, ServiceLoop);
  }

  /** The Service goroutine, once started, gets to where it uses the handler. */
  lemma ReachesUse(s: State, es: seq<Event>, loop: Prog) returns (more: seq<Event>)
    requires var now := Run(s, es);
             now.serving && ServiceThread in now.threads && now.threads[ServiceThread] == Do(AwaitService, loop)
    requires loop == ServiceLoop
    ensures Continues(s, es, more)
    ensures var now := Run(s, es);
            Run(s, more) == now.(threads := now.threads[ServiceThread := Do(UseHandler, loop)])
  {
    var now := Run(s, es);
    var use := Do(UseHandler, loop);
    more := StepsOn(s, es, ServiceThread, AwaitService, loop);
    more := ServiceTicks(s, more, loop);
    Again(now.threads, ServiceThread, loop, use);
  }

  lemma ServiceTicks(s: State, es: seq<Event>, loop: Prog) returns (more: seq<Event>)
    requires var now := Run(s, es); ServiceThread in now.threads && now.threads[ServiceThread] == loop == ServiceLoop
    ensures Continues(s, es, more)
    ensures var now := Run(s, es);
            Run(s, more) == now.(threads := now.threads[ServiceThread := Do(UseHandler, loop)])
  {
    var tick := Do(AwaitTick, Do(UseHandler, loop));
    ServiceTurns();
    more := Moves(s, es, ServiceThread, true);
    assert Run(s, more).threads[ServiceThread] == tick;
    more := StepsOn(s, more, ServiceThread, AwaitTick, Do(UseHandler, loop));
    Again(Run(s, es).threads, ServiceThread, tick, Do(UseHandler, loop));
  }

  /** Run serves and its Service goroutine is about to use the handler; nobody has called yet. */
  lemma ReachesService(nats: AddOn, stored: bool) returns (es: seq<Event>)
    ensures var s := Run(Initial(nats, stored), es);
            && Arrivals(es) == {} && s.owner == map[] && s.attached && s.cached
            && s.threads.Keys == {RunThread, ServiceThread}
            && s.threads[ServiceThread] == Do(UseHandler, ServiceLoop)
  {
    var init := Initial(nats, stored);
    es := ReachesLoop(init, nats, End);
    es := EntersTick(init, es, RunThread, ServeCode(End), false);
    es := Enrols(init, es, RunThread, ServeCode(End));
    es := Serves(init, es, End);
    es := ReachesUse(init, es, ServiceLoop);
  }

  /** An Enroll that hits the cache and then fails to connect, called from outside, clears the handler. */
  lemma OutsideEnrollClearsHandler(s: State, es: seq<Event>, t: Tid) returns (more: seq<Event>)
    requires var now := Run(s, es);
             now.cached && t !in now.threads && Settings !in now.owner && Legacy !in now.owner
    ensures var now, after := Run(s, es), Run(s, more);
            && Arrivals(more) == Arrivals(es) + {Enroll} && !after.legacy
            && forall u :: u in now.threads ==> u in after.threads && after.threads[u] == now.threads[u]
  {
    more := Arrives(s, es, t, true);
    more := Looks(s, more, t, ConnectFails(End), MissFails(End), true);
    more := FailsToConnect(s, more, t, false, End);
  }

  /** The run admits no operations from outside but these. */
  ghost predicate Admits(ops: iset<Op>, es: seq<Event>) {
    forall op :: op in Arrivals(es) ==> op in ops
  }

  /** Among the operations that may be called from outside while Run is under way, Enroll alone decides whether a nil
      handler can be dereferenced: without it no run does so, and with it one does, from every start. */
  lemma NilUseExact(nats: AddOn, stored: bool, ops: iset<Op>)
    ensures (forall es: seq<Event>, t: Tid :: Admits(ops, es) ==> !UsesNil(Run(Initial(nats, stored), es), t))
        <==> Enroll !in ops
  {
    if Enroll !in ops {
      forall es: seq<Event>, t: Tid | Admits(ops, es)
        ensures !UsesNil(Run(Initial(nats, stored), es), t)
      {
        HandlerAlwaysThere(nats, stored, es);
      }
    } else {
      var es := ReachesService(nats, stored);
      var more := OutsideEnrollClearsHandler(Initial(nats, stored), es, 2);
      assert Admits(ops, more) && UsesNil(Run(Initial(nats, stored), more), ServiceThread);
    }
  }

  /** An outside caller misses the credentials and is about to request an enrolment. */
  lemma ArrivesInVain(s: State, es: seq<Event>, t: Tid) returns (more: seq<Event>)
    requires var now := Run(s, es); t !in now.threads && !now.cached && Settings !in now.owner
    ensures es <= more && Arrivals(more) == Arrivals(es) + {Enroll} && (AllRead(s, es) ==> AllRead(s, more))
    ensures var now := Run(s, es);
            Run(s, more) == now.(threads := now.threads[t := Requested(StoreHandler(true, End))])
  {
    var now, store := Run(s, es), StoreHandler(true, End);
    more := Arrives(s, es, t, false);
    more := Looks(s, more, t, store, Requested(store), true);
    assert now.threads[t := EnrollSucceeds(End)][t := Requested(store)] == now.threads[t := Requested(store)];
  }

  /** Two threads about to request an enrolment both store one. */
  lemma BothRequest(s: State, es: seq<Event>, t: Tid, u: Tid, n: Prog, m: Prog) returns (more: seq<Event>)
    requires var now := Run(s, es);
             && t != u && t in now.threads && u in now.threads && Settings !in now.owner
             && now.threads[t] == Requested(n) && now.threads[u] == Requested(m)
    ensures Continues(s, es, more) && Run(s, more).posts == Run(s, es).posts + 2
  {
    more := Requests(s, es, t, Post, n);
    more := Requests(s, more, u, Post, m);
  }

  /** Run misses the credentials and is about to request an enrolment. */
  lemma RunInVain(nats: AddOn) returns (es: seq<Event>)
    ensures var init, n := Initial(nats, false), StoreHandler(true, ServeCode(End));
            && Arrivals(es) == {} && AllRead(init, es)
            && Run(init, es) == init.(others := [nats], addLog := [nats],
                                      threads := init.threads[RunThread := Requested(n)])
  {
    var init, n := Initial(nats, false), StoreHandler(true, ServeCode(End));
    es := ReachesLoop(init, nats, End);
    es := EntersTick(init, es, RunThread, ServeCode(End), false);
    es := Looks(init, es, RunThread, n, Requested(n), true);
    assert Run(init, es).threads == init.threads[RunThread := Requested(n)];
  }

  /** The lookup and the request are two critical sections: Run and one outside caller can both miss
      the credentials, both enrol, and the second enrolment replaces the first. */
  lemma BothEnrol(nats: AddOn) returns (es: seq<Event>)
    ensures Arrivals(es) == {Enroll} && AllRead(Initial(nats, false), es)
    ensures Run(Initial(nats, false), es).posts == 2
  {
    es := RunInVain(nats);
    es := ArrivesInVain(Initial(nats, false), es, 2);
    es := BothRequest(Initial(nats, false), es, RunThread, 2,
                      StoreHandler(true, ServeCode(End)), StoreHandler(true, End));
  }

  /** A tick that misses the credentials, stores new ones, connects, and then fails to subscribe. */
  lemma StoresAndFails(s: State, es: seq<Event>, k: Prog) returns (more: seq<Event>)
    requires At(Run(s, es), RunThread, EnrollFails(k)) && !Run(s, es).cached
    ensures Continues(s, es, more)
    ensures var now := Run(s, es);
            Run(s, more) == now.(legacy := true, writes := now.writes + 1, cached := true, posts := now.posts + 1,
                                 threads := now.threads[RunThread := k])
  {
    var now, rest := Run(s, es), Choose(k, ConnectFails(k));
    more := Looks(s, es, RunThread, ConnectFails(k), MissFails(k), true);
    more := Chooses(s, more, RunThread, k, Requested(rest), false);
    more := Requests(s, more, RunThread, Post, rest);
    more := Chooses(s, more, RunThread, k, ConnectFails(k), false);
    more := FailsToConnect(s, more, RunThread, true, k);
    Again(now.threads, RunThread, MissFails(k), Requested(rest));
    Again(now.threads, RunThread, Requested(rest), rest);
    Again(now.threads, RunThread, rest, ConnectFails(k));
    Again(now.threads, RunThread, ConnectFails(k), k);
  }

  /** An unregister message comes and goes. */
  lemma Forgets(s: State, es: seq<Event>, t: Tid) returns (more: seq<Event>)
    requires t !in Run(s, es).threads
    ensures Arrivals(more) == Arrivals(es) + {Unregister} && (AllRead(s, es) ==> AllRead(s, more))
    ensures var now := Run(s, es);
            Run(s, more) == now.(cached := false, threads := now.threads[t := End])
  {
    var now := Run(s, es);
    more := es + [Arrive(t, Unregister)];
    Extend(s, es, Arrive(t, Unregister));
    more := StepsOn(s, more, t, Forget, End);
    assert Run(s, more).threads == now.threads[t := End];
  }

  /** An unregister message between a tick that stored credentials and failed, and the next: Run enrols again. */
  lemma ForgottenEnrolsAgain(nats: AddOn) returns (es: seq<Event>)
    ensures Arrivals(es) == {Unregister} && AllRead(Initial(nats, false), es)
    ensures Run(Initial(nats, false), es).posts == 2
  {
    var init, serve := Initial(nats, false), ServeCode(End);
    es := ReachesLoop(init, nats, End);
    es := EntersTick(init, es, RunThread, serve, true);
    es := StoresAndFails(init, es, LoopCode(serve));
    es := Forgets(init, es, 2);
    es := EntersTick(init, es, RunThread, serve, false);
    es := Enrols(init, es, RunThread, serve);
  }

  /** Of the operations that may be called from outside while Run is under way, Enroll and Unregister decide whether two
      enrolments can be stored when there was none and credentials that are there can be read. */
  lemma SecondEnrolmentExact(nats: AddOn, ops: iset<Op>)
    ensures (forall es: seq<Event> :: Admits(ops, es) && AllRead(Initial(nats, false), es)
               ==> Run(Initial(nats, false), es).posts <= 1)
        <==> Enroll !in ops && Unregister !in ops
  {
    if Enroll in ops {
      var es := BothEnrol(nats);
      assert Admits(ops, es);
    } else if Unregister in ops {
      var es := ForgottenEnrolsAgain(nats);
      assert Admits(ops, es);
    } else {
      forall es: seq<Event> | Admits(ops, es) && AllRead(Initial(nats, false), es)
        ensures Run(Initial(nats, false), es).posts <= 1
      {
        OneEnrolment(nats, false, es);
      }
    }
  }

  /** From every state without credentials two callers can both enrol. */
  lemma TwoEnrollersEnrolTwice(s: State, t: Tid, u: Tid)
    requires t != u && t !in s.threads && u !in s.threads && !s.cached && Settings !in s.owner
    ensures exists es :: AllRead(s, es) && Run(s, es).posts == s.posts + 2
  {
    var es := ArrivesInVain(s, [], t);
    es := ArrivesInVain(s, es, u);
    es := BothRequest(s, es, t, u, StoreHandler(true, End), StoreHandler(true, End));
    assert Run(s, es).posts == s.posts + 2;
  }
}
