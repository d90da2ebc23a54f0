/** Programs of module Locks run by one thread while the others rest: which states they lead to. */
module Programs {
  import opened Locks

  // ---------------------------------------------------------------- event sequences

  /** The operations that arrive from outside. */
  function Arrivals(es: seq<Event>): set<Op> {
    if es == [] then {}
    else Arrivals(es[..|es| - 1]) + if es[|es| - 1].Arrive? then {es[|es| - 1].op} else {}
  }

  lemma {:induction false} ArrivalsConcat(a: seq<Event>, b: seq<Event>)
    ensures Arrivals(a + b) == Arrivals(a) + Arrivals(b)
  {
    if b == [] {
      assert a + b == a;
    } else {
      ArrivalsConcat(a, b[..|b| - 1]);
      assert (a + b)[..|a + b| - 1] == a + b[..|b| - 1];
    }
  }

  /** A step that looks the credentials up reads them, if they decode. */
  predicate Reads(s: State, e: Event) {
    e.Move? && e.t in s.threads && s.threads[e.t].If? && s.threads[e.t].c == CredentialsCached ==> e.pick
  }

  predicate AllRead(s: State, es: seq<Event>)
    decreases |es|
  {
    es == [] || (AllRead(s, es[..|es| - 1]) && Reads(Run(s, es[..|es| - 1]), es[|es| - 1]))
  }

  lemma Extend(s: State, es: seq<Event>, e: Event)
    ensures Run(s, es + [e]) == Next(Run(s, es), e)
    ensures Arrivals(es + [e]) == Arrivals(es) + if e.Arrive? then {e.op} else {}
    ensures AllRead(s, es + [e]) <==> AllRead(s, es) && Reads(Run(s, es), e)
  {
    RunConcat(s, es, [e]);
    assert [e][1..] == [];
    assert (es + [e])[..|es|] == es;
  }

  /** Nobody else arrives, and what could be read still is. */
  predicate Continues(s: State, es: seq<Event>, more: seq<Event>) {
    es <= more && Arrivals(more) == Arrivals(es) && (AllRead(s, es) ==> AllRead(s, more))
  }

  // ---------------------------------------------------------------- single instructions

  /** One move, whatever it reads. */
  lemma Moves(s: State, es: seq<Event>, t: Tid, pick: bool) returns (more: seq<Event>)
    requires Enabled(Run(s, es), t)
    ensures more == es + [Move(t, pick)] && Run(s, more) == Step(Run(s, es), t, pick)
    ensures Arrivals(more) == Arrivals(es)
    ensures Reads(Run(s, es), Move(t, pick)) ==> Continues(s, es, more)
  {
    more := es + [Move(t, pick)];
    Extend(s, es, Move(t, pick));
  }

  lemma Arrives(s: State, es: seq<Event>, t: Tid, fails: bool) returns (more: seq<Event>)
    requires t !in Run(s, es).threads
    ensures more == es + [Arrive(t, Enroll), Move(t, fails)]
    ensures Arrivals(more) == Arrivals(es) + {Enroll} && (AllRead(s, es) ==> AllRead(s, more))
    ensures var now := Run(s, es);
            Run(s, more) == now.(threads := now.threads[t := if fails then EnrollFails(End) else EnrollSucceeds(End)])
  {
    more := es + [Arrive(t, Enroll)];
    Extend(s, es, Arrive(t, Enroll));
    more := Moves(s, more, t, fails);
    var now := Run(s, es);
    assert Run(s, more).threads == now.threads[t := if fails then EnrollFails(End) else EnrollSucceeds(End)];
  }

  lemma StepsOn(s: State, es: seq<Event>, t: Tid, i: Instr, n: Prog) returns (more: seq<Event>)
    requires var now := Run(s, es); Enabled(now, t) && now.threads[t] == Do(i, n) && !i.StopAll? && !i.StopFrom?
    ensures Continues(s, es, more)
    ensures var now := Run(s, es);
            Run(s, more) == Effect(now, i).(owner := OwnerAfter(now.owner, i, t), threads := now.threads[t := n])
  {
    more := Moves(s, es, t, true);
  }

  lemma Chooses(s: State, es: seq<Event>, t: Tid, a: Prog, b: Prog, left: bool) returns (more: seq<Event>)
    requires var now := Run(s, es); t in now.threads && now.threads[t] == Choose(a, b)
    ensures Continues(s, es, more)
    ensures var now := Run(s, es);
            Run(s, more) == now.(threads := now.threads[t := if left then a else b])
  {
    more := Moves(s, es, t, left);
  }

  lemma Decides(s: State, es: seq<Event>, t: Tid, c: Cond, yes: Prog, no: Prog, pick: bool) returns (more: seq<Event>)
    requires var now := Run(s, es); t in now.threads && now.threads[t] == If(c, yes, no)
    ensures es <= more && Arrivals(more) == Arrivals(es) && (pick ==> Continues(s, es, more))
    ensures var now := Run(s, es);
            Run(s, more) == now.(threads := now.threads[t := if Takes(now, c, pick) then yes else no])
  {
    more := Moves(s, es, t, pick);
  }

  lemma Acquires(s: State, es: seq<Event>, t: Tid, l: Lock, n: Prog) returns (more: seq<Event>)
    requires var now := Run(s, es); t in now.threads && now.threads[t] == Do(Acquire(l), n) && l !in now.owner
    ensures Continues(s, es, more)
    ensures var now := Run(s, es);
            Run(s, more) == now.(owner := now.owner[l := t], threads := now.threads[t := n])
  {
    more := StepsOn(s, es, t, Acquire(l), n);
  }

  lemma Releases(s: State, es: seq<Event>, t: Tid, l: Lock, n: Prog) returns (more: seq<Event>)
    requires var now := Run(s, es); t in now.threads && now.threads[t] == Do(Release(l), n)
    ensures Continues(s, es, more)
    ensures var now := Run(s, es);
            Run(s, more) == now.(owner := now.owner - {l}, threads := now.threads[t := n])
  {
    more := StepsOn(s, es, t, Release(l), n);
  }

  /** Enrolling, writing the handler and local work have nothing to do with locks and programs. */
  predicate Plain(i: Instr) {
    i == Post || i == Tear || i == Local || i.WriteLegacy?
  }

  function Inside(now: State, i: Instr, owner: map<Lock, Tid>, threads: map<Tid, Prog>): State
    requires Plain(i)
  {
    Effect(now, i).(owner := owner, threads := threads)
  }

  lemma Acts(s: State, es: seq<Event>, t: Tid, i: Instr, n: Prog) returns (more: seq<Event>)
    requires var now := Run(s, es); t in now.threads && now.threads[t] == Do(i, n) && Plain(i)
    ensures Continues(s, es, more)
    ensures var now := Run(s, es);
            Run(s, more) == Inside(now, i, now.owner, now.threads[t := n])
  {
    more := StepsOn(s, es, t, i, n);
  }

  lemma InsideApart(now: State, i: Instr, owner: map<Lock, Tid>, threads: map<Tid, Prog>,
                    owner': map<Lock, Tid>, threads': map<Tid, Prog>)
    requires Plain(i)
    ensures Inside(now.(owner := owner, threads := threads), i, owner', threads') == Inside(now, i, owner', threads')
  {
    var other := now.(owner := owner, threads := threads);
    match i
    case Post => assert Effect(other, i) == other.(cached := true, posts := now.posts + 1);
    case Tear => assert Effect(other, i) == other.(cached := false);
    case Local => assert Effect(other, i) == other;
    case WriteLegacy(nonNil) => assert Effect(other, i) == other.(legacy := nonNil, writes := now.writes + 1);
  }

  // ---------------------------------------------------------------- critical sections

  /** Of two programs given to a thread the second counts. */
  lemma Again(threads: map<Tid, Prog>, t: Tid, p: Prog, q: Prog)
    ensures threads[t := p][t := q] == threads[t := q]
  {
  }

  lemma Freed(owner: map<Lock, Tid>, l: Lock, t: Tid)
    requires l !in owner
    ensures owner[l := t] - {l} == owner
  {
  }

  /** A thread runs one instruction under a lock that is free. */
  lemma RunsGuarded(s: State, es: seq<Event>, t: Tid, l: Lock, i: Instr, n: Prog) returns (more: seq<Event>)
    requires var now := Run(s, es);
             t in now.threads && now.threads[t] == Guarded(l, i, n) && l !in now.owner
    requires Plain(i)
    ensures Continues(s, es, more)
    ensures var now := Run(s, es);
            Run(s, more) == Inside(now, i, now.owner, now.threads[t := n])
  {
    var now := Run(s, es);
    var last := Do(Release(l), n);
    more := GuardedActs(s, es, t, l, i, last);
    more := Releases(s, more, t, l, n);
    Freed(now.owner, l, t);
    Again(now.threads, t, last, n);
  }

  lemma GuardedActs(s: State, es: seq<Event>, t: Tid, l: Lock, i: Instr, last: Prog) returns (more: seq<Event>)
    requires var now := Run(s, es);
             t in now.threads && now.threads[t] == Do(Acquire(l), Do(i, last)) && l !in now.owner
    requires Plain(i)
    ensures Continues(s, es, more)
    ensures var now := Run(s, es);
            Run(s, more) == Inside(now, i, now.owner[l := t], now.threads[t := last])
  {
    var now := Run(s, es);
    var owner: map<Lock, Tid> := now.owner[l := t];
    var threads: map<Tid, Prog> := now.threads[t := Do(i, last)];
    more := Acquires(s, es, t, l, Do(i, last));
    more := Acts(s, more, t, i, last);
    Again(now.threads, t, Do(i, last), last);
    InsideApart(now, i, owner, threads, owner, threads[t := last]);
  }

  /** A thread enters the lookup and decides; readable says whether a file that decodes can be read. */
  lemma Enters(s: State, es: seq<Event>, t: Tid, yes: Prog, no: Prog, readable: bool) returns (more: seq<Event>)
    requires var now := Run(s, es);
             && t in now.threads && now.threads[t] == Do(Acquire(Settings), If(CredentialsCached, yes, no))
             && Settings !in now.owner
    ensures es <= more && Arrivals(more) == Arrivals(es) && (readable ==> Continues(s, es, more))
    ensures var now := Run(s, es);
            var branch := if now.cached && readable then yes else no;
            Run(s, more) == now.(owner := now.owner[Settings := t], threads := now.threads[t := branch])
  {
    var now := Run(s, es);
    var branch := if now.cached && readable then yes else no;
    more := Acquires(s, es, t, Settings, If(CredentialsCached, yes, no));
    more := Decides(s, more, t, CredentialsCached, yes, no, readable);
    Again(now.threads, t, If(CredentialsCached, yes, no), branch);
  }

  /** A thread looks the credentials up. */
  lemma Finds(s: State, es: seq<Event>, t: Tid, hit: Prog, miss: Prog, readable: bool) returns (more: seq<Event>)
    requires var now := Run(s, es);
             t in now.threads && now.threads[t] == Lookup(hit, miss) && Settings !in now.owner
    ensures es <= more && Arrivals(more) == Arrivals(es) && (readable ==> Continues(s, es, more))
    ensures var now := Run(s, es);
            var found := if now.cached && readable then hit else Do(Local, miss);
            Run(s, more) == now.(threads := now.threads[t := found])
  {
    var now := Run(s, es);
    var found := if now.cached && readable then hit else Do(Local, miss);
    more := Enters(s, es, t, Do(Release(Settings), hit), Do(Release(Settings), Do(Local, miss)), readable);
    more := Releases(s, more, t, Settings, found);
    Freed(now.owner, Settings, t);
    Again(now.threads, t, Do(Release(Settings), found), found);
  }

  lemma Looks(s: State, es: seq<Event>, t: Tid, hit: Prog, miss: Prog, readable: bool) returns (more: seq<Event>)
    requires var now := Run(s, es);
             t in now.threads && now.threads[t] == Lookup(hit, miss) && Settings !in now.owner
    ensures es <= more && Arrivals(more) == Arrivals(es) && (readable ==> Continues(s, es, more))
    ensures var now := Run(s, es);
            Run(s, more) == now.(threads := now.threads[t := if now.cached && readable then hit else miss])
  {
    var now := Run(s, es);
    more := Finds(s, es, t, hit, miss, readable);
    if !(now.cached && readable) {
      more := StepsOn(s, more, t, Local, miss);
      Again(now.threads, t, Do(Local, miss), miss);
    }
  }

  /** A thread that missed the credentials runs the second section with one of its outcomes. */
  lemma Requests(s: State, es: seq<Event>, t: Tid, i: Instr, n: Prog) returns (more: seq<Event>)
    requires var now := Run(s, es);
             t in now.threads && now.threads[t] == Requested(n) && Settings !in now.owner
    requires i == Local || i == Post || i == Tear
    ensures Continues(s, es, more)
    ensures var now := Run(s, es);
            Run(s, more) == Inside(now, i, now.owner, now.threads[t := n])
  {
    var now := Run(s, es);
    var stores, tears := Guarded(Settings, Post, n), Guarded(Settings, Tear, n);
    more := Chooses(s, es, t, Guarded(Settings, Local, n), Choose(stores, tears), i == Local);
    if i != Local {
      more := Chooses(s, more, t, stores, tears, i == Post);
    }
    var threads := Run(s, more).threads;
    more := RunsGuarded(s, more, t, Settings, i, n);
    InsideApart(now, i, now.owner, threads, now.owner, now.threads[t := n]);
    assert threads[t := n] == now.threads[t := n];
  }

  /** A thread writes s.legacy. */
  lemma Stores(s: State, es: seq<Event>, t: Tid, nonNil: bool, n: Prog) returns (more: seq<Event>)
    requires var now := Run(s, es);
             t in now.threads && now.threads[t] == StoreHandler(nonNil, n) && Legacy !in now.owner
    ensures Continues(s, es, more)
    ensures var now := Run(s, es);
            Run(s, more) == now.(legacy := nonNil, writes := now.writes + 1, threads := now.threads[t := n])
  {
    more := StepsOn(s, es, t, Local, Guarded(Legacy, WriteLegacy(nonNil), n));
    more := RunsGuarded(s, more, t, Legacy, WriteLegacy(nonNil), n);
    Again(Run(s, es).threads, t, Guarded(Legacy, WriteLegacy(nonNil), n), n);
  }

  lemma FailsToConnect(s: State, es: seq<Event>, t: Tid, keeps: bool, n: Prog) returns (more: seq<Event>)
    requires var now := Run(s, es);
             t in now.threads && now.threads[t] == ConnectFails(n) && Legacy !in now.owner
    ensures Continues(s, es, more)
    ensures var now := Run(s, es);
            Run(s, more) == now.(legacy := keeps, writes := now.writes + 1, threads := now.threads[t := n])
  {
    more := Chooses(s, es, t, StoreHandler(false, n), StoreHandler(true, n), !keeps);
    more := Stores(s, more, t, keeps, n);
    Again(Run(s, es).threads, t, StoreHandler(keeps, n), n);
  }

  // ---------------------------------------------------------------- the enrolment loop

  lemma ThenGuarded(l: Lock, i: Instr, n: Prog, q: Prog)
    ensures Then(Guarded(l, i, n), q) == Guarded(l, i, Then(n, q))
  {
    var tail := Do(Release(l), n);
    assert Then(tail, q) == Do(Release(l), Then(n, q));
    assert Then(Do(i, tail), q) == Do(i, Then(tail, q));
  }

  lemma ThenConnectFails(n: Prog, q: Prog)
    ensures Then(ConnectFails(n), q) == ConnectFails(Then(n, q))
  {
    ThenGuarded(Legacy, WriteLegacy(true), n, q);
    ThenGuarded(Legacy, WriteLegacy(false), n, q);
  }

  lemma ThenRequested(n: Prog, q: Prog)
    ensures Then(Requested(n), q) == Requested(Then(n, q))
  {
    ThenGuarded(Settings, Local, n, q);
    ThenGuarded(Settings, Post, n, q);
    ThenGuarded(Settings, Tear, n, q);
    var writes := Choose(Guarded(Settings, Post, n), Guarded(Settings, Tear, n));
    assert Then(writes, q) == Choose(Then(Guarded(Settings, Post, n), q), Then(Guarded(Settings, Tear, n), q));
  }

  lemma ThenMissFails(n: Prog, q: Prog)
    ensures Then(MissFails(n), q) == MissFails(Then(n, q))
  {
    var rest := Choose(n, ConnectFails(n));
    ThenConnectFails(n, q);
    ThenRequested(rest, q);
    assert Then(rest, q) == Choose(Then(n, q), ConnectFails(Then(n, q)));
    assert MissFails(n) == Choose(n, Requested(rest));
  }

  lemma ThenLookup(hit: Prog, miss: Prog, q: Prog)
    ensures Then(Lookup(hit, miss), q) == Lookup(Then(hit, q), Then(miss, q))
  {
    var found := Do(Release(Settings), hit);
    var missed := Do(Release(Settings), Do(Local, miss));
    assert Then(missed, q) == Do(Release(Settings), Then(Do(Local, miss), q));
    assert Then(If(CredentialsCached, found, missed), q)
        == If(CredentialsCached, Then(found, q), Then(missed, q));
  }

  /** A failing Enroll goes on with whatever follows it. */
  lemma ThenEnrollFails(n: Prog, q: Prog)
    ensures Then(EnrollFails(n), q) == EnrollFails(Then(n, q))
  {
    ThenConnectFails(n, q);
    ThenMissFails(n, q);
    ThenLookup(ConnectFails(n), MissFails(n), q);
  }

  lemma TurnsLoop(now: State, k: Prog, fails: bool)
    ensures var rest := if fails then EnrollFails(LoopCode(k)) else EnrollSucceeds(k);
            Rest(now, LoopCode(k), fails) == Do(AwaitTick, rest)
  {
    var loop := LoopCode(k);
    ThenEnrollFails(End, loop);
    assert Then(End, loop) == loop;
  }

  /** Thread t is about to run q, with the locks of Enroll free. */
  predicate At(now: State, t: Tid, q: Prog) {
    t in now.threads && now.threads[t] == q && Settings !in now.owner && Legacy !in now.owner
  }

  /** The thread goes through the loop once more, or leaves it. */
  lemma EntersTick(s: State, es: seq<Event>, t: Tid, k: Prog, fails: bool) returns (more: seq<Event>)
    requires At(Run(s, es), t, LoopCode(k))
    ensures Continues(s, es, more)
    ensures var now := Run(s, es);
            var rest := if fails then EnrollFails(LoopCode(k)) else EnrollSucceeds(k);
            Run(s, more) == now.(threads := now.threads[t := rest])
  {
    var now, loop := Run(s, es), LoopCode(k);
    var rest := if fails then EnrollFails(loop) else EnrollSucceeds(k);
    TurnsLoop(now, k, fails);
    more := Moves(s, es, t, fails);
    more := StepsOn(s, more, t, AwaitTick, rest);
    Again(now.threads, t, Do(AwaitTick, rest), rest);
  }

  // ---------------------------------------------------------------- adding a server

  /** AddServer alone appends its server. */
  lemma AddServerIsProgramRun(s: State, es: seq<Event>, t: Tid, srv: AddOn, k: Prog) returns (more: seq<Event>)
    requires var now := Run(s, es);
             && t in now.threads && now.threads[t] == AddServerCode(srv, k) && Servers !in now.owner
    ensures Continues(s, es, more)
    ensures var now := Run(s, es);
            Run(s, more) == now.(others := now.others + [srv], addLog := now.addLog + [srv],
                                 threads := now.threads[t := k])
  {
    var now := Run(s, es);
    var release := Do(Release(Servers), k);
    var start := Do(CallStart(srv), Do(Append(srv), release));
    more := Acquires(s, es, t, Servers, start);
    more := StartsAndAppends(s, more, t, srv, release);
    more := Releases(s, more, t, Servers, k);
    Freed(now.owner, Servers, t);
    Again(now.threads, t, start, release);
    Again(now.threads, t, release, k);
  }

  lemma StartsAndAppends(s: State, es: seq<Event>, t: Tid, srv: AddOn, k: Prog) returns (more: seq<Event>)
    requires var now := Run(s, es);
             t in now.threads && now.threads[t] == Do(CallStart(srv), Do(Append(srv), k))
    ensures Continues(s, es, more)
    ensures var now := Run(s, es);
            Run(s, more) == now.(others := now.others + [srv], addLog := now.addLog + [srv],
                                 threads := now.threads[t := k])
  {
    more := StepsOn(s, es, t, CallStart(srv), Do(Append(srv), k));
    more := StepsOn(s, more, t, Append(srv), k);
    Again(Run(s, es).threads, t, Do(Append(srv), k), k);
  }
}
