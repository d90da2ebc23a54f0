/** The models of the other modules agree where they overlap: a tick computed step by step is a
    path of the locked program, and an unregister step is what the message handler does. */
module Refinement {
  import opened Disk
  import opened Paths
  import opened Config
  import opened Identity
  import opened Mqtt
  import Server
  import Locks
  import Programs
  import Lifecycle
  import Dispatch
  import Replies

  // ---------------------------------------------------------------- ticks and the locked program

  /** The shared fields of the interleaving model, seen in the agent. */
  predicate Sees(s: Locks.State, a: Server.Agent, settings: Settings) {
    && s.legacy == a.legacy.Some?
    && s.cached == Cached(a.files, settings.credentialsPath).Some?
  }

  /** The thread has k left to do and left locks, other threads and everything but handler and cache alone. */
  predicate LeftWith(s: Locks.State, s': Locks.State, t: Locks.Tid, k: Locks.Prog) {
    && s'.threads == s.threads[t := k] && s'.owner == s.owner
    && s'.others == s.others && s'.attached == s.attached && s'.serving == s.serving
    && s'.addLog == s.addLog && s'.stopLog == s.stopLog
  }

  /** What the second section leaves of the credentials file. */
  datatype Section = Keeps | Fills | Empties

  /** How a tick ends, as far as the shared fields tell; keeps: the handler is kept. */
  datatype Path =
    | HitConnects | HitStores(keeps: bool)
    | MissEarly | MissConnects(section: Section) | MissFailed(section: Section)
    | MissStores(section: Section, keeps: bool)

  /** An enrolment was issued and its credentials were written whole. */
  predicate Wrote(io: EnrollIO) {
    && EncodedAssertions(io).Some? && io.urlParses && io.reply.Reply? && io.reply.code == ""
    && io.marshals && (io.credentialsWrite == Written || io.credentialsWrite == Unconfirmed)
  }

  function SectionOf(files: Files, settings: Settings, at: Places, io: EnrollIO): Section {
    var before := Cached(files, settings.credentialsPath).Some?;
    var after := Cached(Check(files, settings, at, io).files, settings.credentialsPath).Some?;
    if after && Wrote(io) then Fills else if after == before then Keeps else Empties
  }

  function PathOf(a: Server.Agent, settings: Settings, at: Places, io: Server.TickIO): Path {
    var checked := Check(a.files, settings, at, io.enroll);
    var hit := io.enroll.readable && Cached(a.files, settings.credentialsPath).Some?;
    var section := SectionOf(a.files, settings, at, io.enroll);
    if checked.result.None? then
      if EncodedAssertions(io.enroll).None? then MissEarly else MissFailed(section)
    else
      var handed := Handed(a.mqtt, checked.result.value, io.broker);
      if handed.Some? && io.subscribes then (if hit then HitConnects else MissConnects(section))
      else if hit then HitStores(handed.Some?) else MissStores(section, handed.Some?)
  }

  predicate Good(p: Path) {
    p.HitConnects? || p.MissConnects?
  }

  predicate Hits(p: Path) {
    p.HitConnects? || p.HitStores?
  }

  function SectionInstr(x: Section): Locks.Instr {
    match x case Keeps => Locks.Local case Fills => Locks.Post case Empties => Locks.Tear
  }

  /** The second section of the path; a path without one keeps the file. */
  function SectionIn(p: Path): Section {
    if Hits(p) || p.MissEarly? then Keeps else p.section
  }

  function CachedAfter(x: Section, cached: bool): bool {
    match x case Keeps => cached case Fills => true case Empties => false
  }

  predicate Writes(p: Path) {
    !p.MissEarly? && !p.MissFailed?
  }

  function LegacyAfter(p: Path, legacy: bool): bool {
    if !Writes(p) then legacy else Good(p) || p.keeps
  }

  /** The state in which a caller that took a path is left with k to do. */
  function After(p: Path, now: Locks.State, t: Locks.Tid, k: Locks.Prog): Locks.State {
    now.(legacy := LegacyAfter(p, now.legacy), writes := now.writes + (if Writes(p) then 1 else 0),
         cached := CachedAfter(SectionIn(p), now.cached), posts := now.posts + (if SectionIn(p) == Fills then 1 else 0),
         threads := now.threads[t := k])
  }

  lemma SectionCached(files: Files, settings: Settings, at: Places, io: EnrollIO)
    ensures var after := Cached(Check(files, settings, at, io).files, settings.credentialsPath).Some?;
            match SectionOf(files, settings, at, io)
            case Keeps => after == Cached(files, settings.credentialsPath).Some?
            case Fills => after
            case Empties => !after
  {
  }

  lemma EarlyKeeps(files: Files, settings: Settings, at: Places, io: EnrollIO)
    requires Check(files, settings, at, io).result.None? && EncodedAssertions(io).None?
    ensures Check(files, settings, at, io).files == files
  {
  }

  /** The outcome of a tick for the handler. */
  lemma TickHandler(a: Server.Agent, settings: Settings, at: Places, io: Server.TickIO)
    ensures var p, tick := PathOf(a, settings, at, io), Server.Tick(a, settings, at, io);
            && tick.agent.legacy.Some? == LegacyAfter(p, a.legacy.Some?)
            && (tick.ok <==> Good(p))
            && tick.agent.files == Check(a.files, settings, at, io.enroll).files
  {
  }

  /** The outcome of a tick for the credentials. */
  lemma TickCache(a: Server.Agent, settings: Settings, at: Places, io: Server.TickIO)
    ensures var p := PathOf(a, settings, at, io);
            var before := Cached(a.files, settings.credentialsPath).Some?;
            && (Hits(p) <==> before && io.enroll.readable)
            && Cached(Check(a.files, settings, at, io.enroll).files, settings.credentialsPath).Some?
               == CachedAfter(SectionIn(p), before)
  {
    var checked := Check(a.files, settings, at, io.enroll);
    SectionCached(a.files, settings, at, io.enroll);
    if checked.result.None? {
      if EncodedAssertions(io.enroll).None? {
        EarlyKeeps(a.files, settings, at, io.enroll);
      }
    } else if io.enroll.readable && Cached(a.files, settings.credentialsPath).Some? {
      assert checked.files == a.files;
    }
  }

  /** A tick changes the shared fields as its path does. */
  lemma TickFollowsPath(a: Server.Agent, settings: Settings, at: Places, io: Server.TickIO,
                        s: Locks.State, t: Locks.Tid, k: Locks.Prog)
    requires Sees(s, a, settings)
    ensures var p := PathOf(a, settings, at, io);
            && (Hits(p) <==> s.cached && io.enroll.readable)
            && Sees(After(p, s, t, k), Server.Tick(a, settings, at, io).agent, settings)
            && (Server.Tick(a, settings, at, io).ok <==> Good(p))
  {
    TickHandler(a, settings, at, io);
    TickCache(a, settings, at, io);
  }

  /** The events of a caller of Enroll that takes a path, up to and including its first choice: which
      of the two ways, success or failure, it goes. */
  function Begins(t: Locks.Tid, p: Path): seq<Locks.Event> {
    [Locks.Arrive(t, Locks.Enroll), Locks.Move(t, !Good(p))]
  }

  lemma AfterOver(p: Path, now: Locks.State, t: Locks.Tid, q: Locks.Prog, k: Locks.Prog)
    ensures After(p, now.(threads := now.threads[t := q]), t, k) == After(p, now, t, k)
  {
    assert now.threads[t := q][t := k] == now.threads[t := k];
  }

  /** The second section, and what follows it. */
  lemma SectionRuns(s: Locks.State, es: seq<Locks.Event>, t: Locks.Tid, p: Path, n: Locks.Prog)
    returns (more: seq<Locks.Event>)
    requires Programs.At(Locks.Run(s, es), t, Locks.Requested(n)) && !Hits(p) && !p.MissEarly?
    ensures Programs.Continues(s, es, more)
    ensures var now, after := Locks.Run(s, es), Locks.Run(s, more);
            after == now.(cached := CachedAfter(p.section, now.cached),
                          posts := now.posts + (if p.section == Fills then 1 else 0),
                          threads := now.threads[t := n])
  {
    more := Programs.Requests(s, es, t, SectionInstr(p.section), n);
  }

  lemma SuccessTakesPath(s: Locks.State, es: seq<Locks.Event>, t: Locks.Tid, p: Path, readable: bool, k: Locks.Prog)
    returns (more: seq<Locks.Event>)
    requires var now := Locks.Run(s, es);
             Programs.At(now, t, Locks.EnrollSucceeds(k)) && (Hits(p) <==> now.cached && readable)
    requires Good(p)
    ensures es <= more && (readable ==> Programs.Continues(s, es, more))
    ensures Locks.Run(s, more) == After(p, Locks.Run(s, es), t, k)
  {
    var now := Locks.Run(s, es);
    var store := Locks.StoreHandler(true, k);
    more := Programs.Looks(s, es, t, store, Locks.Requested(store), readable);
    if p.MissConnects? {
      more := SectionRuns(s, more, t, p, store);
    }
    more := Programs.Stores(s, more, t, true, k);
    assert Locks.Run(s, more).threads == now.threads[t := k];
  }

  lemma HitTakesPath(s: Locks.State, es: seq<Locks.Event>, t: Locks.Tid, p: Path, readable: bool, k: Locks.Prog)
    returns (more: seq<Locks.Event>)
    requires var now := Locks.Run(s, es); Programs.At(now, t, Locks.EnrollFails(k)) && now.cached && readable
    requires p.HitStores?
    ensures es <= more && (readable ==> Programs.Continues(s, es, more))
    ensures Locks.Run(s, more) == After(p, Locks.Run(s, es), t, k)
  {
    var now := Locks.Run(s, es);
    more := Programs.Looks(s, es, t, Locks.ConnectFails(k), Locks.MissFails(k), readable);
    more := Programs.FailsToConnect(s, more, t, p.keeps, k);
    assert Locks.Run(s, more).threads == now.threads[t := k];
  }

  /** What can still fail after the second section. */
  lemma SectionTakesPath(s: Locks.State, es: seq<Locks.Event>, t: Locks.Tid, p: Path, k: Locks.Prog)
    returns (more: seq<Locks.Event>)
    requires Programs.At(Locks.Run(s, es), t, Locks.Requested(Locks.Choose(k, Locks.ConnectFails(k))))
    requires p.MissFailed? || p.MissStores?
    ensures Programs.Continues(s, es, more) && Locks.Run(s, more) == After(p, Locks.Run(s, es), t, k)
  {
    var now := Locks.Run(s, es);
    var fails := Locks.ConnectFails(k);
    more := SectionRuns(s, es, t, p, Locks.Choose(k, fails));
    more := Programs.Chooses(s, more, t, k, fails, p.MissFailed?);
    if p.MissStores? {
      more := Programs.FailsToConnect(s, more, t, p.keeps, k);
    }
    assert Locks.Run(s, more).threads == now.threads[t := k];
  }

  lemma MissTakesPath(s: Locks.State, es: seq<Locks.Event>, t: Locks.Tid, p: Path, k: Locks.Prog)
    returns (more: seq<Locks.Event>)
    requires Programs.At(Locks.Run(s, es), t, Locks.MissFails(k))
    requires !Hits(p) && !Good(p)
    ensures Programs.Continues(s, es, more) && Locks.Run(s, more) == After(p, Locks.Run(s, es), t, k)
  {
    var now := Locks.Run(s, es);
    var request := Locks.Requested(Locks.Choose(k, Locks.ConnectFails(k)));
    more := Programs.Chooses(s, es, t, k, request, p.MissEarly?);
    if !p.MissEarly? {
      AfterOver(p, now, t, request, k);
      more := SectionTakesPath(s, more, t, p, k);
    }
  }

  lemma FailureTakesPath(s: Locks.State, es: seq<Locks.Event>, t: Locks.Tid, p: Path, readable: bool, k: Locks.Prog)
    returns (more: seq<Locks.Event>)
    requires var now := Locks.Run(s, es);
             Programs.At(now, t, Locks.EnrollFails(k)) && (Hits(p) <==> now.cached && readable)
    requires !Good(p)
    ensures es <= more && (readable ==> Programs.Continues(s, es, more))
    ensures Locks.Run(s, more) == After(p, Locks.Run(s, es), t, k)
  {
    if p.HitStores? {
      more := HitTakesPath(s, es, t, p, readable, k);
    } else {
      var now := Locks.Run(s, es);
      more := Programs.Looks(s, es, t, Locks.ConnectFails(k), Locks.MissFails(k), readable);
      AfterOver(p, now, t, Locks.MissFails(k), k);
      more := MissTakesPath(s, more, t, p, k);
    }
  }

  /** Every path is a path of the program: a caller alone on free locks can run along it to the end. */
  lemma ProgramTakesPath(s: Locks.State, t: Locks.Tid, p: Path, readable: bool, k: Locks.Prog)
    returns (es: seq<Locks.Event>)
    requires t !in s.threads && Locks.Settings !in s.owner && Locks.Legacy !in s.owner
    requires (Hits(p) <==> s.cached && readable) && k.End?
    ensures Begins(t, p) <= es && (readable ==> Programs.AllRead(s, es))
    ensures Locks.Run(s, es) == After(p, s, t, k)
  {
    es := Programs.Arrives(s, [], t, !Good(p));
    assert [] + Begins(t, p) == Begins(t, p);
    if Good(p) {
      es := SuccessTakesPath(s, es, t, p, readable, k);
      AfterOver(p, s, t, Locks.EnrollSucceeds(k), k);
    } else {
      es := FailureTakesPath(s, es, t, p, readable, k);
      AfterOver(p, s, t, Locks.EnrollFails(k), k);
    }
  }

  /** Every tick that Enroll can make, whatever the outside calls come to, is a run of the program whose
      interleavings module Locks studies: on free locks a caller ends with handler and cache as the
      tick leaves them, having gone the successful way exactly when the tick succeeded; and where the
      tick could read the credentials file, so could the run. */
  lemma TickIsProgramRun(a: Server.Agent, settings: Settings, at: Places, io: Server.TickIO,
                         s: Locks.State, t: Locks.Tid)
    requires Sees(s, a, settings)
    requires t !in s.threads && Locks.Settings !in s.owner && Locks.Legacy !in s.owner
    ensures var tick := Server.Tick(a, settings, at, io);
            exists es ::
              && [Locks.Arrive(t, Locks.Enroll), Locks.Move(t, !tick.ok)] <= es
              && Sees(Locks.Run(s, es), tick.agent, settings) && LeftWith(s, Locks.Run(s, es), t, Locks.End)
              && (io.enroll.readable ==> Programs.AllRead(s, es))
  {
    var p := PathOf(a, settings, at, io);
    TickFollowsPath(a, settings, at, io, s, t, Locks.End);
    var es := ProgramTakesPath(s, t, p, io.enroll.readable, Locks.End);
  }

  // ---------------------------------------------------------------- the enrolment loop

  /** One tick of the loop is one turn of the program's loop, or its way out. */
  lemma TurnIsProgramRun(a: Server.Agent, settings: Settings, at: Places, io: Server.TickIO,
                         s: Locks.State, es: seq<Locks.Event>, t: Locks.Tid, k: Locks.Prog)
    returns (more: seq<Locks.Event>)
    requires Programs.At(Locks.Run(s, es), t, Locks.LoopCode(k)) && Sees(Locks.Run(s, es), a, settings)
    ensures es <= more && (io.enroll.readable ==> Programs.Continues(s, es, more))
    ensures var tick := Server.Tick(a, settings, at, io);
            && Sees(Locks.Run(s, more), tick.agent, settings)
            && LeftWith(Locks.Run(s, es), Locks.Run(s, more), t, if tick.ok then k else Locks.LoopCode(k))
  {
    var now, p := Locks.Run(s, es), PathOf(a, settings, at, io);
    var left := if Good(p) then k else Locks.LoopCode(k);
    TickFollowsPath(a, settings, at, io, now, t, left);
    more := Programs.EntersTick(s, es, t, k, !Good(p));
    if Good(p) {
      more := SuccessTakesPath(s, more, t, p, io.enroll.readable, k);
      AfterOver(p, now, t, Locks.EnrollSucceeds(k), k);
    } else {
      more := FailureTakesPath(s, more, t, p, io.enroll.readable, Locks.LoopCode(k));
      AfterOver(p, now, t, Locks.EnrollFails(Locks.LoopCode(k)), Locks.LoopCode(k));
    }
  }

  /** The enrolment loop over any stretch of ticks is a run of Run's locked loop: handler and cache come
      out the same, and the thread is past the loop exactly when a tick succeeded. */
  lemma {:induction false} LoopIsProgramRun(a: Server.Agent, settings: Settings, at: Places,
                                            ios: seq<Server.TickIO>, s: Locks.State, es: seq<Locks.Event>,
                                            t: Locks.Tid, k: Locks.Prog)
    returns (more: seq<Locks.Event>)
    requires Programs.At(Locks.Run(s, es), t, Locks.LoopCode(k)) && Sees(Locks.Run(s, es), a, settings)
    ensures es <= more
    ensures (forall i :: 0 <= i < |ios| ==> ios[i].enroll.readable) ==> Programs.Continues(s, es, more)
    ensures var (agent, done) := Server.TickLoop(a, settings, at, ios);
            && Sees(Locks.Run(s, more), agent, settings)
            && LeftWith(Locks.Run(s, es), Locks.Run(s, more), t, if done then k else Locks.LoopCode(k))
    decreases |ios|
  {
    var now := Locks.Run(s, es);
    if ios == [] {
      more := es;
      assert now.threads[t := Locks.LoopCode(k)] == now.threads;
    } else {
      var tick := Server.Tick(a, settings, at, ios[0]);
      more := TurnIsProgramRun(a, settings, at, ios[0], s, es, t, k);
      if !tick.ok {
        var mid := Locks.Run(s, more);
        more := LoopIsProgramRun(tick.agent, settings, at, ios[1..], s, more, t, k);
        var left := if Server.TickLoop(a, settings, at, ios).1 then k else Locks.LoopCode(k);
        assert mid.threads[t := left] == now.threads[t := left];
      }
    }
  }

  // ---------------------------------------------------------------- unregister

  /** An unregister step of the lifecycle is what the message handler does with an unregister message
      in that world: same files, same end of the process, and the Success it reports. */
  lemma UnregisterIsHandled(w: Lifecycle.World, u: Replies.Setup, st: Dispatch.State, m: Dispatch.Message)
    requires Lifecycle.Listening(w) && st.files == w.files && !st.exited
    requires m.decoded.Some? && m.decoded.value.action == "unregister"
    ensures var io := Lifecycle.UnregisterIO(u.answers(|st.calls|).err.None?, m.removal, m.serialises);
            var next := Dispatch.Handle(u, st, m);
            var world := Lifecycle.Next(w, u.at, Lifecycle.Unregister(io));
            && world.files == next.files
            && (world.proc.None? <==> next.exited)
            && |next.published| == |st.published| + 1
            && (m.serialises ==>
                  && next.published[|st.published|].Some?
                  && (next.published[|st.published|].value.success
                      <==> Lifecycle.ReportsSuccess(w, u.at, io)))
  {
    assert "unregister" in Dispatch.KnownActions;
  }
}
