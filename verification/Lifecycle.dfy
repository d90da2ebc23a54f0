/** The agent over its whole life: a disk that survives, processes that come and go, and every
    order of start-ups, reconfigurations, enrolment ticks, unregister messages and crashes. */
module Lifecycle {
  import opened Disk
  import opened Paths
  import opened Config
  import opened Identity
  import opened Mqtt
  import opened Server

  /** Enrolling: inside the ticker loop. Enrolled: past it. Serving: the NATS server has its handler pointer. */
  datatype Phase = Enrolling | Enrolled | Serving

  /** unregistered: this process removed its files but could not serialise the reply, and lives on. */
  datatype Proc = Proc(settings: Settings, mqtt: State, legacy: Option<Handler>, phase: Phase, unregistered: bool)

  /** posted and obtained are histories: enrolment requests sent, enrolments CheckEnrollment returned. */
  datatype World = World(files: Files, proc: Option<Proc>, posted: seq<string>, obtained: seq<Enrollment>)

  datatype UnregisterIO = UnregisterIO(deviceInfo: bool, removal: RemoveIO, serialises: bool)

  /** A crash inside a tick is a tick whose interrupted call failed, followed by a crash. */
  datatype Step =
    | Boot(read: ReadIO)
    | Configure(url: string, write: WriteOutcome)
    | EnrollTick(tick: TickIO)
    | Attach
    | Unregister(unregister: UnregisterIO)
    | Crash

  function Next(w: World, at: Places, s: Step): World {
    match s
    case Boot(io) =>
      if w.proc.Some? then w
      else w.(files := FilesAfterRead(w.files, at, io),
              proc := Some(Proc(SettingsRead(w.files, at, io.readable), Fresh, None, Enrolling, false)))
    case Configure(url, write) =>
      if url == "" then w else w.(files := Stored(w.files, at, Settings(url, ""), write))
    case EnrollTick(io) =>
      if w.proc.None? || w.proc.value.phase != Enrolling then w
      else
        var p := w.proc.value;
        var t := Tick(Agent(w.files, p.mqtt, p.legacy), p.settings, at, io);
        World(t.agent.files,
              Some(p.(mqtt := t.agent.mqtt, legacy := t.agent.legacy, phase := if t.ok then Enrolled else Enrolling)),
              w.posted + t.posted,
              w.obtained + if t.obtained.Some? then [t.obtained.value] else [])
    case Attach =>
      if w.proc.Some? && w.proc.value.phase == Enrolled then w.(proc := Some(w.proc.value.(phase := Serving))) else w
    case Unregister(io) =>
      if !Listening(w) then w
      else
        w.(files := if io.deviceInfo then Removed(w.files, at, io.removal).files else w.files,
           proc := if io.serialises then None
                   else Some(w.proc.value.(unregistered := w.proc.value.unregistered || io.deviceInfo)))
    case Crash => w.(proc := None)
  }

  /** Messages can arrive once the MQTT connection exists. */
  predicate Listening(w: World) {
    w.proc.Some? && w.proc.value.mqtt.conn.Some?
  }

  /** The Success member of the reply that an unregister message gets. */
  predicate ReportsSuccess(w: World, at: Places, io: UnregisterIO) {
    io.deviceInfo && Removed(w.files, at, io.removal).ok
  }

  function Run(w: World, at: Places, steps: seq<Step>): World
    decreases |steps|
  {
    if steps == [] then w else Run(Next(w, at, steps[0]), at, steps[1..])
  }

  /** What a restarted process knows it has from the disk: two worlds with the same files restart alike, whatever their
      processes were; the new process has no client, connection or handler, is in its enrolment loop, and its
      settings are those of the params file or the defaults. */
  lemma RestartFromDisk(w: World, w': World, at: Places, io: ReadIO)
    requires w.files == w'.files
    ensures var after, after' := Run(w, at, [Crash, Boot(io)]), Run(w', at, [Crash, Boot(io)]);
            && after.proc == after'.proc && after.files == after'.files
            && after.proc.Some?
            && var p := after.proc.value;
               && p.mqtt.client.None? && p.mqtt.conn.None? && p.mqtt.built == 0
               && p.legacy.None? && p.phase == Enrolling && !p.unregistered
               && p.settings == SettingsRead(w.files, at, io.readable)
               && after.posted == w.posted && after.obtained == w.obtained
  {
    CrashAndBoot(w, at, io);
    CrashAndBoot(w', at, io);
  }

  lemma CrashAndBoot(w: World, at: Places, io: ReadIO)
    ensures Run(w, at, [Crash, Boot(io)]) == Next(Next(w, at, Crash), at, Boot(io))
    ensures Next(w, at, Crash).proc.None? && Next(w, at, Crash).files == w.files
  {
    assert [Crash, Boot(io)][1..] == [Boot(io)] && [Boot(io)][1..] == [];
    var mid := Next(w, at, Crash);
    assert Run(mid, at, [Boot(io)]) == Next(mid, at, Boot(io));
  }

  /** One process at a time: while one runs, none is started. */
  lemma BootExact(w: World, at: Places, io: ReadIO)
    ensures w.proc.Some? ==> Next(w, at, Boot(io)) == w
    ensures w.proc.None? ==>
              var after := Next(w, at, Boot(io));
              && after.proc.Some? && !Listening(after) && after.posted == w.posted && after.obtained == w.obtained
              && after.files == FilesAfterRead(w.files, at, io)
  {
  }

  /** A process that has once had a connection listens for messages as long as it lives, through failed ticks
      that clear its handler and whatever else happens. */
  lemma {:induction false} ListensOn(w: World, at: Places, steps: seq<Step>)
    requires Listening(w)
    requires forall i :: 0 <= i < |steps| ==>
               !steps[i].Crash? && !(steps[i].Unregister? && steps[i].unregister.serialises)
    ensures Listening(Run(w, at, steps))
    decreases |steps|
  {
    if steps != [] {
      assert !steps[0].Crash? && !(steps[0].Unregister? && steps[0].unregister.serialises);
      ListensOn(Next(w, at, steps[0]), at, steps[1..]);
    }
  }

  /** The NATS server gets its handler pointer if and only if the process is past its enrolment loop, and
      that changes nothing else. */
  lemma AttachExact(w: World, at: Places)
    requires w.proc.Some?
    ensures var after := Next(w, at, Attach);
            && after.proc.Some?
            && (after.proc.value.phase == Serving <==> w.proc.value.phase != Enrolling)
            && (w.proc.value.phase == Enrolling ==> after == w)
            && after == w.(proc := Some(w.proc.value.(phase := after.proc.value.phase)))
  {
  }

  // ---------------------------------------------------------------- paths

  /** The params file, when it names a credentials path at all, names the default one. */
  predicate ParamsDefault(files: Files, at: Places) {
    at.params in files && files[at.params].ParamsDoc? && files[at.params].path.Str?
    ==> files[at.params].path.s == at.secret
  }

  predicate PathsDefault(w: World, at: Places) {
    ParamsDefault(w.files, at) && (w.proc.Some? ==> w.proc.value.settings.credentialsPath == at.secret)
  }

  /** A check writes nowhere but to its credentials path and the device data file. */
  lemma CheckTouches(files: Files, settings: Settings, at: Places, io: EnrollIO, path: string)
    requires path != settings.credentialsPath && path != at.data
    ensures SameFile(files, Check(files, settings, at, io).files, path)
  {
  }

  lemma PathsDefaultStep(w: World, at: Places, s: Step)
    requires PathsDefault(w, at)
    ensures PathsDefault(Next(w, at, s), at)
  {
    match s
    case Boot(io) =>
    case Configure(url, write) =>
    case EnrollTick(io) =>
      if w.proc.Some? {
        CheckTouches(w.files, w.proc.value.settings, at, io.enroll, at.params);
      }
    case Attach =>
    case Unregister(io) => RemovalComplete(w.files, at, io.removal);
    case Crash =>
  }

  /** Every params file the agent and its configure command write names the default credentials
      path, so every process looks where unregister removes. */
  lemma {:induction false} CredentialsPathStaysDefault(w: World, at: Places, steps: seq<Step>)
    requires PathsDefault(w, at)
    ensures PathsDefault(Run(w, at, steps), at)
    decreases |steps|
  {
    if steps != [] {
      PathsDefaultStep(w, at, steps[0]);
      CredentialsPathStaysDefault(Next(w, at, steps[0]), at, steps[1..]);
    }
  }

  lemma {:induction false} RunConcat(w: World, at: Places, a: seq<Step>, b: seq<Step>)
    ensures Run(w, at, a + b) == Run(Run(w, at, a), at, b)
    decreases |a|
  {
    if a == [] {
      assert a + b == b;
    } else {
      assert (a + b)[0] == a[0] && (a + b)[1..] == a[1..] + b;
      RunConcat(Next(w, at, a[0]), at, a[1..], b);
    }
  }

  /** A snap refresh in the middle of a run, to another ordinary revision component of SNAP_DATA, changes nothing:
      the run up to it under one revision and from it under the next is the run without a refresh. */
  lemma RefreshInvisible(w: World, env: Env, next: Env, dir: string, r: string, r': string,
                         before: seq<Step>, after: seq<Step>)
    requires env.snapDataOverride == "" && env.snapData == dir + ['/'] + r && Ordinary(r)
    requires next == env.(snapData := dir + ['/'] + r') && Ordinary(r')
    ensures Run(Run(w, PlacesOf(env), before), PlacesOf(next), after) == Run(w, PlacesOf(env), before + after)
  {
    RevisionsShareFiles(env, next, dir, r, r');
    RunConcat(w, PlacesOf(env), before, after);
  }

  /** A URL that was configured, and stored whole, is what every later process enrols with, as long as the params file
      is readable at its start and nothing removes or overwrites it; the credentials stay where they were. */
  lemma {:induction false} ConfiguredURLUsed(w: World, at: Places, url: string, write: WriteOutcome, steps: seq<Step>)
    requires url != "" && (write == Written || write == Unconfirmed)
    requires PathsDefault(w, at)
    requires forall i :: 0 <= i < |steps| ==>
               !steps[i].Configure? && !steps[i].Unregister? && (steps[i].Boot? ==> steps[i].read.readable)
    ensures var after := Run(Next(w, at, Configure(url, write)), at, [Crash] + steps);
            after.proc.Some? ==>
              after.proc.value.settings.identityURL == url && after.proc.value.settings.credentialsPath == at.secret
  {
    var stored := Next(w, at, Configure(url, write));
    var crashed := Next(stored, at, Crash);
    PathsDefaultStep(w, at, Configure(url, write));
    PathsDefaultStep(stored, at, Crash);
    assert ([Crash] + steps)[0] == Crash && ([Crash] + steps)[1..] == steps;
    URLKept(crashed, at, url, steps);
  }

  /** The params file holds the URL, and so does the process, if there is one. */
  predicate HasURL(w: World, at: Places, url: string) {
    && at.params in w.files && w.files[at.params].ParamsDoc?
    && w.files[at.params].url == Str(url) && w.files[at.params].path == Str(at.secret)
    && (w.proc.Some? ==> w.proc.value.settings == Settings(url, at.secret))
  }

  lemma {:induction false} URLKept(w: World, at: Places, url: string, steps: seq<Step>)
    requires HasURL(w, at, url)
    requires forall i :: 0 <= i < |steps| ==>
               !steps[i].Configure? && !steps[i].Unregister? && (steps[i].Boot? ==> steps[i].read.readable)
    ensures HasURL(Run(w, at, steps), at, url)
    decreases |steps|
  {
    if steps != [] {
      assert !steps[0].Configure? && !steps[0].Unregister? && (steps[0].Boot? ==> steps[0].read.readable);
      URLKeptStep(w, at, url, steps[0]);
      URLKept(Next(w, at, steps[0]), at, url, steps[1..]);
    }
  }

  lemma URLKeptStep(w: World, at: Places, url: string, s: Step)
    requires HasURL(w, at, url)
    requires !s.Configure? && !s.Unregister? && (s.Boot? ==> s.read.readable)
    ensures HasURL(Next(w, at, s), at, url)
  {
    if s.EnrollTick? && w.proc.Some? {
      CheckTouches(w.files, w.proc.value.settings, at, s.tick.enroll, at.params);
    }
  }

  // ---------------------------------------------------------------- one identity

  /** The enrolment in the credentials file. */
  function OnDisk(w: World, at: Places): Option<Enrollment> {
    Cached(w.files, at.secret)
  }

  predicate Matches(e: Option<Enrollment>, clientID: string, orgID: string) {
    e.Some? && e.value.id == clientID && e.value.orgID == orgID
  }

  /** Disk, connection and handler agree on who this device is. */
  predicate Agreed(w: World, at: Places) {
    w.proc.Some? && !w.proc.value.unregistered ==>
      var p := w.proc.value;
      && Sound(p.mqtt)
      && (p.mqtt.conn.Some? ==> Matches(OnDisk(w, at), p.mqtt.conn.value.clientID, p.mqtt.conn.value.organisationID))
      && (p.legacy.Some? ==> && p.mqtt.conn == Some(p.legacy.value.conn)
                             && Matches(OnDisk(w, at), p.legacy.value.clientID, p.legacy.value.organizationID))
      && (p.phase != Enrolling ==> p.legacy.Some?)
  }

  /** A readable cached enrolment is left alone; otherwise, if enrolments can be serialised,
      the credentials file ends up with the enrolment just received. */
  lemma TickOnDisk(files: Files, settings: Settings, at: Places, io: EnrollIO)
    requires settings.credentialsPath == at.secret
    ensures var before := Cached(files, at.secret);
            var c := Check(files, settings, at, io);
            && (io.readable && before.Some? ==> c == Checked(before, files, []))
            && (c.result.Some? && io.marshals ==>
                  Cached(c.files, at.secret) == c.result)
  {
    if io.reply.Reply? {
      var e := io.reply.enrollment;
      var creds := CredentialsStored(files, settings.credentialsPath, e, io);
      CacheSurvivesData(creds.files, settings.credentialsPath, at, e.deviceData, io);
    }
  }

  predicate Enrols(w: World) {
    w.proc.Some? && w.proc.value.phase == Enrolling
  }

  /** With a connection the credentials must be readable; without one it is enough that a new enrolment
      can be serialised, or that none is needed. */
  predicate TickAgrees(w: World, at: Places, readable: bool, marshals: bool)
    requires w.proc.Some?
  {
    if w.proc.value.mqtt.conn.Some? then readable
    else marshals || (readable && OnDisk(w, at).Some?)
  }

  predicate StepAgrees(w: World, at: Places, s: Step) {
    s.EnrollTick? && Enrols(w) && !w.proc.value.unregistered ==>
      TickAgrees(w, at, s.tick.enroll.readable, s.tick.enroll.marshals)
  }

  /** Every tick of the run, in the world it meets. */
  predicate AllAgree(w: World, at: Places, steps: seq<Step>)
    decreases |steps|
  {
    steps == [] || (StepAgrees(w, at, steps[0]) && AllAgree(Next(w, at, steps[0]), at, steps[1..]))
  }

  lemma AgreedStep(w: World, at: Places, s: Step)
    requires PathsDefault(w, at) && Agreed(w, at) && StepAgrees(w, at, s)
    ensures Agreed(Next(w, at, s), at)
  {
    if s.EnrollTick? && w.proc.Some? {
      TickOnDisk(w.files, w.proc.value.settings, at, s.tick.enroll);
    }
  }

  /** In every state the agent can reach by such ticks, through failed ticks, torn files,
      reconnects, crashes and restarts: if the connection exists, the credentials file
      holds its IDs, the handler is bound to it with the same IDs, and past the loop there is a handler. */
  lemma {:induction false} IdentityAgreement(w: World, at: Places, steps: seq<Step>)
    requires PathsDefault(w, at) && Agreed(w, at) && AllAgree(w, at, steps)
    ensures Agreed(Run(w, at, steps), at)
    decreases |steps|
  {
    if steps != [] {
      AgreedStep(w, at, steps[0]);
      PathsDefaultStep(w, at, steps[0]);
      IdentityAgreement(Next(w, at, steps[0]), at, steps[1..]);
    }
  }

  /** A tick on which a new enrolment is issued, if one is asked for, and everything else goes well. */
  function Issuing(e: Enrollment, readable: bool, marshals: bool): TickIO {
    TickIO(EnrollIO(readable, Known(["model"]), Known(["serial"]), true, Reply("", e), marshals, Written, Written),
           BrokerIO(true, true), true)
  }

  /** An enrolment that is not the one on disk, nor has its ID. */
  function Another(w: World, at: Places): Enrollment {
    Enrollment(if OnDisk(w, at).Some? then OnDisk(w, at).value.id + "'" else "new", "", Credentials("", "", true),
               NoDeviceData)
  }

  lemma AnotherDiffers(w: World, at: Places)
    ensures OnDisk(w, at).Some? ==> Another(w, at).id != OnDisk(w, at).value.id
  {
    if OnDisk(w, at).Some? {
      assert |Another(w, at).id| == |OnDisk(w, at).value.id| + 1;
    }
  }

  /** Enrolling again when the file cannot be read, or enrolling without being able to store. */
  lemma TickDisagrees(w: World, at: Places, readable: bool, marshals: bool)
    requires PathsDefault(w, at) && Agreed(w, at) && Enrols(w) && !w.proc.value.unregistered
    requires !TickAgrees(w, at, readable, marshals)
    ensures !Agreed(Next(w, at, EnrollTick(Issuing(Another(w, at), readable, marshals))), at)
  {
    var p, e := w.proc.value, Another(w, at);
    var io := Issuing(e, readable, marshals);
    AnotherDiffers(w, at);
    var t := Tick(Agent(w.files, p.mqtt, p.legacy), p.settings, at, io);
    assert t.obtained == Some(e);
    assert t.agent.legacy.Some? && t.agent.legacy.value.clientID == e.id;
    assert t.agent.files == if marshals then w.files[at.secret := EnrollmentDoc(e)] else w.files;
  }

  /** From every agreeing world in the enrolment loop, every tick keeps disk, connection and handler in agreement if
      and only if the credentials can be read, when there is a connection, and an enrolment can be serialised or
      read, when there is none. */
  lemma AgreementExact(w: World, at: Places, readable: bool, marshals: bool)
    requires PathsDefault(w, at) && Agreed(w, at) && Enrols(w) && !w.proc.value.unregistered
    ensures (forall io: TickIO :: io.enroll.readable == readable && io.enroll.marshals == marshals
               ==> Agreed(Next(w, at, EnrollTick(io)), at))
        <==> TickAgrees(w, at, readable, marshals)
  {
    if TickAgrees(w, at, readable, marshals) {
      forall io: TickIO | io.enroll.readable == readable && io.enroll.marshals == marshals
        ensures Agreed(Next(w, at, EnrollTick(io)), at)
      {
        AgreedStep(w, at, EnrollTick(io));
      }
    } else {
      TickDisagrees(w, at, readable, marshals);
      var io := Issuing(Another(w, at), readable, marshals);
      assert io.enroll.readable == readable && io.enroll.marshals == marshals;
    }
  }

  /** Every enrolment ever handed out is the one on disk. */
  predicate OneIdentity(w: World, at: Places) {
    forall i :: 0 <= i < |w.obtained| ==> OnDisk(w, at) == Some(w.obtained[i])
  }

  /** Once an enrolment has been handed out it must be readable; the first must be read or stored. */
  predicate TickRepeats(w: World, at: Places, readable: bool, marshals: bool) {
    if w.obtained != [] then readable else marshals || (readable && OnDisk(w, at).Some?)
  }

  predicate StepRepeats(w: World, at: Places, s: Step) {
    && !s.Unregister?
    && (s.EnrollTick? && Enrols(w) ==> TickRepeats(w, at, s.tick.enroll.readable, s.tick.enroll.marshals))
  }

  predicate AllRepeat(w: World, at: Places, steps: seq<Step>)
    decreases |steps|
  {
    steps == [] || (StepRepeats(w, at, steps[0]) && AllRepeat(Next(w, at, steps[0]), at, steps[1..]))
  }

  lemma OneIdentityStep(w: World, at: Places, s: Step)
    requires PathsDefault(w, at) && OneIdentity(w, at) && StepRepeats(w, at, s)
    ensures OneIdentity(Next(w, at, s), at)
  {
    if s.EnrollTick? && w.proc.Some? {
      TickOnDisk(w.files, w.proc.value.settings, at, s.tick.enroll);
      if w.obtained != [] {
        assert OnDisk(w, at) == Some(w.obtained[0]);
      }
    }
  }

  lemma {:induction false} OneIdentityRun(w: World, at: Places, steps: seq<Step>)
    requires PathsDefault(w, at) && OneIdentity(w, at) && AllRepeat(w, at, steps)
    ensures OneIdentity(Run(w, at, steps), at)
    decreases |steps|
  {
    if steps != [] {
      OneIdentityStep(w, at, steps[0]);
      PathsDefaultStep(w, at, steps[0]);
      OneIdentityRun(Next(w, at, steps[0]), at, steps[1..]);
    }
  }

  /** From a disk with or without credentials, over any run of such ticks without an unregister, all
      enrolments that any process ever obtained are equal: the device has one identity. */
  lemma SingleIdentity(w: World, at: Places, steps: seq<Step>)
    requires PathsDefault(w, at) && w.obtained == [] && AllRepeat(w, at, steps)
    ensures var after := Run(w, at, steps);
            && OneIdentity(after, at)
            && forall i, j :: 0 <= i < |after.obtained| && 0 <= j < |after.obtained|
                 ==> after.obtained[i] == after.obtained[j]
  {
    OneIdentityRun(w, at, steps);
  }

  /** A world with one identity keeps it over every tick if and only if, once an enrolment has been handed out,
      the credentials can be read, and the first to be handed out is read or can be serialised. */
  lemma SingleIdentityExact(w: World, at: Places, readable: bool, marshals: bool)
    requires PathsDefault(w, at) && OneIdentity(w, at) && Enrols(w)
    ensures (forall io: TickIO :: io.enroll.readable == readable && io.enroll.marshals == marshals
               ==> OneIdentity(Next(w, at, EnrollTick(io)), at))
        <==> TickRepeats(w, at, readable, marshals)
  {
    if TickRepeats(w, at, readable, marshals) {
      forall io: TickIO | io.enroll.readable == readable && io.enroll.marshals == marshals
        ensures OneIdentity(Next(w, at, EnrollTick(io)), at)
      {
        OneIdentityStep(w, at, EnrollTick(io));
      }
    } else {
      var io := Issuing(Another(w, at), readable, marshals);
      assert io.enroll.readable == readable && io.enroll.marshals == marshals;
      TickSplits(w, at, readable, marshals);
    }
  }

  lemma TickSplits(w: World, at: Places, readable: bool, marshals: bool)
    requires PathsDefault(w, at) && OneIdentity(w, at) && Enrols(w)
    requires !TickRepeats(w, at, readable, marshals)
    ensures !OneIdentity(Next(w, at, EnrollTick(Issuing(Another(w, at), readable, marshals))), at)
  {
    var p, e := w.proc.value, Another(w, at);
    var io := Issuing(e, readable, marshals);
    AnotherDiffers(w, at);
    var after := Next(w, at, EnrollTick(io));
    assert after.obtained == w.obtained + [e];
    assert after.obtained[|w.obtained|] == e;
    if w.obtained != [] {
      assert OnDisk(w, at) == Some(w.obtained[0]);
      assert after.obtained[0] == w.obtained[0];
    }
  }

  // ---------------------------------------------------------------- write-once cache

  predicate Readable(s: Step) {
    s.EnrollTick? ==> s.tick.enroll.readable
  }

  /** What one such step leaves alone. */
  predicate CacheKept(w: World, w': World, at: Places, e: Enrollment) {
    && SameFile(w.files, w'.files, at.secret)
    && SameFile(w.files, w'.files, at.data)
    && w'.posted == w.posted
    && (w'.obtained == w.obtained || w'.obtained == w.obtained + [e])
  }

  lemma CacheKeptStep(w: World, at: Places, e: Enrollment, s: Step)
    requires PathsDefault(w, at) && OnDisk(w, at) == Some(e)
    requires Readable(s) && !s.Unregister?
    ensures CacheKept(w, Next(w, at, s), at, e)
  {
    match s
    case Boot(io) =>
    case Configure(url, write) =>
    case EnrollTick(io) =>
      if w.proc.Some? {
        assert Check(w.files, w.proc.value.settings, at, io.enroll) == Checked(Some(e), w.files, []);
        assert w.posted + [] == w.posted && w.obtained + [] == w.obtained;
      }
    case Attach =>
    case Crash =>
  }

  /** Once the credentials file holds an enrolment e, no run of readable ticks, restarts and
      reconfigurations changes it or the device data, sends another request, or obtains
      anything but e. */
  lemma {:induction false} WriteOnce(w: World, at: Places, e: Enrollment, steps: seq<Step>)
    requires PathsDefault(w, at) && OnDisk(w, at) == Some(e)
    requires forall i :: 0 <= i < |steps| ==> Readable(steps[i]) && !steps[i].Unregister?
    ensures var after := Run(w, at, steps);
            && SameFile(w.files, after.files, at.secret)
            && SameFile(w.files, after.files, at.data)
            && after.posted == w.posted
            && |w.obtained| <= |after.obtained| && after.obtained[..|w.obtained|] == w.obtained
            && forall i :: |w.obtained| <= i < |after.obtained| ==> after.obtained[i] == e
    decreases |steps|
  {
    if steps != [] {
      var mid := Next(w, at, steps[0]);
      assert Readable(steps[0]);
      CacheKeptStep(w, at, e, steps[0]);
      PathsDefaultStep(w, at, steps[0]);
      WriteOnce(mid, at, e, steps[1..]);
    }
  }

  // ---------------------------------------------------------------- convergence

  /** A tick on which every outside call succeeds and the reply's device data decodes. */
  predicate AllGood(io: TickIO) {
    && io.enroll.readable && io.enroll.marshals && io.enroll.urlParses
    && io.enroll.model.Known? && io.enroll.model.assertions != []
    && io.enroll.serial.Known? && io.enroll.serial.assertions != []
    && io.enroll.reply.Reply? && io.enroll.reply.code == "" && !io.enroll.reply.enrollment.deviceData.NotBase64?
    && io.enroll.credentialsWrite == Written && io.enroll.dataWrite == Written
    && (io.broker.open || io.broker.connects) && io.subscribes
  }

  /** The singletons of every process in every reachable world are sound, whatever fails. */
  predicate ProcSound(w: World) {
    w.proc.Some? ==> Sound(w.proc.value.mqtt)
  }

  lemma {:induction false} SoundAlways(w: World, at: Places, steps: seq<Step>)
    requires ProcSound(w)
    ensures ProcSound(Run(w, at, steps))
    decreases |steps|
  {
    if steps != [] {
      assert ProcSound(Next(w, at, steps[0]));
      SoundAlways(Next(w, at, steps[0]), at, steps[1..]);
    }
  }

  /** From every disk and process that any run can leave, leftovers of any failure included, the
      first tick on which every outside call succeeds ends the loop exactly when there is a
      connection already or the enrolment in use, cached or new, has a key pair that loads. */
  lemma ConvergenceExact(w: World, at: Places, steps: seq<Step>, io: TickIO)
    requires ProcSound(w) && AllGood(io)
    ensures var now := Run(w, at, steps);
            now.proc.Some? && now.proc.value.phase == Enrolling ==>
              var p := now.proc.value;
              var cached := Cached(now.files, p.settings.credentialsPath);
              (Next(now, at, EnrollTick(io)).proc.value.phase == Enrolled
               <==> p.mqtt.conn.Some?
                    || (if cached.Some? then cached.value else io.enroll.reply.enrollment).credentials.keyPairLoads)
  {
    SoundAlways(w, at, steps);
  }

  /** No connection, no handler, still enrolling. */
  predicate Stuck(w: World, at: Places, e: Enrollment) {
    && OnDisk(w, at) == Some(e)
    && (w.proc.Some? ==> w.proc.value.mqtt == Fresh && w.proc.value.legacy.None? && w.proc.value.phase == Enrolling)
  }

  /** Once credentials whose key pair does not load are on disk, the agent never gets out of its
      enrolment loop again: no tick, restart, reconfiguration or message does it. */
  lemma {:induction false} BadCredentialsStick(w: World, at: Places, e: Enrollment, steps: seq<Step>)
    requires PathsDefault(w, at) && Stuck(w, at, e) && !e.credentials.keyPairLoads
    requires forall i :: 0 <= i < |steps| ==> Readable(steps[i])
    ensures Stuck(Run(w, at, steps), at, e)
    decreases |steps|
  {
    if steps != [] {
      assert Readable(steps[0]);
      PathsDefaultStep(w, at, steps[0]);
      BadCredentialsStick(Next(w, at, steps[0]), at, e, steps[1..]);
    }
  }

  /** The blank object an identity server may answer with, "{}", is stored and brings this about. */
  lemma BlankReplySticks(at: Places, io: TickIO)
    requires AllGood(io) && io.enroll.reply.enrollment == BlankEnrollment
    ensures var w := Run(World(map[], None, [], []), at, [Boot(ReadIO(true, Written)), EnrollTick(io)]);
            PathsDefault(w, at) && Stuck(w, at, BlankEnrollment) && !BlankEnrollment.credentials.keyPairLoads
  {
    var w0 := World(map[], None, [], []);
    var steps := [Boot(ReadIO(true, Written)), EnrollTick(io)];
    var w1 := Next(w0, at, steps[0]);
    var w2 := Next(w1, at, steps[1]);
    assert steps[1..][1..] == [];
    assert Run(w1, at, steps[1..]) == w2;
    PathsDefaultStep(w0, at, steps[0]);
    PathsDefaultStep(w1, at, steps[1]);
    TickOnDisk(w1.files, w1.proc.value.settings, at, io.enroll);
  }

  // ---------------------------------------------------------------- unregister

  /** The stat calls of a removal saw every file that was there. */
  predicate SeesFiles(w: World, at: Places, io: RemoveIO) {
    (at.params in w.files ==> io.paramsStat) && (at.secret in w.files ==> io.secretStat)
  }

  /** An unregister reply with Success true leaves neither file exactly when the stat calls saw
      both; the process ends exactly when the reply could be serialised, removed or not. */
  lemma UnregisterExact(w: World, at: Places, io: UnregisterIO)
    requires Listening(w)
    ensures var after := Next(w, at, Unregister(io));
            && (ReportsSuccess(w, at, io) <==> io.deviceInfo && Removable(w.files, at, io.removal))
            && (io.deviceInfo && !ReportsSuccess(w, at, io) ==> SameFile(w.files, after.files, at.secret))
            && (ReportsSuccess(w, at, io) ==>
                  (at.params !in after.files && at.secret !in after.files
                   <==> SeesFiles(w, at, io.removal)))
            && (after.proc.None? <==> io.serialises)
            && (!io.deviceInfo ==> after.files == w.files)
  {
    RemovalComplete(w.files, at, io.removal);
    RemovalExact(w.files, at, io.removal);
  }

  lemma {:induction false} StaysGone(w: World, at: Places, steps: seq<Step>)
    requires at.secret !in w.files
    requires forall i :: 0 <= i < |steps| ==> !steps[i].EnrollTick?
    ensures at.secret !in Run(w, at, steps).files
    decreases |steps|
  {
    if steps != [] {
      StaysGone(Next(w, at, steps[0]), at, steps[1..]);
    }
  }

  /** After a successful unregister, across any crashes, restarts and reconfigurations, the next
      tick cannot return the old cached enrolment: what it obtains it has just asked for. */
  lemma UnregisterForgets(w: World, at: Places, io: UnregisterIO, steps: seq<Step>, tick: TickIO)
    requires PathsDefault(w, at) && Listening(w)
    requires ReportsSuccess(w, at, io) && SeesFiles(w, at, io.removal)
    requires forall i :: 0 <= i < |steps| ==> !steps[i].EnrollTick?
    ensures var before := Run(Next(w, at, Unregister(io)), at, steps);
            var after := Next(before, at, EnrollTick(tick));
            after.obtained == before.obtained
            || (tick.enroll.reply.Reply?
                && after.obtained == before.obtained + [tick.enroll.reply.enrollment]
                && |after.posted| == |before.posted| + 1)
  {
    UnregisterExact(w, at, io);
    var gone := Next(w, at, Unregister(io));
    StaysGone(gone, at, steps);
    PathsDefaultStep(w, at, Unregister(io));
    CredentialsPathStaysDefault(gone, at, steps);
    var before := Run(gone, at, steps);
    var after := Next(before, at, EnrollTick(tick));
    if before.proc.Some? && before.proc.value.phase == Enrolling {
      assert Cached(before.files, before.proc.value.settings.credentialsPath).None?;
    }
    assert before.obtained + [] == before.obtained;
  }

  /** The process ends after an unregister whose removal failed: exit does not mean removed. */
  lemma ExitWithoutRemoval(w: World, at: Places)
    requires Listening(w) && at.secret in w.files
    ensures exists io: UnregisterIO :: && !ReportsSuccess(w, at, io)
                         && Next(w, at, Unregister(io)).proc.None?
                         && at.secret in Next(w, at, Unregister(io)).files
  {
    var io := UnregisterIO(true, RemoveIO(true, true, true, false), true);
    assert !ReportsSuccess(w, at, io);
    assert Next(w, at, Unregister(io)).proc.None?;
  }
}
