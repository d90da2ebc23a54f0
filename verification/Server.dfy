/** pkg/server/server.go as one sequential caller sees it: enrolment ticks, add-on servers
    and shutdown. Interleavings of several callers are the subject of module Locks. */
module Server {
  import opened Disk
  import opened Paths
  import opened Config
  import opened Identity
  import opened Mqtt

  /** legacy.Handler: the connection it publishes on and the IDs it was made with. */
  datatype Handler = Handler(conn: Conn, clientID: string, organizationID: string)

  /** What one Enroll reads and writes. */
  datatype Agent = Agent(files: Files, mqtt: State, legacy: Option<Handler>)

  datatype TickIO = TickIO(enroll: EnrollIO, broker: BrokerIO, subscribes: bool)

  datatype Ticked = Ticked(agent: Agent, ok: bool, obtained: Option<Enrollment>, posted: seq<string>)

  /** Server.Enroll with createLegacySubscriber. A failed check leaves the handler as it was, a
      failed connection clears it, a failed subscription keeps the new handler and still fails. */
  function Tick(a: Agent, settings: Settings, at: Places, io: TickIO): Ticked {
    var checked := Check(a.files, settings, at, io.enroll);
    if checked.result.None? then Ticked(a.(files := checked.files), false, None, checked.posted)
    else
      var e := checked.result.value;
      var m := AfterGetConnection(a.mqtt, e);
      var handed := Handed(a.mqtt, e, io.broker);
      if handed.None? then Ticked(Agent(checked.files, m, None), false, Some(e), checked.posted)
      else Ticked(Agent(checked.files, m, Some(Handler(handed.value, e.id, e.orgID))),
                  io.subscribes, Some(e), checked.posted)
  }

  /** The enrolment loop over a stretch of ticks: it ends at the first tick that succeeds. */
  function TickLoop(a: Agent, settings: Settings, at: Places, ios: seq<TickIO>): (r: (Agent, bool))
    decreases |ios|
  {
    if ios == [] then (a, false)
    else
      var t := Tick(a, settings, at, ios[0]);
      if t.ok then (t.agent, true) else TickLoop(t.agent, settings, at, ios[1..])
  }

  class AddOnServer {
    var starts: nat
    var stops: nat
    var legacyOf: Server?   // whose legacy field LegacyInterface points to

    constructor ()
      ensures starts == stops == 0 && legacyOf == null
    {
      starts, stops, legacyOf := 0, 0, null;
    }

    method Start(fails: bool) returns (ok: bool)
      modifies this`starts
      ensures starts == old(starts) + 1 && (ok <==> !fails)
    {
      starts := starts + 1;
      ok := !fails;
    }

    method Stop()
      modifies this`stops
      ensures stops == old(stops) + 1
    {
      stops := stops + 1;
    }

    method SetLegacy(s: Server)
      modifies this`legacyOf
      ensures legacyOf == s
    {
      legacyOf := s;
    }
  }

  class Server {
    const at: Places
    const fs: FileSystem
    const identity: Service
    const mqtt: Package
    var legacy: Option<Handler>
    var otherServers: seq<AddOnServer>
    var isRunning: bool
    var disconnects: nat   // calls of the MQTT client's Disconnect

    ghost predicate Valid()
      reads this, mqtt
    {
      identity.fs == fs && identity.at == at && mqtt.Valid()
    }

    ghost function Model(): Agent
      reads this, fs, mqtt
    {
      Agent(fs.files, mqtt.Model(), legacy)
    }

    constructor (fs: FileSystem, at: Places, identity: Service, mqtt: Package)
      requires identity.fs == fs && identity.at == at && mqtt.Valid()
      ensures Valid() && this.fs == fs && this.identity == identity && this.mqtt == mqtt && this.at == at
      ensures legacy == None && otherServers == [] && !isRunning
    {
      this.fs, this.at, this.identity, this.mqtt := fs, at, identity, mqtt;
      legacy, otherServers, isRunning, disconnects := None, [], false, 0;
    }

    method CreateLegacySubscriber(e: Enrollment, io: TickIO) returns (h: Option<Handler>, ok: bool)
      requires Valid()
      modifies mqtt
      ensures Valid() && mqtt.Model() == AfterGetConnection(old(mqtt.Model()), e)
      ensures var handed := Handed(old(mqtt.Model()), e, io.broker);
              && h == (if handed.None? then None else Some(Handler(handed.value, e.id, e.orgID)))
              && (ok <==> h.Some? && io.subscribes)
    {
      var conn := mqtt.GetConnection(e, io.broker);
      if conn == null {
        return None, false;
      }
      h := Some(Handler(Conn(conn.clientID, conn.organisationID), e.id, e.orgID));
      ok := io.subscribes;
    }

    method Enroll(io: TickIO) returns (ok: bool)
      requires Valid()
      modifies this`legacy, fs, identity, mqtt
      ensures Valid()
      ensures Model() == Tick(old(Model()), identity.settings, at, io).agent
      ensures ok == Tick(old(Model()), identity.settings, at, io).ok
      ensures identity.posted == old(identity.posted) + Tick(old(Model()), identity.settings, at, io).posted
    {
      var e := identity.CheckEnrollment(io.enroll);
      if e.None? {
        return false;
      }
      legacy, ok := CreateLegacySubscriber(e.value, io);
    }

    method AddServer(server: AddOnServer, fails: bool)
      modifies this`otherServers, server`starts
      ensures otherServers == old(otherServers) + [server]
      ensures server.starts == old(server.starts) + 1
    {
      var _ := server.Start(fails);
      otherServers := otherServers + [server];
    }

    method Stop()
      modifies this`otherServers, this`disconnects, otherServers
      ensures otherServers == []
      ensures forall s :: s in old(otherServers) ==>
                && s.stops == old(s.stops) + multiset(old(otherServers))[s]
                && s.starts == old(s.starts) && s.legacyOf == old(s.legacyOf)
      ensures disconnects == old(disconnects) + if legacy.Some? then 1 else 0
    {
      var i := 0;
      while i < |otherServers|
        invariant 0 <= i <= |otherServers|
        invariant otherServers == old(otherServers)
        invariant forall s :: s in otherServers ==>
                    && s.stops == old(s.stops) + multiset(otherServers[..i])[s]
                    && s.starts == old(s.starts) && s.legacyOf == old(s.legacyOf)
        modifies otherServers
      {
        assert otherServers[..i + 1] == otherServers[..i] + [otherServers[i]];
        otherServers[i].Stop();
        i := i + 1;
      }
      assert otherServers[..i] == otherServers;
      otherServers := [];
      if legacy.Some? {
        disconnects := disconnects + 1;
      }
    }

    /** Run's loop over a stretch of enrolment ticks: it ends at the first that succeeds. */
    method EnrollLoop(ios: seq<TickIO>) returns (done: bool)
      requires Valid()
      modifies this`legacy, fs, identity, mqtt
      ensures Valid() && (Model(), done) == TickLoop(old(Model()), identity.settings, at, ios)
      ensures done ==> legacy.Some?
    {
      var i := 0;
      done := false;
      while i < |ios| && !done
        invariant 0 <= i <= |ios| && Valid()
        invariant done ==> legacy.Some?
        invariant TickLoop(old(Model()), identity.settings, at, ios)
               == if done then (Model(), true) else TickLoop(Model(), identity.settings, at, ios[i..])
        decreases |ios| - i, !done
      {
        done := Enroll(ios[i]);
        i := i + 1;
      }
    }

    /** Run with a NATS server. When the ticks end without a successful one the process is still in its
        loop; otherwise it serves until a quit signal, and Run stops every server on the way out. */
    method Run(nats: AddOnServer, startFails: bool, addFails: bool, ios: seq<TickIO>) returns (attached: bool)
      requires Valid() && nats !in otherServers
      modifies this, fs, identity, mqtt, nats, otherServers
      ensures Valid() && isRunning
      ensures (Model(), attached) == TickLoop(old(Model()), identity.settings, at, ios)
      ensures nats.starts == old(nats.starts) + 2
      ensures !attached ==> otherServers == old(otherServers) + [nats] && nats.stops == old(nats.stops)
                            && nats.legacyOf == old(nats.legacyOf)
      ensures attached ==> otherServers == [] && nats.stops == old(nats.stops) + 1
                           && nats.legacyOf == this && legacy.Some?
                           && disconnects == old(disconnects) + 1
    {
      isRunning := true;
      var _ := nats.Start(startFails);
      AddServer(nats, addFails);
      attached := EnrollLoop(ios);
      if !attached {
        return;
      }
      nats.SetLegacy(this);
      // Serving: a goroutine publishes on its own ticker until a quit signal arrives.
      assert multiset(otherServers)[nats] == 1;
      Stop();
    }
  }

  /** The loop ends with a handler in place, made for the enrolment of its last tick and bound to
      the one MQTT connection; while it goes on, every tick so far has failed. */
  lemma {:induction false} LoopEndsWithHandler(a: Agent, settings: Settings, at: Places, ios: seq<TickIO>)
    requires Sound(a.mqtt)
    ensures var (after, done) := TickLoop(a, settings, at, ios);
            && Sound(after.mqtt)
            && (a.mqtt.conn.Some? ==> after.mqtt == a.mqtt)
            && (done ==> after.legacy.Some? && Some(after.legacy.value.conn) == after.mqtt.conn)
            && (forall k :: 0 <= k <= |ios| && !done
                  ==> !TickLoop(a, settings, at, ios[..k]).1)
    decreases |ios|
  {
    if ios != [] {
      var t := Tick(a, settings, at, ios[0]);
      if !t.ok {
        LoopEndsWithHandler(t.agent, settings, at, ios[1..]);
        var done := TickLoop(a, settings, at, ios).1;
        forall k | 0 < k <= |ios| && !done
          ensures !TickLoop(a, settings, at, ios[..k]).1
        {
          assert ios[..k][0] == ios[0] && ios[..k][1..] == ios[1..][..k - 1];
        }
      }
    }
  }
}
