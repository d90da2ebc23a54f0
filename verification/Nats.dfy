/** pkg/nats/server.go: the local request interface to snapd, unversioned and v1. */
module Nats {
  import opened Disk
  import opened Strings
  import opened Snapd
  import opened Subjects
  import AgentServer = Server

  /** The members of all request messages; each handler reads its own. */
  datatype Request = Request(kind: string, action: string, names: seq<string>, channel: string)

  datatype AppEntry = AppEntry(active: bool, daemon: string, enabled: bool, name: string)

  datatype SnapEntry = SnapEntry(
    apps: seq<AppEntry>, channel: string, id: string, installDate: int, installedSize: int, name: string,
    revision: string, status: string, title: string, trackingChannel: string, kind: string, version: string)

  datatype Reply =
    | Assertions(stream: string)
    | AssertionsV1(stream: string)
    | SnapsFound(snaps: seq<SnapEntry>)
    | Apps(changeID: string, errorText: Option<string>)   // a pointer, perhaps nil
    | AppsV1(changeID: string, error: string)
    | Async(changeID: string, error: string)
    | Status(connected: bool, errorInfo: Option<string>)

  /** What a status request finds behind LegacyInterface. */
  datatype Link = NoHandler | Bound(connected: bool)

  /** The calls of one handler run and its reply, if it publishes one. */
  datatype Served = Served(calls: seq<Call>, reply: Option<Reply>)

  // ---------------------------------------------------------------- what each handler does

  function AppEntryOf(a: App): AppEntry {
    AppEntry(a.active, a.daemon, a.enabled, a.name)
  }

  function AppEntries(apps: seq<App>): (r: seq<AppEntry>)
    ensures |r| == |apps| && forall i :: 0 <= i < |apps| ==> r[i] == AppEntryOf(apps[i])
  {
    seq(|apps|, i requires 0 <= i < |apps| => AppEntryOf(apps[i]))
  }

  function EntryOf(s: Snap): SnapEntry {
    SnapEntry(AppEntries(s.apps), s.channel, s.id, s.installDate, s.installedSize, s.name,
              s.revision, s.status, s.title, s.trackingChannel, s.kind, s.version)
  }

  function EntriesOf(snaps: seq<Snap>): (r: seq<SnapEntry>)
    ensures |r| == |snaps| && forall i :: 0 <= i < |snaps| ==> r[i] == EntryOf(snaps[i])
  {
    seq(|snaps|, i requires 0 <= i < |snaps| => EntryOf(snaps[i]))
  }

  function ServeAssertions(v1: bool, q: Request, a: Answer): Served {
    Served([EncodedAssertions(q.kind)],
           if a.err.Some? then None else Some(if v1 then AssertionsV1(a.text) else Assertions(a.text)))
  }

  function ServeSnaps(a: Answer): Served {
    Served([Call.Snaps], if a.err.Some? then None else Some(SnapsFound(EntriesOf(a.snaps))))
  }

  function AppsCall(q: Request): Option<Call> {
    if q.action == "start" then Some(Call.Start(q.names))
    else if q.action == "stop" then Some(Call.Stop(q.names))
    else None
  }

  function ServeApps(v1: bool, q: Request, a: Answer): Served {
    var call := AppsCall(q);
    if call.None? then Served([], None)
    else Served([call.value], Some(if v1 then AppsV1(a.text, if a.err.Some? then a.err.value else "")
                                   else Apps(a.text, a.err)))
  }

  const NoChange := "-1"
  const InvalidAction := "Invalid action"
  const UnexpectedLength := "Subject is unexpected length"
  const NotAttached :=
    "Mqtt connection status request but no LegacyInterface has not been set. " +
    "Perhaps this request happened before iot-agent has finished starting up"

  function ServeSwitch(subject: string, q: Request, a: Answer): Served {
    var parts := Split(subject, '.');
    if q.action != "switch" then Served([], Some(Async(NoChange, InvalidAction)))
    else if |parts| != 6 then Served([], Some(Async(NoChange, UnexpectedLength)))
    else Served([Switch(parts[4], q.channel)], Some(Async(a.text, if a.err.Some? then a.err.value else "")))
  }

  function ServeStatus(link: Link): Served {
    Served([], Some(if link.NoHandler? then Status(false, Some(NotAttached)) else Status(link.connected, None)))
  }

  /** A handler run on a request; a answers its call, if it makes one. */
  function Serve(t: Topic, subject: string, q: Request, link: Link, a: Answer): Served {
    match t
    case AssertionsGet => ServeAssertions(false, q, a)
    case AssertionsGetV1 => ServeAssertions(true, q, a)
    case SnapsGet => ServeSnaps(a)
    case SnapsGetV1 => ServeSnaps(a)
    case AppsPost => ServeApps(false, q, a)
    case AppsPostV1 => ServeApps(true, q, a)
    case SnapsSnapPostV1 => ServeSwitch(subject, q, a)
    case ConnectionStatus => ServeStatus(link)
  }

  /** What a handler publishes on the reply subject of its request. */
  function Sent(reply: string, s: Served): seq<(string, Reply)> {
    if s.reply.None? then [] else [(reply, s.reply.value)]
  }

  // ---------------------------------------------------------------- the server

  /** What the connect loop's select receives. */
  datatype Event = Tick(connects: bool) | Quit

  /** Waiting: still in the loop when the events at hand are used up. */
  datatype Outcome = Connected | GaveUp | Waiting

  /** first: the connection attempt before the loop; refused: subscriptions that fail. */
  datatype StartIO = StartIO(first: bool, events: seq<Event>, refused: set<Topic>)

  /** Some attempt succeeds before a quit signal is handled. */
  predicate ConnectsBeforeQuit(events: seq<Event>) {
    exists k :: 0 <= k < |events| && events[k] == Tick(true) && forall j :: 0 <= j < k ==> events[j] != Quit
  }

  predicate QuitsBeforeConnect(events: seq<Event>) {
    exists k :: 0 <= k < |events| && events[k] == Quit && forall j :: 0 <= j < k ==> events[j] != Tick(true)
  }

  predicate Connects(io: StartIO) {
    io.first || ConnectsBeforeQuit(io.events)
  }

  /** getInitialNATSConnection: which of success and quit comes first decides, and every return
      after a created ticker stops it. */
  method GetInitialConnection(first: bool, events: seq<Event>)
    returns (o: Outcome, tickers: nat, stopped: nat)
    ensures o == Connected <==> first || ConnectsBeforeQuit(events)
    ensures o == GaveUp <==> !first && QuitsBeforeConnect(events)
    ensures tickers == if first then 0 else 1
    ensures stopped == if o == Waiting then 0 else tickers
  {
    tickers, stopped := 0, 0;
    if first {
      return Connected, tickers, stopped;
    }
    tickers := 1;
    var i := 0;
    while i < |events|
      invariant 0 <= i <= |events|
      invariant forall j :: 0 <= j < i ==> events[j] == Tick(false)
    {
      match events[i] {
        case Tick(connects) =>
          if connects {
            return Connected, tickers, 1;
          }
        case Quit =>
          return GaveUp, tickers, 1;
      }
      i := i + 1;
    }
    o := Waiting;
  }

  method MakeSnapsResponseApps(apps: seq<App>) returns (r: seq<AppEntry>)
    ensures r == AppEntries(apps)
  {
    r := [];
    for i := 0 to |apps|
      invariant r == AppEntries(apps)[..i]
    {
      r := r + [AppEntry(apps[i].active, apps[i].daemon, apps[i].enabled, apps[i].name)];
    }
  }

  class Server {
    const client: Client
    var encoded: bool                        // encodedConn is set
    var subscribed: seq<Topic>               // on all connections made so far
    var legacyOf: AgentServer.Server?           // whose handler field LegacyInterface points to
    var published: seq<(string, Reply)>

    /** A handler that can run finds encodedConn set. */
    ghost predicate Valid()
      reads this
    {
      subscribed != [] ==> encoded
    }

    ghost function LinkTo(open: bool): Link
      reads this
    {
      if legacyOf == null then NoHandler else Bound(open)
    }

    constructor (client: Client)
      ensures Valid() && subscribed == [] && legacyOf == null && published == [] && this.client == client
    {
      this.client := client;
      encoded, subscribed, legacyOf, published := false, [], null, [];
    }

    method SetLegacy(s: AgentServer.Server)
      modifies this`legacyOf
      ensures legacyOf == s
    {
      legacyOf := s;
    }

    static lemma OneMore(todo: set<Topic>, refused: set<Topic>, t: Topic)
      requires t in todo && todo <= AllTopics
      ensures multiset(AllTopics - (todo - {t}) - refused)
           == multiset(AllTopics - todo - refused) + if t in refused then multiset{} else multiset{t}
    {
      var seen := AllTopics - todo - refused;
      assert AllTopics - (todo - {t}) - refused == if t in refused then seen else seen + {t};
    }

    /** The subscriptions come from a map, in no particular order. */
    method SetupSubscriptions(refused: set<Topic>)
      requires encoded
      modifies this`subscribed
      ensures old(subscribed) <= subscribed
      ensures multiset(subscribed) == multiset(old(subscribed)) + multiset(AllTopics - refused)
    {
      var todo := AllTopics;
      while todo != {}
        invariant todo <= AllTopics && old(subscribed) <= subscribed
        invariant multiset(subscribed) == multiset(old(subscribed)) + multiset(AllTopics - todo - refused)
      {
        var t :| t in todo;
        OneMore(todo, refused, t);
        if t !in refused {
          subscribed := subscribed + [t];
        }
        todo := todo - {t};
      }
      assert AllTopics - todo - refused == AllTopics - refused;
    }

    /** Start returns nil when connected and an error when it gave up. */
    method Start(io: StartIO) returns (o: Outcome)
      requires Valid()
      modifies this`encoded, this`subscribed
      ensures Valid()
      ensures o == Connected <==> Connects(io)
      ensures o == GaveUp <==> !io.first && QuitsBeforeConnect(io.events)
      ensures old(subscribed) <= subscribed
      ensures multiset(subscribed) == multiset(old(subscribed))
                + if o == Connected then multiset(AllTopics - io.refused) else multiset{}
    {
      var tickers, stopped;
      o, tickers, stopped := GetInitialConnection(io.first, io.events);
      if o != Connected {
        return;
      }
      encoded := true;
      SetupSubscriptions(io.refused);
    }

    method Publish(reply: string, r: Reply)
      requires encoded
      modifies this`published
      ensures published == old(published) + [(reply, r)]
    {
      published := published + [(reply, r)];
    }

    method HandleAssertionsGet(reply: string, q: Request)
      requires encoded
      modifies client, this`published
      ensures var s := ServeAssertions(false, q, client.answers(|old(client.calls)|));
              client.calls == old(client.calls) + s.calls && published == old(published) + Sent(reply, s)
    {
      var a := client.Do(EncodedAssertions(q.kind));
      if a.err.Some? {
        return;
      }
      Publish(reply, Assertions(a.text));
    }

    method HandleAssertionsGetV1(reply: string, q: Request)
      requires encoded
      modifies client, this`published
      ensures var s := ServeAssertions(true, q, client.answers(|old(client.calls)|));
              client.calls == old(client.calls) + s.calls && published == old(published) + Sent(reply, s)
    {
      var a := client.Do(EncodedAssertions(q.kind));
      if a.err.Some? {
        return;
      }
      Publish(reply, AssertionsV1(a.text));
    }

    /** handleSnapsGet and handleSnapsGetv1, which are the same. */
    method HandleSnapsGet(reply: string)
      requires encoded
      modifies client, this`published
      ensures var s := ServeSnaps(client.answers(|old(client.calls)|));
              client.calls == old(client.calls) + s.calls && published == old(published) + Sent(reply, s)
    {
      var a := client.Do(Call.Snaps);
      if a.err.Some? {
        return;
      }
      var entries: seq<SnapEntry> := [];
      for i := 0 to |a.snaps|
        invariant entries == EntriesOf(a.snaps)[..i]
        modifies {}
      {
        var apps := MakeSnapsResponseApps(a.snaps[i].apps);
        entries := entries + [EntryOf(a.snaps[i]).(apps := apps)];
      }
      assert entries == EntriesOf(a.snaps);
      Publish(reply, SnapsFound(entries));
    }

    method HandleAppsPost(reply: string, q: Request)
      requires encoded
      modifies client, this`published
      ensures var s := ServeApps(false, q, client.answers(|old(client.calls)|));
              client.calls == old(client.calls) + s.calls && published == old(published) + Sent(reply, s)
    {
      if q.action != "stop" && q.action != "start" {
        return;
      }
      var a: Answer;
      if q.action == "start" {
        a := client.Do(Call.Start(q.names));
      } else {
        a := client.Do(Call.Stop(q.names));
      }
      if a.err.Some? {
        Publish(reply, Apps(a.text, Some(a.err.value)));
        return;
      }
      Publish(reply, Apps(a.text, None));
    }

    method HandleAppsPostV1(reply: string, q: Request)
      requires encoded
      modifies client, this`published
      ensures var s := ServeApps(true, q, client.answers(|old(client.calls)|));
              client.calls == old(client.calls) + s.calls && published == old(published) + Sent(reply, s)
    {
      if q.action != "stop" && q.action != "start" {
        return;
      }
      var a: Answer;
      if q.action == "start" {
        a := client.Do(Call.Start(q.names));
      } else {
        a := client.Do(Call.Stop(q.names));
      }
      if a.err.Some? {
        Publish(reply, AppsV1(a.text, a.err.value));
        return;
      }
      Publish(reply, AppsV1(a.text, ""));
    }

    /** What a switch answers, starting out as an unknown error. */
    method SwitchResponse(subject: string, q: Request) returns (changeID: string, error: string)
      modifies client
      ensures var s := ServeSwitch(subject, q, client.answers(|old(client.calls)|));
              client.calls == old(client.calls) + s.calls && s.reply == Some(Async(changeID, error))
    {
      changeID, error := NoChange, "Unknown error";
      if q.action != "switch" {
        return changeID, InvalidAction;
      }
      var parts := Split(subject, '.');
      if |parts| != 6 {
        return changeID, UnexpectedLength;
      }
      var a := client.Do(Switch(parts[4], q.channel));
      if a.err.Some? {
        return a.text, a.err.value;
      }
      error := "";
      changeID := a.text;
    }

    /** The publish is deferred: it follows on every way out. */
    method HandleSnapsSnapPostV1(subject: string, reply: string, q: Request)
      requires encoded
      modifies client, this`published
      ensures var s := ServeSwitch(subject, q, client.answers(|old(client.calls)|));
              client.calls == old(client.calls) + s.calls && published == old(published) + Sent(reply, s)
    {
      var changeID, error := SwitchResponse(subject, q);
      Publish(reply, Async(changeID, error));
    }

    /** open is what IsConnected of the handler behind LegacyInterface answers; a nil one would panic. */
    method HandleMqttConnectionStatus(reply: string, open: bool)
      requires encoded && (legacyOf != null ==> legacyOf.legacy.Some?)
      modifies this`published
      ensures published == old(published) + Sent(reply, ServeStatus(LinkTo(open)))
      ensures |published| == |old(published)| + 1 && published[|old(published)|].0 == reply
      ensures var r := published[|old(published)|].1;
              && r.Status? && (r.errorInfo.Some? <==> legacyOf == null)
              && (r.connected <==> legacyOf != null && open)
    {
      var response := Status(false, None);
      if legacyOf == null {
        response := response.(errorInfo := Some(NotAttached));
      } else {
        response := response.(connected := open);
      }
      Publish(reply, response);
    }

    /** A message for one subscription reaches its handler. */
    method Receive(t: Topic, subject: string, reply: string, q: Request, open: bool)
      requires Valid() && t in subscribed && (legacyOf != null ==> legacyOf.legacy.Some?)
      modifies client, this`published
      ensures Valid()
      ensures var s := Serve(t, subject, q, LinkTo(open), client.answers(|old(client.calls)|));
              client.calls == old(client.calls) + s.calls && published == old(published) + Sent(reply, s)
    {
      match t
      case AssertionsGet => HandleAssertionsGet(reply, q);
      case AssertionsGetV1 => HandleAssertionsGetV1(reply, q);
      case SnapsGet => HandleSnapsGet(reply);
      case SnapsGetV1 => HandleSnapsGet(reply);
      case AppsPost => HandleAppsPost(reply, q);
      case AppsPostV1 => HandleAppsPostV1(reply, q);
      case SnapsSnapPostV1 => HandleSnapsSnapPostV1(subject, reply, q);
      case ConnectionStatus => HandleMqttConnectionStatus(reply, open);
    }
  }

  // ---------------------------------------------------------------- calls and replies of one request

  /** Every run makes at most one call; assertions and snaps requests go unanswered exactly when snapd
      fails, start and stop requests exactly when the action is another; a switch or status
      request is always answered. */
  lemma RepliesExact(t: Topic, subject: string, q: Request, link: Link, a: Answer)
    ensures var s := Serve(t, subject, q, link, a);
            var known := q.action == "start" || q.action == "stop";
            && |s.calls| <= 1
            && (s.reply.Some? <==> match t
                  case AppsPost => known
                  case AppsPostV1 => known
                  case SnapsSnapPostV1 => true
                  case ConnectionStatus => true
                  case _ => a.err.None?)
            && (s.calls == [] <==> match t
                  case AppsPost => !known
                  case AppsPostV1 => !known
                  case SnapsSnapPostV1 => q.action != "switch" || |Split(subject, '.')| != 6
                  case ConnectionStatus => true
                  case _ => false)
            && ((t == AppsPost || t == AppsPostV1) && known ==>
                  && ActionOf(s.calls[0]) == q.action
                  && (s.calls[0] == Call.Start(q.names) || s.calls[0] == Call.Stop(q.names)))
  {
  }

  /** An assertions request asks for the type it names and is answered with what snapd gave; the reply to a start or
      stop, in either version, carries snapd's change ID and its error text. */
  lemma AnswersExact(t: Topic, subject: string, q: Request, link: Link, a: Answer)
    ensures var s := Serve(t, subject, q, link, a);
            && (t == AssertionsGet || t == AssertionsGetV1 ==> s.calls == [EncodedAssertions(q.kind)])
            && (t == AssertionsGet && s.reply.Some? ==> s.reply.value.Assertions? && s.reply.value.stream == a.text)
            && (t == AssertionsGetV1 && s.reply.Some? ==> s.reply.value.AssertionsV1? && s.reply.value.stream == a.text)
            && (t == SnapsGet || t == SnapsGetV1 ==> s.calls == [Call.Snaps])
            && (t == AppsPost && s.reply.Some? ==>
                  s.reply.value.Apps? && s.reply.value.changeID == a.text && s.reply.value.errorText == a.err)
            && (t == AppsPostV1 && s.reply.Some? ==>
                  && s.reply.value.AppsV1? && s.reply.value.changeID == a.text
                  && (a.err.Some? ==> Some(s.reply.value.error) == a.err)
                  && (a.err.None? ==> s.reply.value.error == ""))
  {
  }

  lemma SwitchExact(subject: string, q: Request, a: Answer)
    requires |Split(subject, '.')| == 6
    ensures var s := ServeSwitch(subject, q, a);
            && s.calls == (if q.action == "switch" then [Switch(Split(subject, '.')[4], q.channel)] else [])
            && s.reply.Some? && s.reply.value.Async?
            && (q.action != "switch" ==> s.reply.value == Async(NoChange, InvalidAction))
            && (q.action == "switch" ==>
                  && s.reply.value.changeID == a.text
                  && ((s.reply.value.error == "" <==> a.err.None?) <==> a.err != Some("")))
  {
  }

  /** A switch request published for a snap is delivered and switches that snap; its reply tells success
      from failure exactly when snapd's error text is not empty; "-1" stands for a refusal. */
  lemma SwitchReachesSnap(snap: string, q: Request, a: Answer)
    requires '.' !in snap
    ensures Matches(SnapsSnapPostV1, SnapSubject(snap))
    ensures var s := ServeSwitch(SnapSubject(snap), q, a);
            && s.calls == (if q.action == "switch" then [Switch(snap, q.channel)] else [])
            && s.reply.Some? && s.reply.value.Async?
            && (q.action != "switch" ==> s.reply.value == Async(NoChange, InvalidAction))
            && (q.action == "switch" ==>
                  && s.reply.value.changeID == a.text
                  && ((s.reply.value.error == "" <==> a.err.None?) <==> a.err != Some("")))
  {
    SnapSubjectParts(snap);
    SwitchExact(SnapSubject(snap), q, a);
  }

  /** A status request received by a server gets one reply, which carries error information exactly when the server
      has no handler pointer, and then reports no connection; otherwise it reports what
      the handler's connection says. */
  lemma StatusExact(server: Server, subject: string, reply: string, q: Request, open: bool, a: Answer)
    ensures var sent := Sent(reply, Serve(ConnectionStatus, subject, q, server.LinkTo(open), a));
            && |sent| == 1 && sent[0].0 == reply && sent[0].1.Status?
            && (sent[0].1.errorInfo.Some? <==> server.legacyOf == null)
            && (server.legacyOf == null ==> !sent[0].1.connected)
            && (server.legacyOf != null ==> sent[0].1.connected == open)
  {
  }

  /** The snap that an entry describes. */
  function Restored(e: SnapEntry, more: SnapMore): Snap {
    Snap(e.id, e.name, e.title, e.revision, e.version, e.channel, e.trackingChannel, e.status, e.kind,
         e.installDate, e.installedSize,
         seq(|e.apps|, i requires 0 <= i < |e.apps| =>
           App(e.apps[i].name, e.apps[i].daemon, e.apps[i].enabled, e.apps[i].active)),
         more)
  }

  /** A snaps reply loses nothing that it has a member for: one entry for each snap, in order, from
      which all but the members it does not mention can be told. */
  lemma SnapsReplyFaithful(t: Topic, subject: string, q: Request, link: Link, a: Answer)
    requires (t == SnapsGet || t == SnapsGetV1) && a.err.None?
    ensures var r := Serve(t, subject, q, link, a).reply;
            && r.Some? && r.value.SnapsFound? && |r.value.snaps| == |a.snaps|
            && forall i :: 0 <= i < |a.snaps| ==> Restored(r.value.snaps[i], a.snaps[i].more) == a.snaps[i]
  {
    forall i | 0 <= i < |a.snaps|
      ensures Restored(EntryOf(a.snaps[i]), a.snaps[i].more) == a.snaps[i]
    {
      assert Restored(EntryOf(a.snaps[i]), a.snaps[i].more).apps == a.snaps[i].apps;
    }
  }

  // ---------------------------------------------------------------- the two versions

  /** One handler run to come: the topic it is subscribed to and what it gets. */
  datatype Incoming = Incoming(topic: Topic, subject: string, reply: string, request: Request, link: Link)

  datatype Log = Log(calls: seq<Call>, published: seq<(string, Reply)>)

  /** What a single run contributes to the log. */
  function LogOf(m: Incoming, a: Answer): Log {
    var s := Serve(m.topic, m.subject, m.request, m.link, a);
    Log(s.calls, Sent(m.reply, s))
  }

  function Append(a: Log, b: Log): Log {
    Log(a.calls + b.calls, a.published + b.published)
  }

  /** Handler runs one after another; the n-th outside call gets the n-th answer. */
  function RunAll(ms: seq<Incoming>, run: (Incoming, Answer) -> Log, answers: Answers, n: nat): Log {
    if ms == [] then Log([], [])
    else
      var one := run(ms[0], answers(n));
      Append(one, RunAll(ms[1..], run, answers, n + |one.calls|))
  }

  function Session(ms: seq<Incoming>, answers: Answers, n: nat): Log {
    RunAll(ms, LogOf, answers, n)
  }

  /** The same request made in the two versions of the interface. */
  predicate Counterparts(m: Incoming, v: Incoming) {
    && v.reply == m.reply && v.request == m.request
    && ((m.topic == AssertionsGet && v.topic == AssertionsGetV1)
        || (m.topic == SnapsGet && v.topic == SnapsGetV1)
        || (m.topic == AppsPost && v.topic == AppsPostV1))
  }

  predicate AllCounterparts(ms: seq<Incoming>, vs: seq<Incoming>) {
    |ms| == |vs| && forall i :: 0 <= i < |ms| ==> Counterparts(ms[i], vs[i])
  }

  lemma TailCounterparts(ms: seq<Incoming>, vs: seq<Incoming>)
    requires AllCounterparts(ms, vs) && ms != []
    ensures Counterparts(ms[0], vs[0]) && AllCounterparts(ms[1..], vs[1..])
  {
  }

  /** The v1 form of a reply: a nil error becomes an empty one. */
  function Lift(r: Reply): Reply {
    match r
    case Assertions(stream) => AssertionsV1(stream)
    case Apps(id, text) => AppsV1(id, if text.Some? then text.value else "")
    case _ => r
  }

  datatype Json = Text(s: string) | Flag(b: bool) | Listing(snaps: seq<SnapEntry>)

  /** A member tagged omitempty. */
  function OmitEmpty(name: string, s: string): map<string, Json> {
    if s == "" then map[] else map[name := Text(s)]
  }

  /** The members of the JSON object that a reply is encoded as. */
  function Wire(r: Reply): map<string, Json> {
    match r
    case Assertions(stream) => map["stream" := Text(stream)]
    case AssertionsV1(stream) => OmitEmpty("stream", stream)
    case SnapsFound(snaps) => if snaps == [] then map[] else map["snaps" := Listing(snaps)]
    case Apps(id, text) =>
      map["changeId" := Text(id)] + if text.None? then map[] else map["error" := Text(text.value)]
    case AppsV1(id, error) => OmitEmpty("changeId", id) + OmitEmpty("error", error)
    case Async(id, error) => OmitEmpty("changeId", id) + OmitEmpty("error", error)
    case Status(connected, info) =>
      map["connected" := Flag(connected)] + if info.None? then map[] else map["errorInfo" := Text(info.value)]
  }

  /** A reply without a member that only one version leaves out. */
  predicate Plain(r: Reply) {
    match r
    case Assertions(stream) => stream != ""
    case Apps(id, text) => id != "" && text != Some("")
    case _ => true
  }

  lemma WireSameExact(r: Reply)
    ensures Wire(r) == Wire(Lift(r)) <==> Plain(r)
  {
    match r
    case Assertions(stream) => assert "stream" in Wire(r);
    case Apps(id, text) =>
      assert "changeId" in Wire(r) && ("changeId" in Wire(Lift(r)) <==> id != "");
      assert "error" in Wire(r) <==> text.Some?;
      assert "error" in Wire(Lift(r)) <==> text.Some? && text.value != "";
    case _ =>
  }

  /** Two replies say the same up to nil against empty, and in the same JSON exactly when plain. */
  predicate SaysSame(a: (string, Reply), b: (string, Reply)) {
    a.0 == b.0 && b.1 == Lift(a.1) && (Wire(a.1) == Wire(b.1) <==> Plain(a.1))
  }

  predicate Agree(a: Log, b: Log) {
    && a.calls == b.calls
    && |a.published| == |b.published|
    && forall i :: 0 <= i < |a.published| ==> SaysSame(a.published[i], b.published[i])
  }

  lemma AgreeAppend(a: Log, b: Log, a': Log, b': Log)
    requires Agree(a, b) && Agree(a', b')
    ensures Agree(Append(a, a'), Append(b, b'))
  {
  }

  lemma AgreeOnOne(m: Incoming, v: Incoming, a: Answer)
    requires Counterparts(m, v)
    ensures Agree(LogOf(m, a), LogOf(v, a))
  {
    var s := Serve(m.topic, m.subject, m.request, m.link, a);
    if s.reply.Some? {
      WireSameExact(s.reply.value);
    }
  }

  /** Handler runs that agree one by one agree one after another. */
  lemma {:induction false} RunsAgree(ms: seq<Incoming>, vs: seq<Incoming>, run: (Incoming, Answer) -> Log,
                                     answers: Answers, n: nat)
    requires forall m: Incoming, v: Incoming, a: Answer :: Counterparts(m, v) ==> Agree(run(m, a), run(v, a))
    requires AllCounterparts(ms, vs)
    ensures Agree(RunAll(ms, run, answers, n), RunAll(vs, run, answers, n))
  {
    if ms != [] {
      TailCounterparts(ms, vs);
      var one, other := run(ms[0], answers(n)), run(vs[0], answers(n));
      assert Agree(one, other);
      var n' := n + |one.calls|;
      RunsAgree(ms[1..], vs[1..], run, answers, n');
      AgreeAppend(one, other, RunAll(ms[1..], run, answers, n'), RunAll(vs[1..], run, answers, n'));
    }
  }

  /** Over every sequence of requests and every outcome of the outside calls the two versions make the same calls
      in the same order and publish the same replies on the same subjects, up to nil against empty;
      byte by byte the same exactly for replies without an empty member. */
  lemma VersionsAgree(ms: seq<Incoming>, vs: seq<Incoming>, answers: Answers, n: nat)
    requires AllCounterparts(ms, vs)
    ensures Agree(Session(ms, answers, n), Session(vs, answers, n))
  {
    forall m: Incoming, v: Incoming, a: Answer | Counterparts(m, v) ensures Agree(LogOf(m, a), LogOf(v, a)) {
      AgreeOnOne(m, v, a);
    }
    RunsAgree(ms, vs, LogOf, answers, n);
  }

  // ---------------------------------------------------------------- several starts

  function Filter(subscribed: seq<Topic>, hit: Topic -> bool): seq<Topic> {
    if subscribed == [] then []
    else (if hit(subscribed[0]) then [subscribed[0]] else []) + Filter(subscribed[1..], hit)
  }

  /** The handler runs that a message on a subject causes. */
  function Deliveries(subscribed: seq<Topic>, subject: string): seq<Topic> {
    Filter(subscribed, t => Matches(t, subject))
  }

  lemma {:induction false} FilterOne(subscribed: seq<Topic>, t: Topic, hit: Topic -> bool)
    requires forall u :: hit(u) <==> u == t
    ensures var runs := Filter(subscribed, hit);
            |runs| == multiset(subscribed)[t] && forall i :: 0 <= i < |runs| ==> runs[i] == t
  {
    if subscribed != [] {
      FilterOne(subscribed[1..], t, hit);
      assert subscribed == [subscribed[0]] + subscribed[1..];
    }
  }

  /** A message on a subject of topic t reaches t's handler once for each subscription, and no other. */
  lemma OneHandlerEach(subscribed: seq<Topic>, t: Topic, subject: string)
    requires Matches(t, subject)
    ensures var runs := Deliveries(subscribed, subject);
            |runs| == multiset(subscribed)[t] && forall i :: 0 <= i < |runs| ==> runs[i] == t
  {
    forall u | u != t ensures !Matches(u, subject) {
      NoOverlap(t, u, subject);
    }
    FilterOne(subscribed, t, u => Matches(u, subject));
  }

  /** What each Start adds, over any number of them. */
  function AfterStarts(ios: seq<StartIO>): multiset<Topic> {
    if ios == [] then multiset{}
    else AfterStarts(ios[..|ios| - 1])
         + if Connects(ios[|ios| - 1]) then multiset(AllTopics - ios[|ios| - 1].refused) else multiset{}
  }

  /** The Starts that connected and whose subscription to t was not refused. */
  function Effective(ios: seq<StartIO>, t: Topic): nat {
    if ios == [] then 0
    else Effective(ios[..|ios| - 1], t) + if Connects(ios[|ios| - 1]) && t !in ios[|ios| - 1].refused then 1 else 0
  }

  lemma {:induction false} SubscriptionsCount(ios: seq<StartIO>, t: Topic)
    ensures AfterStarts(ios)[t] == Effective(ios, t)
  {
    if ios != [] {
      SubscriptionsCount(ios[..|ios| - 1], t);
      assert t in AllTopics;
    }
  }

  /** Every request is handled once for each effective Start; so after the two Starts of a Run that
      both connect, twice, and when both gave up, never. */
  lemma HandledPerStart(subscribed: seq<Topic>, ios: seq<StartIO>, t: Topic, subject: string)
    requires multiset(subscribed) == AfterStarts(ios) && Matches(t, subject)
    ensures |Deliveries(subscribed, subject)| == Effective(ios, t)
    ensures forall i :: 0 <= i < |Deliveries(subscribed, subject)| ==> Deliveries(subscribed, subject)[i] == t
  {
    SubscriptionsCount(ios, t);
    OneHandlerEach(subscribed, t, subject);
  }

  /** Starts one after another, as long as they return. In Run the first is its own and the second is AddServer's. */
  method StartInTurn(server: Server, ios: seq<StartIO>) returns (made: nat)
    requires server.Valid() && server.subscribed == []
    modifies server
    ensures server.Valid() && made <= |ios|
    ensures made < |ios| ==> made > 0 && !Connects(ios[made - 1]) && !QuitsBeforeConnect(ios[made - 1].events)
    ensures multiset(server.subscribed) == AfterStarts(ios[..made])
    ensures forall t: Topic, subject: string :: Matches(t, subject) ==>
              |Deliveries(server.subscribed, subject)| == Effective(ios[..made], t)
  {
    made := 0;
    var o := GaveUp;
    while made < |ios| && o != Waiting
      invariant server.Valid() && made <= |ios|
      invariant o == Waiting ==> made > 0 && !Connects(ios[made - 1]) && !QuitsBeforeConnect(ios[made - 1].events)
      invariant multiset(server.subscribed) == AfterStarts(ios[..made])
    {
      o := server.Start(ios[made]);
      assert ios[..made + 1][..made] == ios[..made];
      made := made + 1;
    }
    forall t: Topic, subject: string | Matches(t, subject)
      ensures |Deliveries(server.subscribed, subject)| == Effective(ios[..made], t)
    {
      HandledPerStart(server.subscribed, ios[..made], t, subject);
    }
  }

  lemma BothEffective(own: StartIO, added: StartIO, t: Topic)
    requires Connects(own) && Connects(added) && t !in own.refused && t !in added.refused
    ensures Effective([own, added], t) == 2
  {
    assert [own, added][..1] == [own] && [own][..0] == [];
    assert Effective([own], t) == 1;
  }

  /** When Run's own Start and AddServer's both connect and neither is refused t, every request on t is
      handled twice. */
  lemma RunHandlesTwice(subscribed: seq<Topic>, own: StartIO, added: StartIO, t: Topic, subject: string)
    requires multiset(subscribed) == AfterStarts([own, added]) && Matches(t, subject)
    requires Connects(own) && Connects(added) && t !in own.refused && t !in added.refused
    ensures Deliveries(subscribed, subject) == [t, t]
  {
    HandledPerStart(subscribed, [own, added], t, subject);
    BothEffective(own, added, t);
  }

  lemma OneReply(m: Incoming, a: Answer)
    requires m.topic == SnapsSnapPostV1 || m.topic == ConnectionStatus
    ensures |LogOf(m, a).published| == 1 && LogOf(m, a).published[0].0 == m.reply
  {
    RepliesExact(m.topic, m.subject, m.request, m.link, a);
  }

  /** Handler runs of a switch or status request each publish one reply on its reply subject, so the
      number of replies is the number of subscriptions. */
  lemma {:induction false} ReplyEach(ms: seq<Incoming>, reply: string, answers: Answers, n: nat)
    requires forall i :: 0 <= i < |ms| ==>
               ms[i].reply == reply && (ms[i].topic == SnapsSnapPostV1 || ms[i].topic == ConnectionStatus)
    ensures var log := Session(ms, answers, n);
            |log.published| == |ms| && forall i :: 0 <= i < |ms| ==> log.published[i].0 == reply
  {
    if ms != [] {
      OneReply(ms[0], answers(n));
      ReplyEach(ms[1..], reply, answers, n + |LogOf(ms[0], answers(n)).calls|);
    }
  }
}
