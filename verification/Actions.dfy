/** pkg/legacy/subscribe_action.go: what each action on the MQTT topic asks snapd and replies. */
module Actions {
  import opened Disk
  import opened Paths
  import opened Config
  import opened Strings
  import opened Snapd

  datatype SubscribeAction = SubscribeAction(id: string, action: string, snap: string, data: string)

  datatype DeviceSnap = DeviceSnap(
    deviceID: string, name: string, installedSize: int, installedDate: int, status: string, channel: string,
    confinement: string, version: string, revision: int, devmode: bool, config: string)

  datatype DeviceVersion = DeviceVersion(deviceID: string, details: VersionDetails)

  datatype Result =
    | Nothing
    | Task(changeID: string)
    | Device(orgID: string, deviceID: string, details: DeviceDetails, version: Option<DeviceVersion>)
    | SnapList(snaps: seq<DeviceSnap>)
    | Info(snap: DeviceSnap)
    | Version(server: DeviceVersion)

  datatype Response = Response(id: string, action: string, success: bool, message: string, result: Result)

  datatype Decoded<T> = Value(value: T) | Malformed(message: string)

  datatype LogRequest = LogRequest(limit: int, url: string)

  /** json.Unmarshal of the data member, by the type it is decoded into. */
  datatype Codec = Codec(
    services: string -> Decoded<seq<string>>,
    patch: string -> Decoded<string>,
    logs: string -> Decoded<LogRequest>,
    snapshotURL: string -> Decoded<string>)

  /** How many attempts retry.Do makes. */
  type Limit = n: nat | n > 0 witness 10

  /** A reply and the calls made for it. */
  datatype Served = Served(reply: Response, calls: seq<Call>)

  function Failed(act: SubscribeAction, message: string): Response {
    Response(act.id, "", false, message, Nothing)
  }

  function Succeeded(act: SubscribeAction, result: Result): Response {
    Response(act.id, "", true, "", result)
  }

  // ---------------------------------------------------------------- actions with at most one call

  /** The guards of an action: refused, or one call. */
  datatype Plan = Refuse(message: string) | Ask(call: Call)

  function InvalidService(s: string): string { "invalid service: " + s }

  /** The first service without the prefix, if any. */
  function FirstInvalid(services: seq<string>, snap: string): Option<string> {
    if services == [] then None
    else if !HasPrefix(services[0], snap) then Some(services[0])
    else FirstInvalid(services[1..], snap)
  }

  /** The names given to snapd to start, stop or restart. */
  function ValidServices(snap: string, data: string, codec: Codec): Decoded<seq<string>> {
    match codec.services(data)
    case Malformed(m) => Malformed(m)
    case Value(services) =>
      if services == [] then Value([snap])
      else if FirstInvalid(services, snap).Some? then Malformed(InvalidService(FirstInvalid(services, snap).value))
      else Value(services)
  }

  function ServicePlan(act: SubscribeAction, codec: Codec, verb: string, call: seq<string> -> Call): Plan {
    if act.snap == "" then Refuse("No snap name provided for " + verb)
    else match ValidServices(act.snap, act.data, codec)
         case Malformed(m) => Refuse(m)
         case Value(names) => Ask(call(names))
  }

  function SnapPlan(act: SubscribeAction, verb: string, call: Call): Plan {
    if act.snap == "" then Refuse("No snap name provIded for " + verb) else Ask(call)
  }

  /** The actions that answer with the ID of a snapd change. */
  function TaskPlan(act: SubscribeAction, codec: Codec): Option<Plan> {
    match act.action
    case "install" => Some(SnapPlan(act, "install", Install(act.snap)))
    case "remove" => Some(SnapPlan(act, "remove", Remove(act.snap)))
    case "refresh" => Some(SnapPlan(act, "refresh", Refresh(act.snap, None)))
    case "revert" => Some(SnapPlan(act, "revert", Revert(act.snap)))
    case "enable" => Some(SnapPlan(act, "enable", Enable(act.snap)))
    case "disable" => Some(SnapPlan(act, "disable", Disable(act.snap)))
    case "switch" =>
      Some(if act.snap != "" && act.data == "" then Refuse("No channel provided for switch")
           else SnapPlan(act, "switch", Refresh(act.snap, Some(act.data))))
    case "start" => Some(ServicePlan(act, codec, "start", names => Start(names)))
    case "stop" => Some(ServicePlan(act, codec, "stop", names => Stop(names)))
    case "restart" => Some(ServicePlan(act, codec, "restart", names => Restart(names)))
    case "setconf" =>
      Some(if act.snap == "" then SnapPlan(act, "set config", SetConf("", ""))
           else match codec.patch(act.data)
                case Malformed(m) => Refuse(m)
                case Value(patch) => Ask(SetConf(act.snap, patch)))
    case _ => None
  }

  function ServeTask(act: SubscribeAction, plan: Plan, answers: Answers, n: nat): Served {
    match plan
    case Refuse(m) => Served(Failed(act, m), [])
    case Ask(call) =>
      var a := answers(n);
      Served(if a.err.Some? then Failed(act, a.err.value) else Succeeded(act, Task(a.text)), [call])
  }

  /** The other actions with at most one call, whose result is not a change. */
  function QueryPlan(act: SubscribeAction): Option<Plan> {
    match act.action
    case "conf" => Some(SnapPlan(act, "config", Conf(act.snap)))
    case "info" => Some(SnapPlan(act, "snap info", SnapInfo(act.snap)))
    case "ack" => Some(Ask(Ack(act.data)))
    case "server" => Some(Ask(ServerVersion))
    case _ => None
  }

  function DeviceSnapOf(deviceID: string, s: Snap, config: string): DeviceSnap {
    DeviceSnap(deviceID, s.name, s.installedSize, s.installDate, s.status, s.channel,
               s.more.confinement, s.version, s.more.revisionNumber, s.more.devMode, config)
  }

  /** In an info reply the device ID is the snap's. */
  function QueryResult(act: SubscribeAction, deviceID: string, a: Answer): Result {
    match act.action
    case "info" => Info(DeviceSnapOf(a.snap.id, a.snap, ""))
    case "server" => Version(DeviceVersion(deviceID, a.version))
    case _ => Nothing
  }

  function ServeQuery(act: SubscribeAction, plan: Plan, deviceID: string, answers: Answers, n: nat): Served {
    match plan
    case Refuse(m) => Served(Failed(act, m), [])
    case Ask(call) =>
      var a := answers(n);
      Served(if a.err.Some? then Failed(act, a.err.value) else Succeeded(act, QueryResult(act, deviceID, a)), [call])
  }

  // ---------------------------------------------------------------- actions with several calls

  function Describe(orgID: string, deviceID: string, info: Answer, version: Answer): Result {
    Device(orgID, deviceID, info.device,
           if version.err.None? then Some(DeviceVersion(deviceID, version.version)) else None)
  }

  function ServeDevice(act: SubscribeAction, orgID: string, deviceID: string, answers: Answers, n: nat): Served {
    var info := answers(n);
    if info.err.Some? then Served(Failed(act, info.err.value), [DeviceInfo])
    else Served(Succeeded(act, Describe(orgID, deviceID, info, answers(n + 1))), [DeviceInfo, ServerVersion])
  }

  /** Unregister removes the files after the device answered; removed is whether that went well. */
  function ServeUnregister(act: SubscribeAction, orgID: string, deviceID: string, removed: bool,
                           answers: Answers, n: nat): Served {
    var served := ServeDevice(act, orgID, deviceID, answers, n);
    if served.reply.success && !removed then served.(reply := Failed(act, RemovalError)) else served
  }

  const RemovalError := "cannot remove the parameters"

  /** A configuration that cannot be had, or cannot be serialised, is left empty. */
  function Listed(deviceID: string, s: Snap, conf: Answer): DeviceSnap {
    DeviceSnapOf(deviceID, s, if conf.err.None? then conf.text else "")
  }

  function ListedFrom(deviceID: string, snaps: seq<Snap>, answers: Answers, n: nat): (r: seq<DeviceSnap>)
    ensures |r| == |snaps|
    ensures forall i :: 0 <= i < |snaps| ==> r[i] == Listed(deviceID, snaps[i], answers(n + i))
  {
    seq(|snaps|, i requires 0 <= i < |snaps| => Listed(deviceID, snaps[i], answers(n + i)))
  }

  function ConfCalls(snaps: seq<Snap>): (r: seq<Call>)
    ensures |r| == |snaps| && forall i :: 0 <= i < |snaps| ==> r[i] == Conf(snaps[i].name)
  {
    seq(|snaps|, i requires 0 <= i < |snaps| => Conf(snaps[i].name))
  }

  /** One call for the list and one for each snap's configuration, whose errors are ignored. */
  function ServeList(act: SubscribeAction, deviceID: string, answers: Answers, n: nat): Served {
    var a := answers(n);
    if a.err.Some? then Served(Failed(act, a.err.value), [List])
    else Served(Succeeded(act, SnapList(ListedFrom(deviceID, a.snaps, answers, n + 1))), [List] + ConfCalls(a.snaps))
  }

  /** PUT to a storage URL. */
  function ServeUpload(act: SubscribeAction, url: string, body: string, length: int, answers: Answers, n: nat): Served {
    var put := Upload(url, body, length);
    var a := answers(n);
    if a.err.Some? then Served(Failed(act, a.err.value), [put])
    else if a.number != 200 then
      var b := answers(n + 1);
      Served(Failed(act, if b.err.Some? then b.err.value else NotOK + b.text), [put, ReadBody])
    else Served(Succeeded(act, Nothing), [put])
  }

  const NotOK := "PUT response was non-200 code: "

  function Concat(lines: seq<string>): string {
    if lines == [] then "" else Concat(lines[..|lines| - 1]) + lines[|lines| - 1]
  }

  function ServeLogs(act: SubscribeAction, codec: Codec, answers: Answers, n: nat): Served {
    match codec.logs(act.data)
    case Malformed(m) => Served(Failed(act, m), [])
    case Value(req) =>
      var a := answers(n);
      if a.err.Some? then Served(Failed(act, a.err.value), [Logs(req.limit)])
      else
        var up := ServeUpload(act, req.url, Concat(a.lines), |Concat(a.lines)|, answers, n + 1);
        up.(calls := [Logs(req.limit)] + up.calls)
  }

  predicate Fails(answers: Answers, m: nat) {
    answers(m).err.Some?
  }

  /** The number of export attempts made, at most limit: up to the first that succeeds. */
  function Attempts(answers: Answers, n: nat, limit: nat): nat
    decreases limit
  {
    if limit == 0 then 0
    else if !Fails(answers, n) then 1
    else 1 + Attempts(answers, n + 1, limit - 1)
  }

  /** All attempts but the last fail, and the last fails only when the limit is reached. */
  predicate StopsAfter(answers: Answers, n: nat, limit: nat, k: nat) {
    && 0 < k <= limit
    && (forall m :: n <= m < n + k - 1 ==> Fails(answers, m))
    && (k < limit ==> !Fails(answers, n + k - 1))
  }

  lemma {:induction false} AttemptsExact(answers: Answers, n: nat, limit: nat, k: nat)
    requires limit > 0
    ensures Attempts(answers, n, limit) == k <==> StopsAfter(answers, n, limit, k)
    decreases limit
  {
    if !Fails(answers, n) || limit == 1 {
      assert StopsAfter(answers, n, limit, k) && k > 1 ==> Fails(answers, n);
    } else if k > 0 {
      AttemptsExact(answers, n + 1, limit - 1, k - 1);
      if StopsAfter(answers, n + 1, limit - 1, k - 1) {
        assert StopsAfter(answers, n, limit, k);
      }
      if StopsAfter(answers, n, limit, k) {
        assert StopsAfter(answers, n + 1, limit - 1, k - 1);
      }
    }
  }

  /** The last attempt succeeds exactly when one of those allowed would, and it fails only when all are used up. */
  lemma AttemptsSucceed(answers: Answers, n: nat, limit: nat)
    requires limit > 0
    ensures var k := Attempts(answers, n, limit);
            && 0 < k <= limit && (k < limit ==> !Fails(answers, n + k - 1))
            && (!Fails(answers, n + k - 1) <==> exists m :: n <= m < n + limit && !Fails(answers, m))
  {
    var k := Attempts(answers, n, limit);
    AttemptsExact(answers, n, limit, k);
  }

  lemma AttemptsFirst(answers: Answers, n: nat, limit: nat, m: nat)
    requires n <= m < n + limit && !Fails(answers, m) && forall j :: n <= j < m ==> Fails(answers, j)
    ensures Attempts(answers, n, limit) == m - n + 1
  {
    assert StopsAfter(answers, n, limit, m - n + 1);
    AttemptsExact(answers, n, limit, m - n + 1);
  }

  function ExportCalls(setID: int, k: nat): (r: seq<Call>)
    ensures |r| == k && forall i :: 0 <= i < k ==> r[i] == SnapshotExport(setID)
  {
    seq(k, _ => SnapshotExport(setID))
  }

  /** retry.Do over SnapshotExport, then the upload of what the successful attempt exported. */
  function ServeSnapshot(act: SubscribeAction, codec: Codec, limit: Limit, answers: Answers, n: nat): Served
  {
    match codec.snapshotURL(act.data)
    case Malformed(m) => Served(Failed(act, m), [])
    case Value(url) =>
      var many := SnapshotMany([act.snap]);
      var a := answers(n);
      if a.err.Some? then Served(Failed(act, a.err.value), [many])
      else
        var k := Attempts(answers, n + 1, limit);
        var exports := ExportCalls(a.number, k);
        if k == 0 || Fails(answers, n + k) then Served(Failed(act, RetryError), [many] + exports)
        else
          var up := ServeUpload(act, url, answers(n + k).text, answers(n + k).number, answers, n + 1 + k);
          up.(calls := [many] + exports + up.calls)
  }

  const RetryError := "All attempts fail"

  // ---------------------------------------------------------------- the methods

  lemma CallsRegroup(a: seq<Call>, b: seq<Call>, c: seq<Call>)
    ensures a + b + c == a + (b + c)
  {
  }

  class Performer {
    const client: Client
    const codec: Codec

    constructor (client: Client, codec: Codec)
      ensures this.client == client && this.codec == codec
    {
      this.client, this.codec := client, codec;
    }

    method ValidateServices(snap: string, data: string) returns (names: Decoded<seq<string>>)
      ensures names == ValidServices(snap, data, codec)
      ensures var asked := codec.services(data);
              && (names.Malformed? <==>
                    asked.Malformed? || exists i :: 0 <= i < |asked.value| && !HasPrefix(asked.value[i], snap))
              && (names.Value? ==> names.value == if asked.value == [] then [snap] else asked.value)
    {
      if codec.services(data).Value? {
        FirstInvalidExact(codec.services(data).value, snap);
      }
      var decoded := codec.services(data);
      if decoded.Malformed? {
        return decoded;
      }
      var services := decoded.value;
      if |services| == 0 {
        return Value([snap]);
      }
      var i := 0;
      while i < |services|
        invariant 0 <= i <= |services|
        invariant FirstInvalid(services, snap) == FirstInvalid(services[i..], snap)
      {
        if !HasPrefix(services[i], snap) {
          return Malformed(InvalidService(services[i]));
        }
        assert services[i..][1..] == services[i + 1..];
        i := i + 1;
      }
      names := Value(services);
    }

    /** The call an action plans, and its outcome as a reply. */
    method Ask(act: SubscribeAction, plan: Plan, deviceID: string, query: bool) returns (r: Response)
      modifies client
      ensures var s := if query then ServeQuery(act, plan, deviceID, client.answers, |old(client.calls)|)
                       else ServeTask(act, plan, client.answers, |old(client.calls)|);
              r == s.reply && client.calls == old(client.calls) + s.calls
    {
      if plan.Refuse? {
        return Failed(act, plan.message);
      }
      var a := client.Do(plan.call);
      if a.err.Some? {
        return Failed(act, a.err.value);
      }
      r := Succeeded(act, if query then QueryResult(act, deviceID, a) else Task(a.text));
    }

    method Device(act: SubscribeAction, orgID: string, deviceID: string) returns (r: Response)
      modifies client
      ensures var s := ServeDevice(act, orgID, deviceID, client.answers, |old(client.calls)|);
              r == s.reply && client.calls == old(client.calls) + s.calls
    {
      var info := client.Do(DeviceInfo);
      if info.err.Some? {
        return Failed(act, info.err.value);
      }
      var version := client.Do(ServerVersion);
      r := Succeeded(act, Describe(orgID, deviceID, info, version));
    }

    method Unregister(act: SubscribeAction, orgID: string, deviceID: string, fs: FileSystem, env: Env, io: RemoveIO)
      returns (r: Response)
      modifies client, fs
      ensures var done := ServeDevice(act, orgID, deviceID, client.answers, |old(client.calls)|).reply.success;
              var s := ServeUnregister(act, orgID, deviceID, Removed(old(fs.files), PlacesOf(env), io).ok,
                                       client.answers, |old(client.calls)|);
              && r == s.reply && client.calls == old(client.calls) + s.calls
              && fs.files == if done then Removed(old(fs.files), PlacesOf(env), io).files else old(fs.files)
    {
      r := Device(act, orgID, deviceID);
      if !r.success {
        return;
      }
      var ok := RemoveParameters(fs, env, io);
      if !ok {
        r := Failed(act, RemovalError);
      }
    }

    /** The loop of SnapList. */
    method Configurations(deviceID: string, snaps: seq<Snap>) returns (ss: seq<DeviceSnap>)
      modifies client
      ensures client.calls == old(client.calls) + ConfCalls(snaps)
      ensures ss == ListedFrom(deviceID, snaps, client.answers, |old(client.calls)|)
    {
      ghost var n := |client.calls|;
      ghost var all, confs := ListedFrom(deviceID, snaps, client.answers, n), ConfCalls(snaps);
      ss := [];
      var i := 0;
      while i < |snaps|
        invariant 0 <= i <= |snaps|
        invariant client.calls == old(client.calls) + confs[..i]
        invariant ss == all[..i]
      {
        assert confs[..i + 1] == confs[..i] + [Conf(snaps[i].name)];
        var conf := client.Do(Conf(snaps[i].name));
        ss := ss + [Listed(deviceID, snaps[i], conf)];
        i := i + 1;
      }
    }

    method SnapList(act: SubscribeAction, deviceID: string) returns (r: Response)
      modifies client
      ensures var s := ServeList(act, deviceID, client.answers, |old(client.calls)|);
              r == s.reply && client.calls == old(client.calls) + s.calls
    {
      var a := client.Do(List);
      if a.err.Some? {
        return Failed(act, a.err.value);
      }
      var ss := Configurations(deviceID, a.snaps);
      CallsRegroup(old(client.calls), [List], ConfCalls(a.snaps));
      r := Succeeded(act, Result.SnapList(ss));
    }

    method Put(act: SubscribeAction, url: string, body: string, length: int) returns (r: Response)
      modifies client
      ensures var s := ServeUpload(act, url, body, length, client.answers, |old(client.calls)|);
              r == s.reply && client.calls == old(client.calls) + s.calls
    {
      var a := client.Do(Upload(url, body, length));
      if a.err.Some? {
        return Failed(act, a.err.value);
      }
      if a.number != 200 {
        var b := client.Do(ReadBody);
        return Failed(act, if b.err.Some? then b.err.value else NotOK + b.text);
      }
      r := Succeeded(act, Nothing);
    }

    method RetrieveLogs(act: SubscribeAction) returns (r: Response)
      modifies client
      ensures var s := ServeLogs(act, codec, client.answers, |old(client.calls)|);
              r == s.reply && client.calls == old(client.calls) + s.calls
    {
      var req := codec.logs(act.data);
      if req.Malformed? {
        return Failed(act, req.message);
      }
      var a := client.Do(Logs(req.value.limit));
      if a.err.Some? {
        return Failed(act, a.err.value);
      }
      var logs := "";
      var i := 0;
      while i < |a.lines|
        invariant 0 <= i <= |a.lines| && logs == Concat(a.lines[..i])
      {
        assert a.lines[..i + 1][..i] == a.lines[..i];
        logs := logs + a.lines[i];
        i := i + 1;
      }
      assert a.lines[..i] == a.lines;
      r := Put(act, req.value.url, logs, |logs|);
    }

    /** The retried closure: body and length are those of the last attempt made. */
    method RetryExport(setID: int, limit: Limit) returns (done: bool, body: string, length: int)
      modifies client
      ensures var n := |old(client.calls)|;
              var k := Attempts(client.answers, n, limit);
              && k > 0 && client.calls == old(client.calls) + ExportCalls(setID, k)
              && (done <==> !Fails(client.answers, n + k - 1))
              && body == client.answers(n + k - 1).text && length == client.answers(n + k - 1).number
    {
      ghost var n := |client.calls|;
      body, length, done := "", 0, false;
      var k := 0;
      while k < limit && !done
        invariant 0 <= k <= limit
        invariant client.calls == old(client.calls) + ExportCalls(setID, k)
        invariant forall m :: n <= m < n + k - 1 ==> Fails(client.answers, m)
        invariant if k == 0 then !done
                  else && done == !Fails(client.answers, n + k - 1)
                       && body == client.answers(n + k - 1).text && length == client.answers(n + k - 1).number
        decreases limit - k, !done
      {
        var e := client.Do(SnapshotExport(setID));
        assert ExportCalls(setID, k) + [SnapshotExport(setID)] == ExportCalls(setID, k + 1);
        body, length := e.text, e.number;
        done := e.err.None?;
        k := k + 1;
      }
      AttemptsExact(client.answers, n, limit, k);
    }

    method SnapSnapshot(act: SubscribeAction, limit: Limit) returns (r: Response)
      modifies client
      ensures var s := ServeSnapshot(act, codec, limit, client.answers, |old(client.calls)|);
              r == s.reply && client.calls == old(client.calls) + s.calls
    {
      var url := codec.snapshotURL(act.data);
      if url.Malformed? {
        return Failed(act, url.message);
      }
      var a := client.Do(SnapshotMany([act.snap]));
      if a.err.Some? {
        return Failed(act, a.err.value);
      }
      var done, body, length := RetryExport(a.number, limit);
      if !done {
        return Failed(act, RetryError);
      }
      r := Put(act, url.value, body, length);
    }
  }

  // ---------------------------------------------------------------- what the actions promise

  /** Each of install, remove, refresh, switch, revert, enable, disable, start, stop, restart and setconf makes at
      most one call, none without a snap name, and reports success exactly when it made one that
      returned no error; the reply carries the request's ID and the change or the error text. */
  lemma TaskCallsOnce(act: SubscribeAction, codec: Codec, answers: Answers, n: nat)
    requires TaskPlan(act, codec).Some?
    ensures var s := ServeTask(act, TaskPlan(act, codec).value, answers, n);
            && |s.calls| <= 1
            && (act.snap == "" ==> s.calls == [] && !s.reply.success)
            && (s.reply.success <==> s.calls != [] && answers(n).err.None?)
            && (s.reply.success ==> s.reply.result == Task(answers(n).text))
            && (s.calls != [] && !s.reply.success ==> Some(s.reply.message) == answers(n).err)
            && s.reply.id == act.id
  {
  }

  predicate Uploads(calls: seq<Call>) {
    exists i :: 0 <= i < |calls| && calls[i].Upload?
  }

  /** What the call of an action is about: the requested snap or services, and nothing but the request's data. */
  predicate About(c: Call, act: SubscribeAction, codec: Codec) {
    match c
    case Install(snap) => snap == act.snap
    case Remove(snap) => snap == act.snap
    case Refresh(snap, channel) => snap == act.snap && (channel.Some? ==> channel.value == act.data != "")
    case Revert(snap) => snap == act.snap
    case Enable(snap) => snap == act.snap
    case Disable(snap) => snap == act.snap
    case Start(names) => Value(names) == ValidServices(act.snap, act.data, codec)
    case Stop(names) => Value(names) == ValidServices(act.snap, act.data, codec)
    case Restart(names) => Value(names) == ValidServices(act.snap, act.data, codec)
    case SetConf(snap, patch) => snap == act.snap && Value(patch) == codec.patch(act.data)
    case _ => false
  }

  /** The action can be told from the call it makes, and the call is about the request's own snap. */
  lemma PlannedCallExact(act: SubscribeAction, codec: Codec, answers: Answers, n: nat)
    requires TaskPlan(act, codec).Some?
    ensures var calls := ServeTask(act, TaskPlan(act, codec).value, answers, n).calls;
            calls != [] ==> ActionOf(calls[0]) == act.action && About(calls[0], act, codec)
  {
  }

  /** Logs are uploaded whole, after a logs call that succeeded and to the URL of the request; the action
      succeeds exactly when the upload then comes back with status 200. */
  lemma LogsExact(act: SubscribeAction, codec: Codec, answers: Answers, n: nat)
    ensures var s := ServeLogs(act, codec, answers, n);
            var asked := codec.logs(act.data);
            && (Uploads(s.calls) <==> asked.Value? && answers(n).err.None?)
            && (Uploads(s.calls) ==>
                  var whole := Concat(answers(n).lines);
                  |s.calls| >= 2
                  && s.calls[..2] == [Logs(asked.value.limit), Upload(asked.value.url, whole, |whole|)])
            && (s.reply.success <==> Uploads(s.calls) && answers(n + 1).err.None? && answers(n + 1).number == 200)
  {
    var s := ServeLogs(act, codec, answers, n);
    if codec.logs(act.data).Value? && answers(n).err.None? {
      assert s.calls[1].Upload?;
    }
  }

  /** A list describes each snap that snapd listed, in order, with the configuration that its own call
      returned, or none where that call failed; a failing configuration call fails nothing else. */
  lemma ListPairsAnswers(act: SubscribeAction, deviceID: string, answers: Answers, n: nat)
    ensures var s := ServeList(act, deviceID, answers, n);
            && (s.reply.success <==> answers(n).err.None?)
            && (s.reply.success ==>
                  && s.reply.result.SnapList?
                  && var snaps, listed := s.reply.result.snaps, answers(n).snaps;
                     && |snaps| == |listed| && |s.calls| == |snaps| + 1
                     && forall i :: 0 <= i < |snaps| ==>
                          && snaps[i] == DeviceSnapOf(deviceID, listed[i], snaps[i].config)
                          && s.calls[i + 1] == Conf(snaps[i].name)
                          && (answers(n + 1 + i).err.None? ==> snaps[i].config == answers(n + 1 + i).text)
                          && (answers(n + 1 + i).err.Some? ==> snaps[i].config == ""))
  {
    var listed := answers(n).snaps;
    forall i | 0 <= i < |listed|
      ensures ([List] + ConfCalls(listed))[i + 1] == Conf(listed[i].name)
    {
    }
  }

  lemma {:induction false} FirstInvalidExact(services: seq<string>, snap: string)
    ensures FirstInvalid(services, snap).None? <==> forall i :: 0 <= i < |services| ==> HasPrefix(services[i], snap)
  {
    if services != [] {
      FirstInvalidExact(services[1..], snap);
      if FirstInvalid(services, snap).None? {
        forall i | 0 <= i < |services| ensures HasPrefix(services[i], snap) {
          assert i > 0 ==> services[i] == services[1..][i - 1];
        }
      }
      if forall i :: 0 <= i < |services| ==> HasPrefix(services[i], snap) {
        assert HasPrefix(services[0], snap);
        forall i | 0 <= i < |services[1..]| ensures HasPrefix(services[1..][i], snap) {
          assert services[1..][i] == services[i + 1];
        }
      }
    }
  }

  /** The list given to snapd to start, stop or restart is never empty: it is the snap name when the
      request names no service, and otherwise the whole request list, given exactly when
      every entry has the snap name as a prefix. */
  lemma ServicesGiven(snap: string, data: string, codec: Codec)
    ensures var given := ValidServices(snap, data, codec);
            var asked := codec.services(data);
            && (given.Value? ==> given.value != [])
            && (asked.Value? && asked.value == [] ==> given == Value([snap]))
            && (asked.Value? && asked.value != [] ==>
                  (given == Value(asked.value) <==>
                     forall i :: 0 <= i < |asked.value| ==> HasPrefix(asked.value[i], snap)))
  {
    if codec.services(data).Value? {
      FirstInvalidExact(codec.services(data).value, snap);
    }
  }

  /** A service of the snap: the snap itself, or snap.daemon. */
  ghost predicate OfSnap(service: string, snap: string) {
    service == snap || exists d: string :: service == snap + "." + d
  }

  /** The entry goes on after the snap name with something but a dot. */
  predicate GoesOn(service: string, snap: string) {
    HasPrefix(service, snap) && |service| > |snap| && service[|snap|] != '.'
  }

  lemma OfSnapExact(service: string, snap: string)
    ensures OfSnap(service, snap) <==> HasPrefix(service, snap) && !GoesOn(service, snap)
  {
    if HasPrefix(service, snap) && !GoesOn(service, snap) && service != snap {
      assert service == snap + "." + service[|snap| + 1..];
    }
    if d: string :| service == snap + "." + d {
      assert (snap + "." + d)[..|snap|] == snap && (snap + "." + d)[|snap|] == '.';
    }
  }

  /** The names that a call hands to snapd to start, stop or restart. */
  function NamesOf(c: Call): seq<string> {
    match c
    case Start(names) => names
    case Stop(names) => names
    case Restart(names) => names
    case _ => []
  }

  predicate ServiceAction(act: SubscribeAction) {
    act.action == "start" || act.action == "stop" || act.action == "restart"
  }

  /** All names handed to snapd are services of the requested snap. */
  ghost predicate OnlyOwn(calls: seq<Call>, snap: string) {
    forall k, i :: 0 <= k < |calls| && 0 <= i < |NamesOf(calls[k])| ==> OfSnap(NamesOf(calls[k])[i], snap)
  }

  /** What a start, stop or restart hands to snapd. */
  lemma ServiceCalls(act: SubscribeAction, codec: Codec, answers: Answers, n: nat)
    requires ServiceAction(act)
    ensures TaskPlan(act, codec).Some?
    ensures var calls := ServeTask(act, TaskPlan(act, codec).value, answers, n).calls;
            var given := ValidServices(act.snap, act.data, codec);
            if act.snap == "" || given.Malformed? then calls == []
            else |calls| == 1 && NamesOf(calls[0]) == given.value
  {
  }

  /** A start, stop or restart hands to snapd services of the requested snap only, if and only if no entry of the
      request goes on after the snap name with something but a dot, or some entry lacks the name: the
      check for the name lets services of other snaps through. */
  lemma PrefixIsNotMembership(act: SubscribeAction, codec: Codec, answers: Answers, n: nat)
    requires ServiceAction(act)
    ensures TaskPlan(act, codec).Some?
    ensures OnlyOwn(ServeTask(act, TaskPlan(act, codec).value, answers, n).calls, act.snap)
       <==> act.snap == "" || codec.services(act.data).Malformed?
            || var asked := codec.services(act.data).value;
               || (forall i :: 0 <= i < |asked| ==> !GoesOn(asked[i], act.snap))
               || (exists i :: 0 <= i < |asked| && !HasPrefix(asked[i], act.snap))
  {
    ServiceCalls(act, codec, answers, n);
    if act.snap == "" || codec.services(act.data).Malformed? {
      return;
    }
    var asked, snap := codec.services(act.data).value, act.snap;
    var calls := ServeTask(act, TaskPlan(act, codec).value, answers, n).calls;
    ServicesGiven(snap, act.data, codec);
    if asked != [] && forall i :: 0 <= i < |asked| ==> HasPrefix(asked[i], snap) {
      OwnExact(calls, asked, snap);
    } else if asked == [] {
      assert OfSnap(snap, snap);
    }
  }

  lemma OwnExact(calls: seq<Call>, asked: seq<string>, snap: string)
    requires |calls| == 1 && NamesOf(calls[0]) == asked
    requires forall i :: 0 <= i < |asked| ==> HasPrefix(asked[i], snap)
    ensures OnlyOwn(calls, snap) <==> forall i :: 0 <= i < |asked| ==> !GoesOn(asked[i], snap)
  {
    forall i | 0 <= i < |asked| ensures OfSnap(asked[i], snap) <==> !GoesOn(asked[i], snap) {
      OfSnapExact(asked[i], snap);
    }
    if OnlyOwn(calls, snap) {
      forall i | 0 <= i < |asked| ensures !GoesOn(asked[i], snap) {
        assert OfSnap(NamesOf(calls[0])[i], snap);
      }
    }
  }

  /** For every snap there is such a request: asked for the one service of the snap whose name continues with an x,
      a start, stop or restart of the shorter name passes and is sent to snapd. */
  lemma ForeignServiceSent(act: SubscribeAction, codec: Codec, answers: Answers, n: nat)
    requires ServiceAction(act) && act.snap != ""
    requires codec.services(act.data) == Value([act.snap + "x.d"])
    ensures TaskPlan(act, codec).Some?
    ensures var calls := ServeTask(act, TaskPlan(act, codec).value, answers, n).calls;
            && |calls| == 1 && NamesOf(calls[0]) == [act.snap + "x.d"]
            && OfSnap(act.snap + "x.d", act.snap + "x") && !OfSnap(act.snap + "x.d", act.snap)
            && !OnlyOwn(calls, act.snap)
  {
    var snap := act.snap;
    var foreign := snap + "x.d";
    var asked := [foreign];
    assert foreign[..|snap|] == snap && foreign[|snap|] == 'x';
    assert GoesOn(foreign, snap);
    assert foreign == (snap + "x") + "." + "d";
    assert HasPrefix(asked[0], snap);
    OfSnapExact(foreign, snap);
    ServicesGiven(snap, act.data, codec);
    ServiceCalls(act, codec, answers, n);
    var calls := ServeTask(act, TaskPlan(act, codec).value, answers, n).calls;
    OwnExact(calls, asked, snap);
    assert GoesOn(asked[0], snap);
  }

  /** What the first k attempts leave: the upload of the last one, or nothing. */
  lemma SnapshotAfterAttempts(act: SubscribeAction, codec: Codec, limit: Limit, answers: Answers, n: nat)
    requires codec.snapshotURL(act.data).Value? && answers(n).err.None?
    ensures var s := ServeSnapshot(act, codec, limit, answers, n);
            var k := Attempts(answers, n + 1, limit);
            var tried := [SnapshotMany([act.snap])] + ExportCalls(answers(n).number, k);
            && |tried| == k + 1
            && (k == 0 || Fails(answers, n + k) ==> s.calls == tried && !s.reply.success && !Uploads(s.calls))
            && (k > 0 && !Fails(answers, n + k) ==>
                  && |s.calls| > k + 1 && Uploads(s.calls)
                  && s.calls[..k + 2] == tried + [Upload(codec.snapshotURL(act.data).value,
                                                         answers(n + k).text, answers(n + k).number)])
  {
    var k := Attempts(answers, n + 1, limit);
    var s := ServeSnapshot(act, codec, limit, answers, n);
    if k > 0 && !Fails(answers, n + k) {
      assert s.calls[k + 1].Upload?;
    }
  }

  lemma SnapshotOutcome(act: SubscribeAction, codec: Codec, limit: Limit, answers: Answers, n: nat, k: nat)
    requires codec.snapshotURL(act.data).Value? && answers(n).err.None?
    requires k == Attempts(answers, n + 1, limit) && k > 0
    ensures var s := ServeSnapshot(act, codec, limit, answers, n);
            && (Uploads(s.calls) <==> !Fails(answers, n + k))
            && (!Uploads(s.calls) ==> |s.calls| == 1 + k && !s.reply.success)
  {
    SnapshotAfterAttempts(act, codec, limit, answers, n);
  }

  /** A snapshot is uploaded exactly when one of the allowed export attempts succeeds; otherwise
      all of them are made and the reply reports failure. */
  lemma SnapshotUploads(act: SubscribeAction, codec: Codec, limit: Limit, answers: Answers, n: nat)
    requires codec.snapshotURL(act.data).Value? && answers(n).err.None?
    ensures var s := ServeSnapshot(act, codec, limit, answers, n);
            && (Uploads(s.calls) <==> exists m :: n < m <= n + limit && !Fails(answers, m))
            && (!Uploads(s.calls) ==> |s.calls| == 1 + limit && !s.reply.success)
  {
    AttemptsSucceed(answers, n + 1, limit);
    SnapshotOutcome(act, codec, limit, answers, n, Attempts(answers, n + 1, limit));
  }

  /** The first attempt to succeed is the last one made, and what is uploaded next are its own body and length. */
  lemma FirstExportUploaded(act: SubscribeAction, codec: Codec, limit: Limit, answers: Answers, n: nat, m: nat)
    requires codec.snapshotURL(act.data).Value? && answers(n).err.None?
    requires n < m <= n + limit && !Fails(answers, m) && forall j :: n < j < m ==> Fails(answers, j)
    ensures var s := ServeSnapshot(act, codec, limit, answers, n);
            && |s.calls| > m - n + 1
            && s.calls[..m - n + 2] == [SnapshotMany([act.snap])] + ExportCalls(answers(n).number, m - n)
                 + [Upload(codec.snapshotURL(act.data).value, answers(m).text, answers(m).number)]
  {
    AttemptsFirst(answers, n + 1, limit, m);
    SnapshotAfterAttempts(act, codec, limit, answers, n);
  }
}
