/** What each action of the MQTT topic asks and answers, read off the message and the answers alone. */
module Replies {
  import opened Disk
  import opened Paths
  import opened Strings
  import opened Snapd
  import opened Actions

  /** What stays the same over a session: the handler's IDs, the decoders, the retry limit,
      the places of the files, and what every outside call will answer. */
  datatype Setup = Setup(clientID: string, orgID: string, codec: Codec, limit: Limit, at: Places, answers: Answers)

  const TaskActions := {"install", "remove", "refresh", "switch", "revert", "enable", "disable", "start", "stop",
                        "restart", "setconf"}
  const QueryActions := {"conf", "info", "ack", "server"}
  const LongerActions := {"device", "list", "unregister", "logs", "snapshot"}

  predicate Good(u: Setup, n: nat) {
    u.answers(n).err.None?
  }

  // ---------------------------------------------------------------- actions with one call

  predicate LacksPrefix(asked: seq<string>, snap: string, i: nat) {
    i < |asked| && !HasPrefix(asked[i], snap)
  }

  predicate ServicesBad(u: Setup, act: SubscribeAction) {
    var asked := u.codec.services(act.data);
    asked.Malformed? || exists i :: 0 <= i < |asked.value| && LacksPrefix(asked.value, act.snap, i)
  }

  /** The message is answered without a call. */
  predicate Refused(u: Setup, act: SubscribeAction) {
    || (act.snap == "" && act.action != "ack" && act.action != "server")
    || (act.action == "switch" && act.data == "")
    || (ServiceAction(act) && ServicesBad(u, act))
    || (act.action == "setconf" && u.codec.patch(act.data).Malformed?)
  }

  /** The services named, or the snap itself when none is. */
  function Named(u: Setup, act: SubscribeAction): seq<string> {
    match u.codec.services(act.data)
    case Value(names) => if names == [] then [act.snap] else names
    case Malformed(_) => []
  }

  /** The call that a message is about. */
  predicate OwnCall(u: Setup, act: SubscribeAction, c: Call) {
    match act.action
    case "install" => c == Install(act.snap)
    case "remove" => c == Remove(act.snap)
    case "refresh" => c == Refresh(act.snap, None)
    case "switch" => c == Refresh(act.snap, Some(act.data))
    case "revert" => c == Revert(act.snap)
    case "enable" => c == Enable(act.snap)
    case "disable" => c == Disable(act.snap)
    case "start" => c == Start(Named(u, act))
    case "stop" => c == Stop(Named(u, act))
    case "restart" => c == Restart(Named(u, act))
    case "setconf" => c.SetConf? && c.snap == act.snap && Value(c.patch) == u.codec.patch(act.data)
    case "conf" => c == Conf(act.snap)
    case "info" => c == SnapInfo(act.snap)
    case "ack" => c == Ack(act.data)
    case "server" => c == ServerVersion
    case _ => false
  }

  predicate OneCallRight(u: Setup, act: SubscribeAction, calls: seq<Call>) {
    if Refused(u, act) then calls == [] else |calls| == 1 && OwnCall(u, act, calls[0])
  }

  /** Why a message was refused: the snap name is tested first; of the services, the first that lacks it is named. */
  predicate RefusalRight(u: Setup, act: SubscribeAction, message: string) {
    if act.snap == "" && act.action != "ack" && act.action != "server" then HasPrefix(message, "No snap name prov")
    else if act.action == "switch" then message == "No channel provided for switch"
    else if act.action == "setconf" then u.codec.patch(act.data) == Malformed(message)
    else ServiceAction(act) ==>
      match u.codec.services(act.data)
      case Malformed(m) => message == m
      case Value(asked) =>
        exists i :: 0 <= i < |asked| && LacksPrefix(asked, act.snap, i) && message == "invalid service: " + asked[i]
                    && forall j :: 0 <= j < i ==> !LacksPrefix(asked, act.snap, j)
  }

  /** The entry tells of the snap under the members' own names. */
  predicate Describes(e: DeviceSnap, s: Snap, deviceID: string, config: string) {
    && e.deviceID == deviceID && e.name == s.name && e.installedSize == s.installedSize
    && e.installedDate == s.installDate && e.status == s.status && e.channel == s.channel
    && e.confinement == s.more.confinement && e.version == s.version && e.revision == s.more.revisionNumber
    && e.devmode == s.more.devMode && e.config == config
  }

  predicate OneCallResult(u: Setup, act: SubscribeAction, r: Result, a: Answer) {
    if act.action in TaskActions then r == Task(a.text)
    else if act.action == "info" then r.Info? && Describes(r.snap, a.snap, a.snap.id, "")
    else if act.action == "server" then r.Version? && r.server.deviceID == u.clientID && r.server.details == a.version
    else r == Nothing
  }

  predicate OneCallReply(u: Setup, act: SubscribeAction, r: Response, n: nat) {
    && (r.success <==> !Refused(u, act) && Good(u, n))
    && (r.success ==> r.message == "" && OneCallResult(u, act, r.result, u.answers(n)))
    && (!r.success ==> r.result == Nothing)
    && (Refused(u, act) ==> RefusalRight(u, act, r.message))
    && (!Refused(u, act) && !r.success ==> Some(r.message) == u.answers(n).err)
  }

  // ---------------------------------------------------------------- actions with several calls

  predicate DeviceCalls(u: Setup, calls: seq<Call>, n: nat) {
    calls == if Good(u, n) then [DeviceInfo, ServerVersion] else [DeviceInfo]
  }

  predicate DeviceResult(u: Setup, r: Result, n: nat) {
    && r.Device? && r.orgID == u.orgID && r.deviceID == u.clientID && r.details == u.answers(n).device
    && (r.version.Some? <==> Good(u, n + 1))
    && (r.version.Some? ==>
          r.version.value.deviceID == u.clientID && r.version.value.details == u.answers(n + 1).version)
  }

  predicate ListCalls(u: Setup, calls: seq<Call>, n: nat) {
    && |calls| == 1 + (if Good(u, n) then |u.answers(n).snaps| else 0)
    && calls[0] == List
    && forall i :: 1 <= i < |calls| ==> calls[i] == Conf(u.answers(n).snaps[i - 1].name)
  }

  predicate ListResult(u: Setup, r: Result, n: nat) {
    && r.SnapList? && |r.snaps| == |u.answers(n).snaps|
    && forall i :: 0 <= i < |r.snaps| ==>
         Describes(r.snaps[i], u.answers(n).snaps[i], u.clientID,
                   if Good(u, n + 1 + i) then u.answers(n + 1 + i).text else "")
  }

  /** An upload with its n-th answer: the body of a reply that is not 200 is read. */
  predicate UploadRight(u: Setup, calls: seq<Call>, put: Call, n: nat) {
    calls == if Good(u, n) && u.answers(n).number != 200 then [put, ReadBody] else [put]
  }

  predicate UploadGood(u: Setup, n: nat) {
    Good(u, n) && u.answers(n).number == 200
  }

  predicate UploadMessage(u: Setup, message: string, n: nat) {
    if !Good(u, n) then Some(message) == u.answers(n).err
    else if !Good(u, n + 1) then Some(message) == u.answers(n + 1).err
    else message == NotOK + u.answers(n + 1).text
  }

  predicate LogsCalls(u: Setup, act: SubscribeAction, calls: seq<Call>, n: nat) {
    match u.codec.logs(act.data)
    case Malformed(_) => calls == []
    case Value(req) =>
      && |calls| >= 1 && calls[0] == Logs(req.limit)
      && if !Good(u, n) then |calls| == 1
         else var whole := Concat(u.answers(n).lines);
              UploadRight(u, calls[1..], Upload(req.url, whole, |whole|), n + 1)
  }

  predicate LogsReply(u: Setup, act: SubscribeAction, r: Response, n: nat) {
    && (r.success <==> u.codec.logs(act.data).Value? && Good(u, n) && UploadGood(u, n + 1))
    && (u.codec.logs(act.data).Malformed? ==> u.codec.logs(act.data) == Malformed(r.message))
    && (u.codec.logs(act.data).Value? && !Good(u, n) ==> Some(r.message) == u.answers(n).err)
    && (u.codec.logs(act.data).Value? && Good(u, n) && !r.success ==> UploadMessage(u, r.message, n + 1))
    && r.result == Nothing
  }

  /** Of the exports allowed, which are answered from n on, the m-th answer is the first good one. */
  predicate FirstGood(u: Setup, n: nat, m: nat) {
    n <= m < n + u.limit && Good(u, m) && forall j :: n <= j < m ==> !Good(u, j)
  }

  predicate TheFirst(u: Setup, n: nat, m: nat) {
    FirstGood(u, n, m) && forall j :: n <= j < n + u.limit && FirstGood(u, n, j) ==> j == m
  }

  predicate NoneGood(u: Setup, n: nat) {
    forall m :: n <= m < n + u.limit ==> !Good(u, m)
  }

  predicate Exports(calls: seq<Call>, setID: int, count: nat) {
    |calls| > count && forall i :: 1 <= i <= count ==> calls[i] == SnapshotExport(setID)
  }

  /** After the exports up to the m-th answer comes the upload of what that answer brought. */
  predicate Uploaded(u: Setup, url: string, calls: seq<Call>, n: nat, m: nat) {
    && n < m && Exports(calls, u.answers(n).number, m - n)
    && UploadRight(u, calls[m - n + 1..], Upload(url, u.answers(m).text, u.answers(m).number), m + 1)
  }

  /** The reply tells what came of that upload. */
  predicate TellsUpload(u: Setup, r: Response, m: nat) {
    (r.success <==> UploadGood(u, m + 1)) && (!r.success ==> UploadMessage(u, r.message, m + 1))
  }

  predicate SnapshotCalls(u: Setup, act: SubscribeAction, calls: seq<Call>, n: nat) {
    match u.codec.snapshotURL(act.data)
    case Malformed(_) => calls == []
    case Value(url) =>
      && |calls| >= 1 && calls[0] == SnapshotMany([act.snap])
      && (!Good(u, n) ==> |calls| == 1)
      && (Good(u, n) && NoneGood(u, n + 1) ==>
            |calls| == 1 + u.limit && Exports(calls, u.answers(n).number, u.limit))
      && (Good(u, n) ==> forall m :: n < m <= n + u.limit && FirstGood(u, n + 1, m) ==> Uploaded(u, url, calls, n, m))
  }

  predicate SnapshotReply(u: Setup, act: SubscribeAction, r: Response, n: nat) {
    var url := u.codec.snapshotURL(act.data);
    && (r.success ==> url.Value? && Good(u, n) && !NoneGood(u, n + 1))
    && (url.Malformed? ==> url == Malformed(r.message))
    && (url.Value? && !Good(u, n) ==> Some(r.message) == u.answers(n).err)
    && (url.Value? && Good(u, n) && NoneGood(u, n + 1) ==> r.message == RetryError)
    && (url.Value? && Good(u, n) ==>
          forall m :: n < m <= n + u.limit && FirstGood(u, n + 1, m) ==> TellsUpload(u, r, m))
    && r.result == Nothing
  }

  // ---------------------------------------------------------------- every action

  predicate CallsRight(u: Setup, act: SubscribeAction, calls: seq<Call>, n: nat) {
    if act.action in TaskActions + QueryActions then OneCallRight(u, act, calls)
    else if act.action == "device" || act.action == "unregister" then DeviceCalls(u, calls, n)
    else if act.action == "list" then ListCalls(u, calls, n)
    else if act.action == "logs" then LogsCalls(u, act, calls, n)
    else if act.action == "snapshot" then SnapshotCalls(u, act, calls, n)
    else calls == []
  }

  /** removed: whether the removal of the files, if the message gets to it, succeeds. */
  predicate ReplyRight(u: Setup, act: SubscribeAction, r: Response, n: nat, removed: bool) {
    && r.id == act.id
    && (act.action in TaskActions + QueryActions ==> OneCallReply(u, act, r, n))
    && (act.action == "device" || act.action == "unregister" ==>
          && (r.success <==> Good(u, n) && (act.action == "unregister" ==> removed))
          && (r.success ==> r.message == "" && DeviceResult(u, r.result, n))
          && (!r.success ==> r.result == Nothing)
          && (!Good(u, n) ==> Some(r.message) == u.answers(n).err)
          && (Good(u, n) && !r.success ==> r.message == RemovalError))
    && (act.action == "list" ==>
          && (r.success <==> Good(u, n))
          && (r.success ==> r.message == "" && ListResult(u, r.result, n))
          && (!r.success ==> r.result == Nothing && Some(r.message) == u.answers(n).err))
    && (act.action == "logs" ==> LogsReply(u, act, r, n))
    && (act.action == "snapshot" ==> SnapshotReply(u, act, r, n))
  }

  // ---------------------------------------------------------------- the actions get it right

  lemma {:induction false} FirstInvalidLeast(asked: seq<string>, snap: string)
    ensures match FirstInvalid(asked, snap)
            case None => forall i :: 0 <= i < |asked| ==> !LacksPrefix(asked, snap, i)
            case Some(s) => exists i :: 0 <= i < |asked| && LacksPrefix(asked, snap, i) && s == asked[i]
                                   && forall j :: 0 <= j < i ==> !LacksPrefix(asked, snap, j)
  {
    if asked != [] {
      if LacksPrefix(asked, snap, 0) {
        assert FirstInvalid(asked, snap) == Some(asked[0]);
      } else {
        var rest := asked[1..];
        FirstInvalidLeast(rest, snap);
        if FirstInvalid(rest, snap).Some? {
          var i :| 0 <= i < |rest| && LacksPrefix(rest, snap, i) && FirstInvalid(rest, snap).value == rest[i]
                   && forall j :: 0 <= j < i ==> !LacksPrefix(rest, snap, j);
          assert LacksPrefix(asked, snap, i + 1);
          forall j | 0 <= j < i + 1 ensures !LacksPrefix(asked, snap, j) {
            assert j > 0 ==> LacksPrefix(asked, snap, j) == LacksPrefix(rest, snap, j - 1);
          }
        } else {
          forall i | 0 <= i < |asked| ensures !LacksPrefix(asked, snap, i) {
            assert i > 0 ==> LacksPrefix(asked, snap, i) == LacksPrefix(rest, snap, i - 1);
          }
        }
      }
    }
  }

  /** The request of a start, stop or restart is refused if and only if it does not decode or some entry lacks the snap
      name; the first such entry is named. Otherwise its services, or the snap itself when it names none, are given. */
  lemma ServicesExact(u: Setup, act: SubscribeAction)
    ensures var given := ValidServices(act.snap, act.data, u.codec);
            && (given.Malformed? <==> ServicesBad(u, act))
            && (given.Value? ==> given.value == Named(u, act) && given.value != [])
            && (given.Malformed? && ServiceAction(act) && act.snap != "" ==> RefusalRight(u, act, given.message))
  {
    var asked := u.codec.services(act.data);
    if asked.Value? {
      FirstInvalidLeast(asked.value, act.snap);
    }
  }

  lemma ServiceRight(u: Setup, act: SubscribeAction, n: nat)
    requires ServiceAction(act)
    ensures TaskPlan(act, u.codec).Some?
    ensures var s := ServeTask(act, TaskPlan(act, u.codec).value, u.answers, n);
            OneCallRight(u, act, s.calls) && OneCallReply(u, act, s.reply, n) && s.reply.id == act.id
  {
    ServicesExact(u, act);
  }

  lemma TaskRight(u: Setup, act: SubscribeAction, n: nat)
    requires act.action in TaskActions
    ensures TaskPlan(act, u.codec).Some?
    ensures var s := ServeTask(act, TaskPlan(act, u.codec).value, u.answers, n);
            OneCallRight(u, act, s.calls) && OneCallReply(u, act, s.reply, n) && s.reply.id == act.id
  {
    if ServiceAction(act) {
      ServiceRight(u, act, n);
    }
  }

  lemma QueryRight(u: Setup, act: SubscribeAction, n: nat)
    requires act.action in QueryActions
    ensures TaskPlan(act, u.codec).None? && QueryPlan(act).Some?
    ensures var s := ServeQuery(act, QueryPlan(act).value, u.clientID, u.answers, n);
            OneCallRight(u, act, s.calls) && OneCallReply(u, act, s.reply, n) && s.reply.id == act.id
  {
  }

  lemma DeviceServed(u: Setup, act: SubscribeAction, n: nat)
    ensures var s := ServeDevice(act, u.orgID, u.clientID, u.answers, n);
            && DeviceCalls(u, s.calls, n)
            && s.reply.id == act.id && (s.reply.success <==> Good(u, n))
            && (s.reply.success ==> s.reply.message == "" && DeviceResult(u, s.reply.result, n))
            && (!s.reply.success ==> s.reply.result == Nothing && Some(s.reply.message) == u.answers(n).err)
  {
  }

  lemma DeviceRight(u: Setup, act: SubscribeAction, n: nat, removed: bool)
    requires act.action == "device"
    ensures var s := ServeDevice(act, u.orgID, u.clientID, u.answers, n);
            CallsRight(u, act, s.calls, n) && ReplyRight(u, act, s.reply, n, removed)
  {
    DeviceServed(u, act, n);
  }

  lemma UnregisterRight(u: Setup, act: SubscribeAction, n: nat, removed: bool)
    requires act.action == "unregister"
    ensures var s := ServeUnregister(act, u.orgID, u.clientID, removed, u.answers, n);
            CallsRight(u, act, s.calls, n) && ReplyRight(u, act, s.reply, n, removed)
  {
    DeviceServed(u, act, n);
  }

  lemma ListRight(u: Setup, act: SubscribeAction, n: nat, removed: bool)
    requires act.action == "list"
    ensures var s := ServeList(act, u.clientID, u.answers, n);
            CallsRight(u, act, s.calls, n) && ReplyRight(u, act, s.reply, n, removed)
  {
    ListPairsAnswers(act, u.clientID, u.answers, n);
  }

  lemma UploadServed(u: Setup, act: SubscribeAction, url: string, body: string, length: int, n: nat)
    ensures var s := ServeUpload(act, url, body, length, u.answers, n);
            && UploadRight(u, s.calls, Upload(url, body, length), n)
            && (s.reply.success <==> UploadGood(u, n))
            && (!s.reply.success ==> UploadMessage(u, s.reply.message, n))
            && s.reply.id == act.id && s.reply.result == Nothing
  {
  }

  lemma LogsServed(u: Setup, act: SubscribeAction, n: nat)
    ensures var s := ServeLogs(act, u.codec, u.answers, n);
            LogsCalls(u, act, s.calls, n) && LogsReply(u, act, s.reply, n) && s.reply.id == act.id
  {
    var req := u.codec.logs(act.data);
    if req.Value? && Good(u, n) {
      var whole := Concat(u.answers(n).lines);
      var up := ServeUpload(act, req.value.url, whole, |whole|, u.answers, n + 1);
      UploadServed(u, act, req.value.url, whole, |whole|, n + 1);
      assert ([Logs(req.value.limit)] + up.calls)[1..] == up.calls;
    }
  }

  lemma LogsRight(u: Setup, act: SubscribeAction, n: nat, removed: bool)
    requires act.action == "logs"
    ensures var s := ServeLogs(act, u.codec, u.answers, n);
            CallsRight(u, act, s.calls, n) && ReplyRight(u, act, s.reply, n, removed)
  {
    LogsServed(u, act, n);
  }

  /** What the attempts come to: the first good one is the last made, or all fail. */
  lemma AttemptsTell(u: Setup, n: nat, k: nat)
    requires k == Attempts(u.answers, n, u.limit)
    ensures 0 < k <= u.limit
    ensures Good(u, n + k - 1) ==> TheFirst(u, n, n + k - 1)
    ensures !Good(u, n + k - 1) ==> k == u.limit && NoneGood(u, n)
  {
    AttemptsExact(u.answers, n, u.limit, k);
    assert forall m :: Good(u, m) <==> !Fails(u.answers, m);
  }

  /** The calls of a snapshot up to its k-th attempt, the last. */
  function Tried(u: Setup, act: SubscribeAction, n: nat, k: nat): (calls: seq<Call>)
    ensures |calls| == k + 1 && calls[0] == SnapshotMany([act.snap]) && Exports(calls, u.answers(n).number, k)
  {
    [SnapshotMany([act.snap])] + ExportCalls(u.answers(n).number, k)
  }

  lemma TriedThen(u: Setup, act: SubscribeAction, n: nat, k: nat, up: seq<Call>)
    ensures var calls := Tried(u, act, n, k) + up;
            calls[k + 1..] == up && calls[0] == SnapshotMany([act.snap]) && Exports(calls, u.answers(n).number, k)
  {
    var head := Tried(u, act, n, k);
    forall i | 1 <= i <= k ensures (head + up)[i] == SnapshotExport(u.answers(n).number) {
      assert (head + up)[i] == head[i];
    }
  }

  /** What is served when the k-th attempt is the last. */
  lemma SnapshotServes(u: Setup, act: SubscribeAction, n: nat, k: nat)
    requires u.codec.snapshotURL(act.data).Value? && Good(u, n)
    requires k == Attempts(u.answers, n + 1, u.limit) && k > 0
    ensures var s := ServeSnapshot(act, u.codec, u.limit, u.answers, n);
            var url := u.codec.snapshotURL(act.data).value;
            && s.reply.id == act.id && s.reply.result == Nothing
            && |s.calls| > k && s.calls[0] == SnapshotMany([act.snap]) && Exports(s.calls, u.answers(n).number, k)
            && (Good(u, n + k) ==> Uploaded(u, url, s.calls, n, n + k) && TellsUpload(u, s.reply, n + k))
            && (!Good(u, n + k) ==> |s.calls| == 1 + k && !s.reply.success && s.reply.message == RetryError)
  {
    if Good(u, n + k) {
      var a, url := u.answers(n + k), u.codec.snapshotURL(act.data).value;
      var up := ServeUpload(act, url, a.text, a.number, u.answers, n + 1 + k);
      UploadServed(u, act, url, a.text, a.number, n + 1 + k);
      TriedThen(u, act, n, k, up.calls);
      assert ServeSnapshot(act, u.codec, u.limit, u.answers, n) == Served(up.reply, Tried(u, act, n, k) + up.calls);
    } else {
      assert ServeSnapshot(act, u.codec, u.limit, u.answers, n)
          == Served(Failed(act, RetryError), Tried(u, act, n, k));
    }
  }

  lemma SnapshotServed(u: Setup, act: SubscribeAction, n: nat)
    requires u.codec.snapshotURL(act.data).Value? && Good(u, n)
    ensures var s := ServeSnapshot(act, u.codec, u.limit, u.answers, n);
            SnapshotCalls(u, act, s.calls, n) && SnapshotReply(u, act, s.reply, n) && s.reply.id == act.id
  {
    var k := Attempts(u.answers, n + 1, u.limit);
    AttemptsTell(u, n + 1, k);
    SnapshotServes(u, act, n, k);
    SnapshotTells(u, act, ServeSnapshot(act, u.codec, u.limit, u.answers, n), n, k);
  }

  lemma SnapshotTells(u: Setup, act: SubscribeAction, s: Served, n: nat, k: nat)
    requires u.codec.snapshotURL(act.data).Value? && Good(u, n) && 0 < k <= u.limit
    requires Good(u, n + k) ==> TheFirst(u, n + 1, n + k)
    requires !Good(u, n + k) ==> k == u.limit && NoneGood(u, n + 1)
    requires var url := u.codec.snapshotURL(act.data).value;
             && s.reply.result == Nothing
             && |s.calls| > k && s.calls[0] == SnapshotMany([act.snap]) && Exports(s.calls, u.answers(n).number, k)
             && (Good(u, n + k) ==> Uploaded(u, url, s.calls, n, n + k) && TellsUpload(u, s.reply, n + k))
             && (!Good(u, n + k) ==> |s.calls| == 1 + k && !s.reply.success && s.reply.message == RetryError)
    ensures SnapshotCalls(u, act, s.calls, n) && SnapshotReply(u, act, s.reply, n)
  {
    if Good(u, n + k) {
      assert !NoneGood(u, n + 1);
    }
  }

  lemma SnapshotRight(u: Setup, act: SubscribeAction, n: nat, removed: bool)
    requires act.action == "snapshot"
    ensures var s := ServeSnapshot(act, u.codec, u.limit, u.answers, n);
            CallsRight(u, act, s.calls, n) && ReplyRight(u, act, s.reply, n, removed)
  {
    if u.codec.snapshotURL(act.data).Value? && Good(u, n) {
      SnapshotServed(u, act, n);
    }
  }

  /** Joining log lines keeps every line: it is the one function that takes concatenation to
      concatenation and a single line to itself. */
  lemma {:induction false} ConcatExact(a: seq<string>, b: seq<string>, line: string)
    ensures Concat(a + b) == Concat(a) + Concat(b) && Concat([line]) == line
  {
    assert [line][..0] == [];
    assert Concat([line]) == "" + line;
    if b == [] {
      assert a + b == a;
    } else {
      var n := |b| - 1;
      ConcatExact(a, b[..n], line);
      assert (a + b)[..|a + b| - 1] == a + b[..n];
    }
  }
}
