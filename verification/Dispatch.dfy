/** pkg/legacy/legacy.go: messages on the action topic, their replies, and the exit after an unregister. */
module Dispatch {
  import opened Disk
  import opened Paths
  import opened Config
  import opened Snapd
  import opened Actions
  import opened Replies

  /** A payload either decodes or does not; the other members are outcomes of handling it:
      of removing the files, and of serialising the reply. */
  datatype Message = Message(decoded: Option<SubscribeAction>, removal: RemoveIO, serialises: bool)

  /** What is published: a reply, or nothing at all for an unknown action or an unserialisable reply. */
  type Payload = Option<Response>

  /** calls made, payloads published, files, and whether the process has ended. */
  datatype State = State(calls: seq<Call>, published: seq<Payload>, files: Files, exited: bool)

  const KnownActions := {"device", "list", "install", "remove", "refresh", "revert", "enable", "disable", "start",
                         "stop", "restart", "conf", "setconf", "info", "ack", "server", "switch", "unregister",
                         "logs", "snapshot"}

  /** The actions that make several calls. */
  function PerformLonger(u: Setup, act: SubscribeAction, removed: bool, n: nat): Option<Served> {
    match act.action
    case "device" => Some(ServeDevice(act, u.orgID, u.clientID, u.answers, n))
    case "list" => Some(ServeList(act, u.clientID, u.answers, n))
    case "unregister" => Some(ServeUnregister(act, u.orgID, u.clientID, removed, u.answers, n))
    case "logs" => Some(ServeLogs(act, u.codec, u.answers, n))
    case "snapshot" => Some(ServeSnapshot(act, u.codec, u.limit, u.answers, n))
    case _ => None
  }

  /** The reply to an action before its Action member is filled in; none for an unknown action. */
  function Perform(u: Setup, act: SubscribeAction, removed: bool, n: nat): Option<Served> {
    if TaskPlan(act, u.codec).Some? then Some(ServeTask(act, TaskPlan(act, u.codec).value, u.answers, n))
    else if QueryPlan(act).Some? then Some(ServeQuery(act, QueryPlan(act).value, u.clientID, u.answers, n))
    else PerformLonger(u, act, removed, n)
  }

  /** Whether an unregister gets as far as removing files. */
  predicate Removes(act: SubscribeAction, answers: Answers, n: nat) {
    act.action == "unregister" && answers(n).err.None?
  }

  /** subscribeHandler */
  function Handle(u: Setup, st: State, m: Message): State {
    if m.decoded.None? then st
    else
      var act := m.decoded.value;
      var n := |st.calls|;
      var removal := Removed(st.files, u.at, m.removal);
      var served := Perform(u, act, removal.ok, n);
      if served.None? then st.(published := st.published + [None])
      else
        State(st.calls + served.value.calls,
              st.published + [if m.serialises then Some(served.value.reply.(action := act.action)) else None],
              if Removes(act, u.answers, n) then removal.files else st.files,
              act.action == "unregister" && m.serialises)
  }

  class Handler {
    const clientID: string
    const orgID: string
    const performer: Performer
    const fs: FileSystem
    const env: Env
    const limit: Limit        // attempts that retry.Do makes
    var published: seq<Payload>
    var exited: bool

    ghost function Given(): Setup {
      Setup(clientID, orgID, performer.codec, limit, PlacesOf(env), performer.client.answers)
    }

    ghost function Model(): State
      reads this, fs, performer.client
    {
      State(performer.client.calls, published, fs.files, exited)
    }

    constructor (clientID: string, orgID: string, performer: Performer, fs: FileSystem, env: Env, limit: Limit)
      ensures published == [] && !exited && this.performer == performer && this.fs == fs
      ensures Given() == Setup(clientID, orgID, performer.codec, limit, PlacesOf(env), performer.client.answers)
    {
      this.clientID, this.orgID, this.performer := clientID, orgID, performer;
      this.fs, this.env, this.limit := fs, env, limit;
      published, exited := [], false;
    }

    method PerformLongerAction(act: SubscribeAction, removal: RemoveIO) returns (r: Option<Response>)
      modifies performer.client, fs
      ensures var n := |old(performer.client.calls)|;
              var removed := Removed(old(fs.files), Given().at, removal);
              var s := PerformLonger(Given(), act, removed.ok, n);
              && (s.None? ==> r.None? && performer.client.calls == old(performer.client.calls))
              && (s.Some? ==> r == Some(s.value.reply)
                              && performer.client.calls == old(performer.client.calls) + s.value.calls)
              && fs.files == if Removes(act, Given().answers, n) then removed.files else old(fs.files)
    {
      var reply: Response;
      match act.action {
        case "device" => reply := performer.Device(act, orgID, clientID);
        case "list" => reply := performer.SnapList(act, clientID);
        case "unregister" => reply := performer.Unregister(act, orgID, clientID, fs, env, removal);
        case "logs" => reply := performer.RetrieveLogs(act);
        case "snapshot" => reply := performer.SnapSnapshot(act, limit);
        case _ => return None;
      }
      r := Some(reply);
    }

    /** The switch over the action. */
    method PerformOne(act: SubscribeAction, removal: RemoveIO) returns (r: Option<Response>)
      modifies performer.client, fs
      ensures var n := |old(performer.client.calls)|;
              var removed := Removed(old(fs.files), Given().at, removal);
              var s := Perform(Given(), act, removed.ok, n);
              && (s.None? ==> r.None? && performer.client.calls == old(performer.client.calls))
              && (s.Some? ==> r == Some(s.value.reply.(action := act.action))
                              && performer.client.calls == old(performer.client.calls) + s.value.calls)
              && fs.files == if Removes(act, Given().answers, n) then removed.files else old(fs.files)
    {
      var task := TaskPlan(act, performer.codec);
      var query := QueryPlan(act);
      if task.Some? {
        var reply := performer.Ask(act, task.value, clientID, false);
        return Some(reply.(action := act.action));
      }
      if query.Some? {
        var reply := performer.Ask(act, query.value, clientID, true);
        return Some(reply.(action := act.action));
      }
      r := PerformLongerAction(act, removal);
      if r.Some? {
        r := Some(r.value.(action := act.action));
      }
    }

    /** Calls and reply are those of the action, and there is a reply for exactly the known ones. */
    method PerformAction(act: SubscribeAction, removal: RemoveIO) returns (r: Option<Response>)
      modifies performer.client, fs
      ensures var n := |old(performer.client.calls)|;
              var removed := Removed(old(fs.files), Given().at, removal);
              var s := Perform(Given(), act, removed.ok, n);
              && (s.None? ==> r.None? && performer.client.calls == old(performer.client.calls))
              && (s.Some? ==> r == Some(s.value.reply.(action := act.action))
                              && performer.client.calls == old(performer.client.calls) + s.value.calls)
              && fs.files == if Removes(act, Given().answers, n) then removed.files else old(fs.files)
      ensures var n := |old(performer.client.calls)|;
              && (r.Some? <==> act.action in KnownActions)
              && (r.Some? ==> ReplyRight(Given(), act, r.value, n, Removed(old(fs.files), Given().at, removal).ok))
              && |performer.client.calls| >= n && CallsRight(Given(), act, performer.client.calls[n..], n)
    {
      ghost var before := performer.client.calls;
      PerformedRight(Given(), act, Removed(fs.files, Given().at, removal).ok, before);
      r := PerformOne(act, removal);
      assert r.None? ==> performer.client.calls[|before|..] == before[|before|..];
    }

    method SubscribeHandler(m: Message)
      requires !exited
      modifies this, performer.client, fs
      ensures Model() == Handle(Given(), old(Model()), m)
    {
      if m.decoded.None? {
        return;
      }
      var act := m.decoded.value;
      var response := PerformAction(act, m.removal);
      var failed := response.None? || !m.serialises;
      published := published + [if failed then None else response];
      if act.action == "unregister" && !failed {
        exited := true;
      }
    }
  }

  // ---------------------------------------------------------------- accounting over a session

  /** Messages are handled one after another until the process ends. */
  function Session(u: Setup, st: State, ms: seq<Message>): State
    decreases |ms|
  {
    if ms == [] || st.exited then st else Session(u, Handle(u, st, ms[0]), ms[1..])
  }

  function Decodable(ms: seq<Message>): seq<Message> {
    if ms == [] then []
    else (if ms[0].decoded.Some? then [ms[0]] else []) + Decodable(ms[1..])
  }

  predicate Ends(m: Message) {
    m.decoded.Some? && m.decoded.value.action == "unregister" && m.serialises
  }

  /** The payload answers this message: a reply with its ID and action, or nothing exactly when the
      action is unknown or the reply could not be serialised. */
  predicate Responds(p: Payload, m: Message) {
    && m.decoded.Some?
    && (p.Some? ==> p.value.id == m.decoded.value.id && p.value.action == m.decoded.value.action)
    && (p.None? <==> m.decoded.value.action !in KnownActions || !m.serialises)
  }

  /** All and only the known actions are served, with the request's own ID. */
  lemma PerformServes(u: Setup, act: SubscribeAction, removed: bool, n: nat)
    ensures var s := Perform(u, act, removed, n);
            (s.Some? <==> act.action in KnownActions) && (s.Some? ==> s.value.reply.id == act.id)
  {
  }

  lemma HandleResponds(u: Setup, st: State, m: Message)
    requires m.decoded.Some? && !st.exited
    ensures var next := Handle(u, st, m);
            && |next.published| == |st.published| + 1
            && next.published[..|st.published|] == st.published
            && Responds(next.published[|st.published|], m)
            && (next.exited <==> Ends(m))
  {
    PerformServes(u, m.decoded.value, Removed(st.files, u.at, m.removal).ok, |st.calls|);
    assert "unregister" in KnownActions;
  }

  /** What a session from before to after published for the messages asked. */
  predicate Accounted(before: State, after: State, asked: seq<Message>) {
    var k := |after.published| - |before.published|;
    && 0 <= k <= |asked|
    && after.published[..|before.published|] == before.published
    && (forall i :: 0 <= i < k ==> Responds(after.published[|before.published| + i], asked[i]))
    && (!after.exited ==> k == |asked| && forall i :: 0 <= i < k ==> !Ends(asked[i]))
    && (after.exited ==> k > 0 && Ends(asked[k - 1]) && forall i :: 0 <= i < k - 1 ==> !Ends(asked[i]))
  }

  lemma AccountOneMore(before: State, mid: State, after: State, m: Message, asked: seq<Message>)
    requires |mid.published| == |before.published| + 1
    requires mid.published[..|before.published|] == before.published
    requires Responds(mid.published[|before.published|], m) && !mid.exited && !Ends(m)
    requires Accounted(mid, after, asked)
    ensures Accounted(before, after, [m] + asked)
  {
    var n := |before.published|;
    assert after.published[..n + 1][..n] == after.published[..n];
    assert after.published[n] == after.published[..n + 1][n];
    forall i | 0 <= i < |after.published| - n
      ensures Responds(after.published[n + i], ([m] + asked)[i])
    {
      if i > 0 {
        assert after.published[n + i] == after.published[(n + 1) + (i - 1)];
      }
    }
  }

  /** Over any sequence of messages up to exit: one payload for each decodable message, in order, each
      answering its message; the process ends with the first unregister whose reply could be
      serialised, after publishing that reply, and only then. */
  lemma {:induction false} SessionAccounts(u: Setup, st: State, ms: seq<Message>)
    requires !st.exited
    ensures Accounted(st, Session(u, st, ms), Decodable(ms))
    decreases |ms|
  {
    if ms != [] {
      var m := ms[0];
      var mid := Handle(u, st, m);
      if m.decoded.None? {
        SessionAccounts(u, st, ms[1..]);
        assert [] + Decodable(ms[1..]) == Decodable(ms[1..]);
      } else {
        HandleResponds(u, st, m);
        if mid.exited {
          assert Session(u, mid, ms[1..]) == mid;
        } else {
          SessionAccounts(u, mid, ms[1..]);
          AccountOneMore(st, mid, Session(u, mid, ms[1..]), m, Decodable(ms[1..]));
        }
      }
    }
  }

  /** Every known action is served with its own calls and its own reply. */
  lemma PerformRight(u: Setup, act: SubscribeAction, removed: bool, n: nat)
    requires act.action in KnownActions
    ensures var s := Perform(u, act, removed, n);
            s.Some? && CallsRight(u, act, s.value.calls, n) && ReplyRight(u, act, s.value.reply, n, removed)
  {
    if act.action in TaskActions {
      TaskRight(u, act, n);
    } else if act.action in QueryActions {
      QueryRight(u, act, n);
    } else {
      LongerRight(u, act, removed, n);
    }
  }

  lemma LongerRight(u: Setup, act: SubscribeAction, removed: bool, n: nat)
    requires act.action in LongerActions
    ensures TaskPlan(act, u.codec).None? && QueryPlan(act).None?
    ensures var s := PerformLonger(u, act, removed, n);
            s.Some? && CallsRight(u, act, s.value.calls, n) && ReplyRight(u, act, s.value.reply, n, removed)
  {
    match act.action
    case "device" => DeviceRight(u, act, n, removed);
    case "list" => ListRight(u, act, n, removed);
    case "unregister" => UnregisterRight(u, act, n, removed);
    case "logs" => LogsRight(u, act, n, removed);
    case "snapshot" => SnapshotRight(u, act, n, removed);
  }

  /** The calls made for one message, the first of them the n-th of all, and its payload are those of its
      action; a message of an unknown action makes no call. */
  predicate CallsFit(u: Setup, calls: seq<Call>, p: Payload, m: Message, n: nat) {
    && m.decoded.Some?
    && CallsRight(u, m.decoded.value, calls, n)
    && (p.Some? ==>
          || ReplyRight(u, m.decoded.value, p.value, n, true)
          || ReplyRight(u, m.decoded.value, p.value, n, false))
  }

  lemma ActionAside(u: Setup, act: SubscribeAction, r: Response, n: nat, removed: bool)
    requires ReplyRight(u, act, r, n, removed)
    ensures ReplyRight(u, act, r.(action := act.action), n, removed)
  {
    if act.action == "snapshot" {
      forall m | n < m <= n + u.limit && TellsUpload(u, r, m) ensures TellsUpload(u, r.(action := act.action), m) {
      }
    }
  }

  lemma UnknownCallsNothing(u: Setup, act: SubscribeAction, removed: bool, n: nat)
    requires act.action !in KnownActions
    ensures Perform(u, act, removed, n).None? && CallsRight(u, act, [], n)
  {
    PerformServes(u, act, removed, n);
  }

  lemma PerformedRight(u: Setup, act: SubscribeAction, removed: bool, before: seq<Call>)
    ensures var n := |before|;
            var s := Perform(u, act, removed, n);
            && (s.Some? <==> act.action in KnownActions)
            && (s.Some? ==>
                  && ReplyRight(u, act, s.value.reply.(action := act.action), n, removed)
                  && CallsRight(u, act, (before + s.value.calls)[n..], n))
            && (s.None? ==> CallsRight(u, act, before[n..], n))
  {
    if act.action in KnownActions {
      PerformRight(u, act, removed, |before|);
      var s := Perform(u, act, removed, |before|).value;
      ActionAside(u, act, s.reply, |before|, removed);
      assert (before + s.calls)[|before|..] == s.calls;
    } else {
      UnknownCallsNothing(u, act, removed, |before|);
      assert before[|before|..] == [];
    }
  }

  lemma HandleFits(u: Setup, st: State, m: Message)
    requires m.decoded.Some? && !st.exited
    ensures var next := Handle(u, st, m);
            && |st.calls| <= |next.calls| && next.calls[..|st.calls|] == st.calls
            && |next.published| == |st.published| + 1
            && CallsFit(u, next.calls[|st.calls|..], next.published[|st.published|], m, |st.calls|)
  {
    var act, n := m.decoded.value, |st.calls|;
    var removed := Removed(st.files, u.at, m.removal).ok;
    if act.action in KnownActions {
      PerformRight(u, act, removed, n);
      var s := Perform(u, act, removed, n).value;
      ActionAside(u, act, s.reply, n, removed);
      ServedFits(u, st, m, s, removed);
    } else {
      UnknownCallsNothing(u, act, removed, n);
      assert st.calls[n..] == [];
    }
  }

  lemma ServedFits(u: Setup, st: State, m: Message, s: Served, removed: bool)
    requires m.decoded.Some? && !st.exited && removed == Removed(st.files, u.at, m.removal).ok
    requires Perform(u, m.decoded.value, removed, |st.calls|) == Some(s)
    requires CallsRight(u, m.decoded.value, s.calls, |st.calls|)
    requires ReplyRight(u, m.decoded.value, s.reply.(action := m.decoded.value.action), |st.calls|, removed)
    ensures var next := Handle(u, st, m);
            && |st.calls| <= |next.calls| && next.calls[..|st.calls|] == st.calls
            && |next.published| == |st.published| + 1
            && CallsFit(u, next.calls[|st.calls|..], next.published[|st.published|], m, |st.calls|)
  {
    assert (st.calls + s.calls)[|st.calls|..] == s.calls;
    assert (st.calls + s.calls)[..|st.calls|] == st.calls;
  }

  /** Which calls and payload fit a message, the first of the calls being the n-th of all. */
  type Fit = (seq<Call>, Payload, Message, nat) -> bool

  /** The i-th payload after the first ones and the calls between its two cuts fit the i-th message. */
  predicate CutFits(fit: Fit, after: State, first: nat, asked: seq<Message>, cuts: seq<nat>, i: nat) {
    && i + 1 < |cuts| && i < |asked| && first + i < |after.published|
    && cuts[i] <= cuts[i + 1] <= |after.calls|
    && fit(after.calls[cuts[i]..cuts[i + 1]], after.published[first + i], asked[i], cuts[i])
  }

  /** The calls from before to after, cut into those of each payload; cuts are lengths of the call log. */
  predicate CallsAccounted(fit: Fit, before: State, after: State, asked: seq<Message>, cuts: seq<nat>) {
    var k := |after.published| - |before.published|;
    && 0 <= k <= |asked| && |cuts| == k + 1
    && cuts[0] == |before.calls| && cuts[k] == |after.calls|
    && forall i :: 0 <= i < k ==> CutFits(fit, after, |before.published|, asked, cuts, i)
  }

  /** Later entries do not change the first ones. */
  predicate Extends(before: State, after: State) {
    before.calls <= after.calls && before.published <= after.published
  }

  lemma FitOneMore(fit: Fit, before: State, mid: State, after: State, m: Message, asked: seq<Message>, cuts: seq<nat>)
    requires Extends(before, mid) && Extends(mid, after) && |mid.published| == |before.published| + 1
    requires fit(mid.calls[|before.calls|..], mid.published[|before.published|], m, |before.calls|)
    requires CallsAccounted(fit, mid, after, asked, cuts)
    ensures CallsAccounted(fit, before, after, [m] + asked, [|before.calls|] + cuts)
  {
    var all := [|before.calls|] + cuts;
    var n := |before.published|;
    assert after.published[n] == mid.published[n];
    assert after.calls[all[0]..all[1]] == mid.calls[|before.calls|..];
    forall i | 0 <= i < |after.published| - n ensures CutFits(fit, after, n, [m] + asked, all, i) {
      if i > 0 {
        assert CutFits(fit, after, |mid.published|, asked, cuts, i - 1);
        assert all[i] == cuts[i - 1] && all[i + 1] == cuts[i] && ([m] + asked)[i] == asked[i - 1];
      }
    }
  }

  /** The calls and the payload of a message fit it, in this setting. */
  function Fits(u: Setup): Fit {
    (calls: seq<Call>, p: Payload, m: Message, n: nat) => CallsFit(u, calls, p, m, n)
  }

  /** Over any sequence of messages up to exit, the calls made are those of the payloads published, one after another,
      and for each message calls and payload are those of its action: which calls, about what, what is
      reported and with which result, for every action and every outcome. */
  lemma SessionCalls(u: Setup, st: State, ms: seq<Message>) returns (cuts: seq<nat>)
    requires !st.exited
    ensures Extends(st, Session(u, st, ms))
    ensures CallsAccounted(Fits(u), st, Session(u, st, ms), Decodable(ms), cuts)
  {
    forall s: State, m: Message | m.decoded.Some? && !s.exited ensures HandledAs(u, Fits(u), s, m) {
      HandleResponds(u, s, m);
      HandleFits(u, s, m);
    }
    cuts := SessionFits(u, Fits(u), st, ms);
  }

  predicate HandledAs(u: Setup, fit: Fit, st: State, m: Message) {
    var next := Handle(u, st, m);
    && Extends(st, next) && |next.published| == |st.published| + 1
    && fit(next.calls[|st.calls|..], next.published[|st.published|], m, |st.calls|)
  }

  lemma {:induction false} SessionFits(u: Setup, fit: Fit, st: State, ms: seq<Message>) returns (cuts: seq<nat>)
    requires !st.exited
    requires forall s: State, m: Message :: m.decoded.Some? && !s.exited ==> HandledAs(u, fit, s, m)
    ensures Extends(st, Session(u, st, ms))
    ensures CallsAccounted(fit, st, Session(u, st, ms), Decodable(ms), cuts)
    decreases |ms|
  {
    if ms == [] {
      cuts := [|st.calls|];
    } else {
      var m := ms[0];
      var mid := Handle(u, st, m);
      if m.decoded.None? {
        cuts := SessionFits(u, fit, st, ms[1..]);
        assert [] + Decodable(ms[1..]) == Decodable(ms[1..]);
      } else {
        assert HandledAs(u, fit, st, m);
        var after := Session(u, mid, ms[1..]);
        if mid.exited {
          assert after == mid;
          cuts := [|mid.calls|];
        } else {
          cuts := SessionFits(u, fit, mid, ms[1..]);
        }
        FitOneMore(fit, st, mid, after, m, Decodable(ms[1..]), cuts);
        cuts := [|st.calls|] + cuts;
      }
    }
  }

  /** An unregister message is answered with success if and only if the device answered and every file that is there and
      can be seen can be removed; then exactly those are gone. Files change only after the
      device answered, and then as a removal leaves them. */
  lemma UnregisterReplyExact(u: Setup, st: State, m: Message)
    requires !st.exited && m.decoded.Some? && m.decoded.value.action == "unregister" && m.serialises
    ensures var next := Handle(u, st, m);
            var answered := u.answers(|st.calls|).err.None?;
            && next.exited && |next.published| == |st.published| + 1 && next.published[|st.published|].Some?
            && var r := next.published[|st.published|].value;
               && (r.success <==> answered && Removable(st.files, u.at, m.removal))
               && (r.success ==>
                     && (u.at.params in next.files <==> u.at.params in st.files && !m.removal.paramsStat)
                     && (u.at.secret in next.files <==> u.at.secret in st.files && !m.removal.secretStat))
               && (!answered ==> next.files == st.files)
               && (answered && !r.success ==> SameFile(st.files, next.files, u.at.secret))
               && forall p :: p != u.at.params && p != u.at.secret ==> SameFile(st.files, next.files, p)
  {
    RemovalExact(st.files, u.at, m.removal);
    assert "unregister" in KnownActions;
  }

  /** A reply that reports a successful unregister was published with both files gone, provided the
      stat calls saw them; and every session ends right there if that reply could be serialised. */
  lemma UnregisterReplyTruthful(u: Setup, st: State, m: Message)
    requires !st.exited && m.decoded.Some? && m.decoded.value.action == "unregister" && m.serialises
    requires (u.at.params in st.files ==> m.removal.paramsStat) && (u.at.secret in st.files ==> m.removal.secretStat)
    ensures var next := Handle(u, st, m);
            && next.exited && next.published != [] && next.published[|next.published| - 1].Some?
            && (next.published[|next.published| - 1].value.success ==>
                  u.at.params !in next.files && u.at.secret !in next.files)
            && (u.answers(|st.calls|).err.Some? ==>
                  !next.published[|next.published| - 1].value.success && next.files == st.files)
  {
    RemovalComplete(st.files, u.at, m.removal);
    assert "unregister" in KnownActions;
  }
}
