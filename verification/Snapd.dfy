/** The outside calls that message handlers make, in the order in which they make them. */
module Snapd {
  import opened Disk

  datatype Call =
    | Install(snap: string)
    | Remove(snap: string)
    | Refresh(snap: string, channel: Option<string>)
    | Revert(snap: string)
    | Enable(snap: string)
    | Disable(snap: string)
    | Start(names: seq<string>)
    | Stop(names: seq<string>)
    | Restart(names: seq<string>)
    | Conf(snap: string)
    | SetConf(snap: string, patch: string)
    | SnapInfo(snap: string)
    | Ack(assertion: string)
    | ServerVersion
    | DeviceInfo
    | List
    | Logs(limit: int)
    | SnapshotMany(snaps: seq<string>)
    | SnapshotExport(setID: int)
    | Upload(url: string, body: string, length: int)   // PUT to a storage URL
    | ReadBody                                         // of a response that is not 200
    | EncodedAssertions(kind: string)
    | Snaps
    | Switch(snap: string, track: string)

  /** The request that a call which starts a change answers to, told from the call alone. */
  function ActionOf(c: Call): string {
    match c
    case Install(_) => "install"
    case Remove(_) => "remove"
    case Refresh(_, channel) => if channel.Some? then "switch" else "refresh"
    case Revert(_) => "revert"
    case Enable(_) => "enable"
    case Disable(_) => "disable"
    case Start(_) => "start"
    case Stop(_) => "stop"
    case Restart(_) => "restart"
    case SetConf(_, _) => "setconf"
    case Switch(_, _) => "switch"
    case _ => ""
  }

  datatype App = App(name: string, daemon: string, enabled: bool, active: bool)

  /** Members of client.Snap that the NATS replies do not mention; rest stands for those that no reply mentions. */
  datatype SnapMore = SnapMore(confinement: string, devMode: bool, revisionNumber: int, rest: string)

  /** client.Snap */
  datatype Snap = Snap(
    id: string, name: string, title: string, revision: string, version: string,
    channel: string, trackingChannel: string, status: string, kind: string,
    installDate: int, installedSize: int, apps: seq<App>, more: SnapMore)

  datatype DeviceDetails = DeviceDetails(brand: string, model: string, serial: string, store: string, deviceKey: string)

  datatype VersionDetails = VersionDetails(
    version: string, series: string, osID: string, osVersionID: string, onClassic: bool, kernelVersion: string)

  /** What a call returns: perhaps an error, and values of which each call uses its own. */
  datatype Answer = Answer(
    err: Option<string>, text: string, number: int, lines: seq<string>,
    snaps: seq<Snap>, snap: Snap, device: DeviceDetails, version: VersionDetails)

  /** The n-th outside call is answered with answers(n), whatever was asked. */
  type Answers = nat -> Answer

  class Client {
    const answers: Answers
    var calls: seq<Call>

    constructor (answers: Answers)
      ensures this.answers == answers && calls == []
    {
      this.answers := answers;
      calls := [];
    }

    method Do(c: Call) returns (a: Answer)
      modifies this
      ensures calls == old(calls) + [c] && a == answers(|old(calls)|)
    {
      a := answers(|calls|);
      calls := calls + [c];
    }
  }
}
