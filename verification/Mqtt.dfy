/** mqtt/mqtt.go: the package-wide MQTT client and connection. */
module Mqtt {
  import opened Disk

  datatype Conn = Conn(clientID: string, organisationID: string)

  /** The package variables client and conn, and how many clients were ever built. */
  datatype State = State(client: Option<string>, conn: Option<Conn>, built: nat)

  const Fresh := State(None, None, 0)

  /** Client and connection come and go together, one client is all there ever is,
      and it carries the connection's ID. */
  predicate Sound(m: State) {
    && (m.client.None? <==> m.conn.None?)
    && m.built == (if m.client.Some? then 1 else 0)
    && (m.conn.Some? ==> m.client == Some(m.conn.value.clientID))
  }

  /** What the broker does: the connection is already open, or connecting succeeds. */
  datatype BrokerIO = BrokerIO(open: bool, connects: bool)

  /** newClient: the client there is, or a new one if the key pair loads. */
  function AfterNewClient(m: State, e: Enrollment): State {
    if m.client.Some? || !e.credentials.keyPairLoads then m
    else m.(client := Some(e.id), built := m.built + 1)
  }

  function AfterGetConnection(m: State, e: Enrollment): State {
    if m.conn.Some? then m
    else
      var n := AfterNewClient(m, e);
      if n.client.None? then m else n.(conn := Some(Conn(e.id, e.orgID)))
  }

  /** The connection GetConnection hands out, if it does not fail. */
  function Handed(m: State, e: Enrollment, io: BrokerIO): Option<Conn> {
    var n := AfterGetConnection(m, e);
    if n.conn.Some? && (io.open || io.connects) then n.conn else None
  }

  class Client {
    const clientID: string
    constructor (clientID: string)
      ensures this.clientID == clientID
    {
      this.clientID := clientID;
    }
  }

  class Connection {
    const client: Client
    const clientID: string
    const organisationID: string
    constructor (client: Client, clientID: string, organisationID: string)
      ensures this.client == client && this.clientID == clientID && this.organisationID == organisationID
    {
      this.client, this.clientID, this.organisationID := client, clientID, organisationID;
    }
  }

  /** The package: one object holds its two variables. */
  class Package {
    var conn: Connection?
    var client: Client?
    var built: nat

    ghost function Model(): State
      reads this
    {
      State(if client == null then None else Some(client.clientID),
            if conn == null then None else Some(Conn(conn.clientID, conn.organisationID)),
            built)
    }

    /** The connection wraps the one client. */
    ghost predicate Valid()
      reads this
    {
      Sound(Model()) && (conn != null ==> conn.client == client)
    }

    constructor ()
      ensures Valid() && Model() == Fresh
    {
      conn, client, built := null, null, 0;
    }

    method NewClient(e: Enrollment) returns (c: Client?)
      modifies this
      ensures Model() == AfterNewClient(old(Model()), e) && conn == old(conn)
      ensures c == client && (old(client) != null ==> c == old(client))
    {
      if client != null {
        return client;
      }
      if !e.credentials.keyPairLoads {
        return null;
      }
      client := new Client(e.id);
      built := built + 1;
      c := client;
    }

    method GetConnection(e: Enrollment, io: BrokerIO) returns (c: Connection?)
      requires Valid()
      modifies this
      ensures Valid() && Model() == AfterGetConnection(old(Model()), e)
      ensures old(conn) != null ==> conn == old(conn) && client == old(client)
      ensures c != null <==> Handed(old(Model()), e, io).Some?
      ensures c != null ==> c == conn && c.client == client && (io.open || io.connects)
    {
      if conn == null {
        var made := NewClient(e);
        if made == null {
          return null;
        }
        conn := new Connection(made, e.id, e.orgID);
      }
      if io.open {
        return conn;
      }
      if !io.connects {
        return null;
      }
      c := conn;
    }
  }

  /** The state after a sequence of GetConnection calls, whatever enrolments they are given. */
  function AfterCalls(m: State, es: seq<Enrollment>): State
    decreases |es|
  {
    if es == [] then m else AfterCalls(AfterGetConnection(m, es[0]), es[1..])
  }

  /** newClient builds a client if and only if there is none and the key pair loads; the first one built stays. */
  lemma NewClientExact(m: State, e: Enrollment, later: Enrollment)
    ensures var n := AfterNewClient(m, e);
            && (n.built == m.built + 1 <==> m.client.None? && e.credentials.keyPairLoads)
            && (m.client.Some? ==> n == m)
            && (n.built != m.built ==> n.client == Some(e.id))
            && (n.built == m.built ==> n.client == m.client)
            && n.conn == m.conn
            && (n.client.Some? ==> AfterNewClient(n, later) == n)
  {
  }

  /** The first enrolment whose key pair loads fixes client and connection for good. */
  function FirstLoading(es: seq<Enrollment>): Option<Enrollment> {
    if es == [] then None
    else if es[0].credentials.keyPairLoads then Some(es[0])
    else FirstLoading(es[1..])
  }

  /** Over every sequence of calls at most one client is built, client and connection exist
      together, and they carry the identity of the first enrolment whose key pair loads,
      whatever enrolments later calls bring. */
  lemma {:induction false} SingletonSound(es: seq<Enrollment>)
    ensures var m := AfterCalls(Fresh, es);
            && Sound(m) && m.built <= 1
            && m.conn == (match FirstLoading(es)
                          case None => None
                          case Some(e) => Some(Conn(e.id, e.orgID)))
  {
    if es != [] {
      if es[0].credentials.keyPairLoads {
        ConnectionNeverChanges(AfterGetConnection(Fresh, es[0]), es[1..]);
      } else {
        SingletonSound(es[1..]);
      }
    }
  }

  lemma {:induction false} ConnectionNeverChanges(m: State, es: seq<Enrollment>)
    requires m.conn.Some?
    ensures AfterCalls(m, es) == m
  {
    if es != [] {
      ConnectionNeverChanges(m, es[1..]);
    }
  }
}
