/** wsserver/connection.go: a live connection and the ordered registry of
    live connections. */
module Connection {
  import opened GoSlices

  /** Identifiers are the uuid strings the source generates; which string is
      drawn is outside the model, so callers pass it in. */
  type Id = string

  /** Stands for the `*websocket.Conn` transport handle: only its identity
      matters to this package. */
  datatype ConnHandle = ConnHandle(address: nat)

  /** A connection never changes after construction, so it is a value. */
  datatype WsConnection = WsConnection(id: Id, conn: ConnHandle) {
    function ID(): (r: Id)
      ensures r == id
    {
      id
    }

    function Conn(): (r: ConnHandle)
      ensures r == conn
    {
      conn
    }
  }

  /** `NewWsConnection`, with the generated id as a parameter. */
  function NewWsConnection(id: Id, conn: ConnHandle): (c: WsConnection)
    ensures c.ID() == id && c.Conn() == conn
  {
    WsConnection(id, conn)
  }

  /** The closure `connectionList.Remove` hands to `slices.DeleteFunc`. */
  function SameConnectionId(id: Id): (matches: WsConnection -> bool)
    ensures forall c: WsConnection :: matches(c) <==> c.ID() == id
  {
    (c: WsConnection) => c.ID() == id
  }

  /** One change made to a connection registry: an add, or a remove with
      the result it reported. */
  datatype RegistryOp = Registered(connection: WsConnection) | Unregistered(connection: WsConnection, removed: bool)

  /** `connectionList`: the live connections in the order they were added. */
  class ConnectionList {
    var connections: seq<WsConnection>
    /** Every Add and Remove made so far, in order. */
    ghost var log: seq<RegistryOp>

    /** The zero value `connectionList{}`. */
    constructor ()
      ensures connections == [] && log == []
    {
      connections := [];
      log := [];
    }

    /** Appends the connection and hands it back. */
    method Add(connection: WsConnection) returns (r: WsConnection)
      modifies this
      ensures r == connection
      ensures connections == old(connections) + [connection]
      ensures log == old(log) + [Registered(connection)]
    {
      connections := connections + [connection];
      log := log + [Registered(connection)];
      r := connection;
    }

    /** Drops every connection whose id is the argument's, keeps the others
        in order, and reports whether the list got shorter. */
    method Remove(connection: WsConnection) returns (removed: bool)
      modifies this
      ensures connections == DeleteFunc(old(connections), SameConnectionId(connection.ID()))
      ensures forall i :: 0 <= i < |connections| ==>
                connections[i] in old(connections) && connections[i].ID() != connection.ID()
      ensures forall i :: 0 <= i < |old(connections)| && old(connections)[i].ID() != connection.ID() ==>
                old(connections)[i] in connections
      ensures removed <==> exists i :: 0 <= i < |old(connections)| && old(connections)[i].ID() == connection.ID()
      ensures !removed ==> connections == old(connections)
      ensures log == old(log) + [Unregistered(connection, removed)]
    {
      var originalLen := |connections|;
      DeleteFuncShrinks(connections, SameConnectionId(connection.ID()));
      connections := DeleteFunc(connections, SameConnectionId(connection.ID()));
      removed := |connections| < originalLen;
      log := log + [Unregistered(connection, removed)];
      if !removed {
        DeleteFuncKeepsAll(old(connections), SameConnectionId(connection.ID()));
      }
    }

    method Count() returns (n: int)
      ensures n == |connections|
    {
      n := |connections|;
    }
  }

  /** A connection whose id is fresh, appended and then removed by id: the
      removal succeeds and leaves exactly the list there was before the add. */
  lemma AddThenRemoveRestores(live: seq<WsConnection>, c: WsConnection)
    requires forall i :: 0 <= i < |live| ==> live[i].ID() != c.ID()
    ensures DeleteFunc(live + [c], SameConnectionId(c.ID())) == live
    ensures exists i :: 0 <= i < |live + [c]| && (live + [c])[i].ID() == c.ID()
  {
    DeleteFuncDropsOnly(live, c, [], SameConnectionId(c.ID()));
    assert live + [c] + [] == live + [c];
    assert (live + [c])[|live|] == c;
  }

  /** Two connections with distinct ids: adding both and removing each in
      turn gives the counts 1, 2, 1, 0. */
  method CountScenario(handle: ConnHandle, id1: Id, id2: Id) returns (counts: seq<int>)
    requires id1 != id2
    ensures counts == [1, 2, 1, 0]
  {
    var c1 := NewWsConnection(id1, handle);
    var c2 := NewWsConnection(id2, handle);
    var list := new ConnectionList();
    var n;
    var _ := list.Add(c1);
    n := list.Count();
    counts := [n];
    var _ := list.Add(c2);
    n := list.Count();
    counts := counts + [n];
    var _ := list.Remove(c1);
    n := list.Count();
    counts := counts + [n];
    var _ := list.Remove(c2);
    n := list.Count();
    counts := counts + [n];
  }
}
