/** The static table of game servers and the lookup of a server by its network port. */
module Servers {
  import opened Wrappers

  /** A Rust `u16`. */
  type Port = p: int | 0 <= p < 0x1_0000

  datatype Server = Server(name: string, port: Port)

  /** `SERVERS`, in table order. */
  const SERVERS: seq<Server> := [
    Server("basil", 2337),
    Server("sybil", 1337),
    Server("terry", 3336),
    Server("manuel", 1447),
    Server("campbell", 6337),
    Server("event-hall-us", 4447)
  ]

  /** `iter().find`: the first server of the table whose port is the given one. */
  function Find(servers: seq<Server>, port: Port): (r: Option<Server>)
    ensures r.Some? ==> exists i :: 0 <= i < |servers| && servers[i] == r.value
                          && r.value.port == port
                          && forall j :: 0 <= j < i ==> servers[j].port != port
    ensures r.None? ==> forall i :: 0 <= i < |servers| ==> servers[i].port != port
  {
    if servers == [] then None
    else if servers[0].port == port then Some(servers[0])
    else
      var r := Find(servers[1..], port);
      assert r.Some? ==> exists i :: 1 <= i < |servers| && servers[i] == r.value
                           && forall j :: 0 <= j < i ==> servers[j].port != port;
      r
  }

  /** `server_by_port`: the table entry for a port, None for a port the table does not know. */
  function ServerByPort(port: Port): (r: Option<Server>)
    ensures r.Some? ==> r.value in SERVERS && r.value.port == port
    ensures r.None? <==> port !in {2337, 1337, 3336, 1447, 6337, 4447}
  {
    Find(SERVERS, port)
  }

  /** Ports and names of the table are pairwise distinct, so at most one entry can match. */
  lemma TableIsInjective()
    ensures forall i, j :: 0 <= i < j < |SERVERS| ==>
              SERVERS[i].port != SERVERS[j].port && SERVERS[i].name != SERVERS[j].name
  {
  }

  /** A known port finds the one table entry that carries it. */
  lemma ServerByPortIsTheEntry(i: nat)
    requires i < |SERVERS|
    ensures ServerByPort(SERVERS[i].port) == Some(SERVERS[i])
  {
    TableIsInjective();
  }
}
