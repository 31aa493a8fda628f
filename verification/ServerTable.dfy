/** The read loop's connection and address tables. */
module ServerTable {
  import opened Base

  type Addr = string

  /**
   conns holds the remote address of each connection in the table, dead the
   connections that have ended, issued every ID ever handed out with its
   address.
   */
  datatype Table = Table(conns: map<u32, Addr>, byAddr: map<Addr, u32>, dead: set<u32>, nextID: u32, closing: bool, issued: map<u32, Addr>)

  const EMPTY := Table(map[], map[], {}, 0, false, map[])

  /** A missing address reads as ID 0, as in the source. */
  function Forget(t: Table, id: u32): Table
    requires id in t.conns
  {
    var key := t.conns[id];
    t.(conns := t.conns - {id},
       byAddr := if (if key in t.byAddr then t.byAddr[key] else 0) == id then t.byAddr - {key} else t.byAddr)
  }

  /** The ID a Connect from addr is answered with: the live one, or the next. */
  function AnswerTo(t: Table, addr: Addr): u32 {
    if addr in t.byAddr && t.byAddr[addr] !in t.dead then t.byAddr[addr] else (t.nextID + 1) % TWO_32
  }

  /** A dead entry for the address is forgotten before a new connection is made. */
  function WithoutDead(t: Table, addr: Addr): Table
    requires addr in t.byAddr ==> t.byAddr[addr] in t.conns
  {
    if addr in t.byAddr && t.byAddr[addr] in t.dead then Forget(t, t.byAddr[addr]) else t
  }

  function OnConnect(t: Table, addr: Addr): Table
    requires addr in t.byAddr ==> t.byAddr[addr] in t.conns
  {
    if t.closing then t
    else
      var u := WithoutDead(t, addr);
      if addr in u.byAddr then u else Enter(u, addr, AnswerTo(t, addr))
  }

  function Enter(t: Table, addr: Addr, id: u32): Table {
    t.(nextID := id, conns := t.conns[id := addr], byAddr := t.byAddr[addr := id], issued := t.issued[id := addr])
  }

  /** Any other packet goes to the connection it names, if it comes from that connection's peer. */
  predicate Routes(t: Table, id: u32, addr: Addr) { id in t.conns && t.conns[id] == addr }

  datatype Event =
    | Connect(addr: Addr)
    | Packet(id: u32, addr: Addr)
    | Sweep(id: u32)
    | Dies(id: u32)
    | Shutdown

  ghost predicate Next(t: Table, e: Event, t': Table) {
    match e
    case Connect(addr) =>
      (addr in t.byAddr ==> t.byAddr[addr] in t.conns) && t.nextID < TWO_32 - 1 && t' == OnConnect(t, addr)
    case Packet(id, addr) => t' == t || (Routes(t, id, addr) && id in t.dead && t' == Forget(t, id))
    case Sweep(id) => id in t.conns && id in t.dead && t' == Forget(t, id)
    case Dies(id) => id in t.issued && t' == t.(dead := t.dead + {id})
    case Shutdown => t' == t.(closing := true)
  }

  /** The two tables are exact inverses. */
  ghost predicate Inverse(t: Table) {
    && (forall id :: id in t.conns ==> t.conns[id] in t.byAddr && t.byAddr[t.conns[id]] == id)
    && (forall a :: a in t.byAddr ==> t.byAddr[a] in t.conns && t.conns[t.byAddr[a]] == a)
  }

  ghost predicate Tracks(t: Table) {
    && Inverse(t)
    && (forall id :: id in t.conns ==> id in t.issued && t.issued[id] == t.conns[id])
    && (forall id :: id in t.issued ==> 1 <= id <= t.nextID)
    && (forall id :: id in t.issued && id !in t.dead ==> id in t.conns)
    && t.dead <= t.issued.Keys
  }

  lemma ForgetTracks(t: Table, id: u32)
    requires Tracks(t) && id in t.conns && id in t.dead
    ensures Tracks(Forget(t, id)) && t.conns[id] !in Forget(t, id).byAddr
    ensures Forget(t, id).issued == t.issued && Forget(t, id).nextID == t.nextID
  {}

  lemma EnterTracks(t: Table, addr: Addr)
    requires Tracks(t) && t.nextID < TWO_32 - 1 && addr !in t.byAddr
    ensures Tracks(Enter(t, addr, t.nextID + 1)) && t.nextID + 1 !in t.issued
  {
    var t' := Enter(t, addr, t.nextID + 1);
    assert forall id :: id in t'.conns ==> id == t'.nextID || (id in t.conns && t.conns[id] != addr);
    assert Inverse(t');
  }

  /** The IDs handed out so far stay with their addresses. */
  ghost predicate Extends(t: Table, t': Table) {
    forall id :: id in t.issued ==> id in t'.issued && t'.issued[id] == t.issued[id]
  }

  lemma WithoutDeadTracks(t: Table, addr: Addr)
    requires Tracks(t)
    ensures var u := WithoutDead(t, addr);
            Tracks(u) && u.issued == t.issued && u.nextID == t.nextID && (addr in u.byAddr ==> u == t && t.byAddr[addr] !in t.dead)
  {
    if addr in t.byAddr && t.byAddr[addr] in t.dead {
      ForgetTracks(t, t.byAddr[addr]);
    }
  }

  lemma ConnectTracks(t: Table, addr: Addr)
    requires Tracks(t) && t.nextID < TWO_32 - 1
    ensures Tracks(OnConnect(t, addr)) && Extends(t, OnConnect(t, addr))
  {
    var u := WithoutDead(t, addr);
    WithoutDeadTracks(t, addr);
    if !t.closing && addr !in u.byAddr {
      EnterTracks(u, addr);
      assert AnswerTo(t, addr) == u.nextID + 1;
      assert OnConnect(t, addr) == Enter(u, addr, u.nextID + 1);
    }
  }

  lemma StepTracks(t: Table, e: Event, t': Table)
    requires Tracks(t) && Next(t, e, t')
    ensures Tracks(t') && Extends(t, t')
  {
    match e
    case Connect(addr) => ConnectTracks(t, addr);
    case Packet(id, _) => if t' != t { ForgetTracks(t, id); }
    case Sweep(id) => ForgetTracks(t, id);
    case Dies(_) =>
    case Shutdown =>
  }

  ghost predicate TableRun(tables: seq<Table>, events: seq<Event>) {
    && |tables| == |events| + 1 && tables[0] == EMPTY
    && forall i :: 0 <= i < |events| ==> Next(tables[i], events[i], tables[i + 1])
  }

  lemma {:induction false} RunTracks(tables: seq<Table>, events: seq<Event>, i: nat)
    requires TableRun(tables, events) && i < |tables|
    ensures Tracks(tables[i])
  {
    if i > 0 {
      RunTracks(tables, events, i - 1);
      StepTracks(tables[i - 1], events[i - 1], tables[i]);
    }
  }

  lemma RunExtends(tables: seq<Table>, events: seq<Event>, i: nat)
    requires TableRun(tables, events) && i < |events|
    ensures Extends(tables[i], tables[i + 1])
  {
    RunTracks(tables, events, i);
    StepTracks(tables[i], events[i], tables[i + 1]);
  }

  lemma {:induction false} IssuedStays(tables: seq<Table>, events: seq<Event>, i: nat, j: nat, id: u32)
    requires TableRun(tables, events) && i <= j < |tables| && id in tables[i].issued
    ensures id in tables[j].issued && tables[j].issued[id] == tables[i].issued[id]
  {
    if i < j {
      IssuedStays(tables, events, i, j - 1, id);
      RunExtends(tables, events, j - 1);
    }
  }

  /** A known address always finds a table entry, so testing whether it is dead is safe. */
  lemma KnownAddressHasEntry(tables: seq<Table>, events: seq<Event>, i: nat, addr: Addr)
    requires TableRun(tables, events) && i < |tables| && addr in tables[i].byAddr
    ensures tables[i].byAddr[addr] in tables[i].conns && tables[i].conns[tables[i].byAddr[addr]] == addr
  {
    RunTracks(tables, events, i);
  }

  /** A retried Connect to a live connection gets the same ID back, however much later it comes. */
  lemma RetryGetsSameID(tables: seq<Table>, events: seq<Event>, i: nat, j: nat, id: u32)
    requires TableRun(tables, events) && i <= j < |tables|
    requires id in tables[i].issued && id !in tables[j].dead
    ensures var addr := tables[i].issued[id]; addr in tables[j].byAddr && tables[j].byAddr[addr] == id && id in tables[j].conns
    ensures AnswerTo(tables[j], tables[i].issued[id]) == id
    ensures !tables[j].closing ==> OnConnect(tables[j], tables[i].issued[id]) == tables[j]
  {
    IssuedStays(tables, events, i, j, id);
    RunTracks(tables, events, j);
  }

  /**
   A Connect that is not refused ends with exactly one entry for its address: the
   live one, untouched, or a new one with the next number, never issued before.
   Nobody else's entry changes.
   */
  lemma ConnectIsServed(tables: seq<Table>, events: seq<Event>, i: nat, addr: Addr)
    requires TableRun(tables, events) && i < |events| && events[i] == Connect(addr) && !tables[i].closing
    ensures var t, t' := tables[i], tables[i + 1];
            && addr in t'.byAddr && t'.byAddr[addr] in t'.conns && t'.conns[t'.byAddr[addr]] == addr && t'.byAddr[addr] == AnswerTo(t, addr)
            && (addr in t.byAddr && t.byAddr[addr] !in t.dead ==> t' == t)
            && (addr !in t.byAddr || t.byAddr[addr] in t.dead ==>
                  && t'.byAddr[addr] == t'.nextID == t.nextID + 1 && t'.nextID !in t.issued
                  && t'.issued == t.issued[t'.nextID := addr])
            && (forall id :: id in t.conns && t.conns[id] != addr ==> id in t'.conns && t'.conns[id] == t.conns[id])
            && (forall id :: id in t'.conns && t'.conns[id] != addr ==> id in t.conns)
  {
    RunTracks(tables, events, i);
    assert Next(tables[i], events[i], tables[i + 1]);
    hide TableRun;
    ServeOne(tables[i], addr);
  }

  lemma ServeOne(t: Table, addr: Addr)
    requires Tracks(t) && t.nextID < TWO_32 - 1 && !t.closing
    ensures var t' := OnConnect(t, addr);
            && addr in t'.byAddr && t'.byAddr[addr] in t'.conns && t'.conns[t'.byAddr[addr]] == addr && t'.byAddr[addr] == AnswerTo(t, addr)
            && (addr in t.byAddr && t.byAddr[addr] !in t.dead ==> t' == t)
            && (addr !in t.byAddr || t.byAddr[addr] in t.dead ==>
                  && t'.byAddr[addr] == t'.nextID == t.nextID + 1 && t'.nextID !in t.issued
                  && t'.issued == t.issued[t'.nextID := addr])
            && (forall id :: id in t.conns && t.conns[id] != addr ==> id in t'.conns && t'.conns[id] == t.conns[id])
            && (forall id :: id in t'.conns && t'.conns[id] != addr ==> id in t.conns)
  {
    WithoutDeadTracks(t, addr);
  }

  /** Only the peer an ID was issued to can make its entry go, and only once the connection is over. */
  lemma PacketsLeaveOthersAlone(tables: seq<Table>, events: seq<Event>, i: nat, id: u32, addr: Addr)
    requires TableRun(tables, events) && i < |events| && events[i] == Packet(id, addr) && tables[i + 1] != tables[i]
    ensures var t, t' := tables[i], tables[i + 1];
            && id in t.conns && t.conns[id] == addr && id in t.issued && t.issued[id] == addr && id in t.dead
            && t'.conns == t.conns - {id} && t'.byAddr == t.byAddr - {addr} && t'.issued == t.issued && t'.nextID == t.nextID
  {
    RunTracks(tables, events, i);
    assert Next(tables[i], events[i], tables[i + 1]);
  }

  /** A server that is shutting down lets nobody in. */
  lemma ShutdownRefuses(tables: seq<Table>, events: seq<Event>, i: nat, addr: Addr)
    requires TableRun(tables, events) && i < |events| && events[i] == Connect(addr) && tables[i].closing
    ensures tables[i + 1] == tables[i]
  {
    assert Next(tables[i], events[i], tables[i + 1]);
  }

  /** An ID is handed out once: two Connects that made connections made different ones. */
  lemma IDsAreNeverReused(tables: seq<Table>, events: seq<Event>, i: nat, j: nat, addr: Addr, other: Addr)
    requires TableRun(tables, events) && i < j < |events| && events[i] == Connect(addr) && events[j] == Connect(other)
    requires !tables[i].closing && !tables[j].closing
    requires other !in tables[j].byAddr || tables[j].byAddr[other] in tables[j].dead
    ensures addr in tables[i + 1].byAddr && other in tables[j + 1].byAddr && tables[j + 1].byAddr[other] != tables[i + 1].byAddr[addr]
  {
    ConnectIsServed(tables, events, i, addr);
    ConnectIsServed(tables, events, j, other);
    RunTracks(tables, events, i + 1);
    IssuedStays(tables, events, i + 1, j, tables[i + 1].byAddr[addr]);
  }

  /** The read loop's own code. */
  class ReadLoop {
    var conns: map<u32, Addr>
    var byAddr: map<Addr, u32>
    var nextID: u32
    var closing: bool
    ghost var issued: map<u32, Addr>

    ghost function View(dead: set<u32>): Table
      reads this
    {
      Table(conns, byAddr, dead, nextID, closing, issued)
    }

    constructor ()
      ensures View({}) == EMPTY
    {
      conns, byAddr, nextID, closing, issued := map[], map[], 0, false, map[];
    }

    method ForgetConn(id: u32, ghost dead: set<u32>)
      requires id in conns
      modifies this`conns, this`byAddr
      ensures View(dead) == Forget(old(View(dead)), id)
    {
      var key := conns[id];
      conns := conns - {id};
      if (if key in byAddr then byAddr[key] else 0) == id {
        byAddr := byAddr - {key};
      }
    }

    /** The next number is the new connection's ID. */
    method EnterConn(addr: Addr, ghost dead: set<u32>) returns (id: u32)
      modifies this
      ensures View(dead) == Enter(old(View(dead)), addr, (old(nextID) + 1) % TWO_32)
      ensures id == nextID == (old(nextID) + 1) % TWO_32 && conns == old(conns)[id := addr] && byAddr == old(byAddr)[addr := id]
    {
      nextID := (nextID + 1) % TWO_32;
      id := nextID;
      conns, byAddr := conns[id := addr], byAddr[addr := id];
      issued := issued[id := addr];
    }

    /** A Connect packet; the answer is the ConnAck's ID. */
    method HandleConnect(addr: Addr, dead: set<u32>) returns (answer: Option<u32>)
      requires Tracks(View(dead))
      modifies this
      ensures View(dead) == OnConnect(old(View(dead)), addr)
      ensures answer == if old(closing) then None else Some(AnswerTo(old(View(dead)), addr))
      ensures old(closing) ==> conns == old(conns) && byAddr == old(byAddr) && nextID == old(nextID)
      ensures !old(closing) ==> answer.Some? && answer.value in conns && conns[answer.value] == addr
                                && addr in byAddr && byAddr[addr] == answer.value
      ensures !old(closing) && addr in old(byAddr) && old(byAddr)[addr] !in dead ==>
                answer == Some(old(byAddr)[addr]) && conns == old(conns) && byAddr == old(byAddr) && nextID == old(nextID)
      ensures !old(closing) && (addr !in old(byAddr) || old(byAddr)[addr] in dead) && old(nextID) < TWO_32 - 1 ==>
                answer == Some(old(nextID) + 1) && nextID == old(nextID) + 1 && answer.value !in old(issued) && answer.value !in old(conns)
    {
      if closing {
        return None;
      }
      var known := addr in byAddr;
      var id := if known then byAddr[addr] else 0;
      if known && id in dead {
        ForgetTracks(View(dead), id);
        ForgetConn(id, dead);
        known := false;
      }
      if !known {
        id := EnterConn(addr, dead);
      }
      answer := Some(id);
    }

    /**
     Any other packet. A connection that has ended may still have room in its
     inbox; `inbox` is which of the two ready cases is taken.
     */
    method HandlePacket(id: u32, addr: Addr, dead: set<u32>, inbox: bool) returns (handed: bool)
      modifies this`conns, this`byAddr
      ensures handed <==> id in old(conns) && old(conns)[id] == addr && (id !in dead || inbox)
      ensures handed || id !in old(conns) || old(conns)[id] != addr ==> conns == old(conns) && byAddr == old(byAddr)
      ensures !handed && id in old(conns) && old(conns)[id] == addr ==> View(dead) == Forget(old(View(dead)), id) && id !in conns
    {
      handed := false;
      if id in conns && conns[id] == addr {
        if id !in dead || inbox {
          handed := true;
        } else {
          ForgetConn(id, dead);
        }
      }
    }

    /** The sweep forgets exactly the connections that have ended. */
    method SweepDead(dead: set<u32>)
      requires Tracks(View(dead))
      modifies this`conns, this`byAddr
      ensures Tracks(View(dead))
      ensures conns == map id | id in old(conns) && id !in dead :: old(conns)[id]
    {
      var ids := conns.Keys;
      while ids != {}
        invariant Tracks(View(dead)) && ids <= conns.Keys <= old(conns).Keys
        invariant forall id :: id in conns ==> conns[id] == old(conns)[id] && (id in ids || id !in dead)
        invariant forall id :: id in old(conns) && id !in dead ==> id in conns
        decreases ids
      {
        var id :| id in ids;
        ids := ids - {id};
        if id in dead {
          ForgetTracks(View(dead), id);
          ForgetConn(id, dead);
        }
      }
    }
  }
}
