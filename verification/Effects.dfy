/** What a whole sink callback, with nothing in between, leaves behind, field by field. */
module Effects {
  import opened RakTypes
  import opened SyncMailbox
  import opened PeerState
  import opened Sequential

  lemma SamePops<T>(m: map<int, T>, k: int)
    requires k !in m
    ensures m - {k} == m
  {
  }

  /** A new open connection with an empty mailbox, in the table and at the end of the accept queue. */
  lemma IncomingEffect(sh: Shared, a: Address, g: Guid)
    requires TableIds(sh)
    ensures var n := |sh.conns|;
            Deliver(sh, IncomingConnection(a, g)) ==
            sh.(conns := sh.conns + [Conn(g, false, Box([], None, sh.maxQueue), None, |sh.routed|, [], [], false, 0)],
                connections := sh.connections[g := n],
                acceptQueue := sh.acceptQueue + [Some(n)], arrived := sh.arrived + [n])
  {
    DeliverIncoming(sh, a, g);
  }

  /** The pending of the address gets a new open connection with the packet's guid, and is signalled. */
  lemma SucceededEffect(sh: Shared, k: Address, g: Guid)
    requires TableIds(sh)
    ensures var n := |sh.conns|;
            Deliver(sh, ConnectSucceeded(k, g)) ==
            if k !in sh.pendingConnects then sh
            else
              var p := sh.pendingConnects[k];
              sh.(conns := sh.conns
                    + [Conn(g, false, Box([], None, sh.maxQueue), Some(p), |sh.routed|, [], [], false, 0)],
                  connections := sh.connections[g := n],
                  pendingConnects := sh.pendingConnects - {k},
                  pends := sh.pends[p := sh.pends[p].(connection := Some(n), event := true)])
  {
    DeliverSucceeded(sh, k, g);
    if k !in sh.pendingConnects {
      SamePops(sh.pendingConnects, k);
    }
  }

  /** The pending of the address gets the packet's own failure as its reason, and is signalled. */
  lemma FailedEffect(sh: Shared, k: Address, f: ConnectFailure)
    requires TableIds(sh)
    ensures Deliver(sh, ConnectFailed(k, f)) ==
            if k !in sh.pendingConnects then sh
            else
              var p := sh.pendingConnects[k];
              sh.(pendingConnects := sh.pendingConnects - {k},
                  pends := sh.pends[p := sh.pends[p].(reason := Some(f), event := true)])
  {
    DeliverFailed(sh, k, f);
    if k !in sh.pendingConnects {
      SamePops(sh.pendingConnects, k);
    }
  }

  /** The message is queued behind the others; or, with the queue at its limit, it is dropped, and the
      connection leaves the table and is closed for overflow, unless it has a reason already. */
  lemma MessageEffect(sh: Shared, g: Guid, d: Bytes)
    requires TableIds(sh)
    ensures var routed := sh.routed + [(g, d)];
            Deliver(sh, Message(g, d)) ==
            if g !in sh.connections then sh.(routed := routed)
            else
              var c := sh.connections[g];
              var x := sh.conns[c].(offered := sh.conns[c].offered + [d]);
              if x.box.maxsize.None? || |x.box.items| < x.box.maxsize.value then
                sh.(routed := routed,
                    conns := sh.conns[c := x.(box := x.box.(items := x.box.items + [d]),
                                              late := if x.box.exc.Some? then x.late + 1 else x.late)])
              else
                sh.(routed := routed, connections := sh.connections - {x.guid},
                    conns := sh.conns[c := x.(refused := true, closed := true,
                                              box := if x.box.exc.Some? then x.box
                                                     else x.box.(exc := Some(QueueOverflow)))])
  {
    DeliverMessage(sh, g, d);
  }

  /** The connection of the guid leaves the table and is closed, its queued messages staying. */
  lemma DisconnectedEffect(sh: Shared, g: Guid, graceful: bool)
    requires TableIds(sh)
    ensures Deliver(sh, Disconnected(g, graceful)) ==
            if g !in sh.connections then sh
            else
              var c := sh.connections[g];
              var x := sh.conns[c];
              sh.(connections := sh.connections - {g},
                  conns := sh.conns[c := x.(closed := true,
                                            box := if x.box.exc.Some? then x.box
                                                   else if graceful then x.box.(exc := Some(RemoteClose))
                                                   else x.box.(exc := Some(ConnectionLost)))])
  {
    DeliverDisconnected(sh, g, graceful);
    if g !in sh.connections {
      SamePops(sh.connections, g);
    }
  }

  /** The pending ping of the address gets the packet's guid and data, and is signalled. */
  lemma PongEffect(sh: Shared, k: Address, g: Guid, d: Bytes)
    requires TableIds(sh)
    ensures Deliver(sh, PongReceived(k, g, d)) ==
            if k !in sh.pendingPings then sh
            else
              var q := sh.pendingPings[k];
              sh.(pendingPings := sh.pendingPings - {k},
                  pings := sh.pings[q := sh.pings[q].(pong := Some(Pong(k, g, d)), event := true)])
  {
    DeliverPong(sh, k, g, d);
    if k !in sh.pendingPings {
      SamePops(sh.pendingPings, k);
    }
  }
}
