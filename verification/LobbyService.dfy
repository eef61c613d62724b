/** The lobby service as the program updates it in place, proved against LobbySpec. */
module LobbyService {
  import opened LobbySpec

  /** The erase loop over a table of times. */
  method Expire<K(==)>(table: map<K, int>, keep: int, now: int) returns (left: map<K, int>, changed: bool)
    ensures left == Live(table, keep, now)
    ensures changed <==> left != table
  {
    left, changed := table, false;
    var todo := table.Keys;
    while todo != {}
      invariant todo <= table.Keys
      invariant forall k :: k in left <==> k in table && (k in todo || table[k] + keep >= now)
      invariant forall k :: k in left ==> left[k] == table[k]
      invariant changed <==> exists k :: k in table && k !in left
    {
      var k :| k in todo;
      if table[k] + keep < now {
        left := left - {k};
        changed := true;
      }
      todo := todo - {k};
    }
  }

  class ChatService {
    const own: Peer
    var lobbies: map<LobbyId, Entry>
    var visible: map<LobbyId, Record>
    var messageCounts: map<(Peer, LobbyId), seq<int>>

    constructor (own: Peer)
      ensures State() == Service(own, map[], map[], map[])
    {
      this.own := own;
      lobbies, visible, messageCounts := map[], map[], map[];
    }

    function State(): Service
      reads this
    {
      Service(own, lobbies, visible, messageCounts)
    }

    /** Counts the objects of a peer in a sliding window. */
    method BouncingObjectCheck(lobby: LobbyId, peer: Peer, now: int) returns (ok: bool)
      modifies this`messageCounts
      ensures (State(), ok) == FloodCheck(old(State()), lobby, peer, now)
    {
      var lobbyCount := 0;
      if lobby in visible {
        lobbyCount := visible[lobby].total;
      } else if lobby in lobbies {
        lobbyCount := |lobbies[lobby].gxsIds|;
      } else {
        return false;
      }
      var lst := if (peer, lobby) in messageCounts then messageCounts[(peer, lobby)] else [];
      while lst != [] && lst[0] + FLOOD_PERIOD < now
        invariant Recent(lst, now) == Recent(Times(old(State()), peer, lobby), now)
        decreases |lst|
      {
        lst := lst[1..];
      }
      ok := !(|lst| as real > Limit(lobbyCount));
      if ok {
        lst := lst + [now];
      }
      messageCounts := messageCounts[(peer, lobby) := lst];
    }

    /** Forwards a new object to the participating friends; `sent` lists who gets a copy. */
    method BounceLobbyObject(item: Item, peer: Peer, connected: set<Peer>, now: int)
      returns (accepted: bool, sent: seq<Peer>)
      modifies this
      ensures var o := Bounce(old(State()), item, peer, connected, now);
              State() == o.service && accepted == o.accepted && multiset(sent) == multiset(o.targets)
    {
      accepted, sent := false, [];
      if item.lobby in lobbies {
        var lobby := lobbies[item.lobby];
        if peer != own {
          lobby := lobby.(friends := lobby.friends + {peer});
        }
        lobby := lobby.(gxsIds := lobby.gxsIds[item.key := now]);
        var known := item.id in lobby.msgCache;
        lobby := lobby.(msgCache := lobby.msgCache[item.id := now]);
        if !known {
          lobby := lobby.(lastActivity := now);
        }
        lobbies := lobbies[item.lobby := lobby];
        if !known {
          accepted := BouncingObjectCheck(item.lobby, peer, now);
          if accepted {
            sent := Forward(lobby.friends, peer, connected);
            lobbies := lobbies[item.lobby := lobby.(challengeCount := lobby.challengeCount + 1)];
          }
        }
      }
    }

    /** The loop over the participating friends. */
    static method Forward(friends: set<Peer>, peer: Peer, connected: set<Peer>) returns (sent: seq<Peer>)
      ensures multiset(sent) == multiset((friends - {peer}) * connected)
    {
      sent := [];
      var todo := friends;
      ghost var done: set<Peer> := {};
      while todo != {}
        invariant todo <= friends
        invariant done == (friends - todo - {peer}) * connected
        invariant multiset(sent) == multiset(done)
      {
        var f :| f in todo;
        todo := todo - {f};
        if f != peer && f in connected {
          assert f !in done;
          sent := sent + [f];
          done := done + {f};
        }
      }
      assert done == (friends - {peer}) * connected;
    }

    /** A chat message from a friend: `used` tells whether it is shown. */
    method HandleRecvLobbyMsgItem(item: Item, peer: Peer, connected: set<Peer>, checks: bool, now: int)
      returns (used: bool, sent: seq<Peer>)
      requires item.kind == Chat
      modifies this
      ensures var o := Handle(old(State()), item, peer, connected, checks, now);
              State() == o.service && used == o.accepted && multiset(sent) == multiset(o.targets)
    {
      used, sent := false, [];
      if now + AGE_MARGIN > item.sendTime + MAX_KEEP_MSG_RECORD {
        return;
      }
      if now + FUTURE_MARGIN < item.sendTime {
        return;
      }
      if !checks {
        return;
      }
      if item.lobby !in lobbies {
        return;
      }
      used, sent := BounceLobbyObject(item, peer, connected, now);
    }

    /** An event from a friend; the order of the checks differs from the one for messages. */
    method HandleRecvLobbyEventItem(item: Item, peer: Peer, connected: set<Peer>, checks: bool, now: int)
      returns (used: bool, sent: seq<Peer>)
      requires item.kind != Chat
      modifies this
      ensures var o := Handle(old(State()), item, peer, connected, checks, now);
              State() == o.service && used == o.accepted && multiset(sent) == multiset(o.targets)
    {
      used, sent := false, [];
      if item.lobby !in lobbies {
        return;
      }
      if !checks {
        return;
      }
      if now + AGE_MARGIN > item.sendTime + MAX_KEEP_MSG_RECORD {
        return;
      }
      if now + FUTURE_MARGIN < item.sendTime {
        return;
      }
      used, sent := BounceLobbyObject(item, peer, connected, now);
      if used {
        NoteEvent(item, now);
      }
    }

    /** Keeps the nicknames in step with an event. */
    method NoteEvent(item: Item, now: int)
      modifies this`lobbies
      ensures State() == Note(old(State()), item, now)
    {
      if item.lobby in lobbies {
        var lobby := lobbies[item.lobby];
        match item.kind {
          case PeerLeft =>
            lobbies := lobbies[item.lobby := lobby.(gxsIds := lobby.gxsIds - {item.key})];
          case PeerJoined =>
            lobbies := lobbies[item.lobby := lobby.(gxsIds := lobby.gxsIds[item.key := now])];
          case KeepAlive =>
            lobbies := lobbies[item.lobby := lobby.(gxsIds := lobby.gxsIds[item.key := now])];
          case Chat =>
          case OtherEvent =>
        }
      }
    }

    /** The periodic cleaning; returns the lobbies that need a packet or a redraw. */
    method CleanLobbyCaches(now: int)
      returns (keepAlive: set<LobbyId>, changed: set<LobbyId>, challenge: set<LobbyId>)
      modifies this`lobbies, this`visible
      ensures State() == Clean(old(State()), now)
      ensures keepAlive == set l | l in old(lobbies) && KeepAliveDue(old(lobbies)[l], now)
      ensures challenge == set l | l in old(lobbies) && ChallengeDue(old(lobbies)[l], now)
      ensures changed == set l | l in old(lobbies) && old(lobbies)[l].gxsIds != CleanEntry(old(lobbies)[l], now).gxsIds
    {
      keepAlive, changed, challenge := CleanLobbies(now);
      assert lobbies.Keys == old(lobbies).Keys;
      CleanVisible(now);
      assert visible == Clean(old(State()), now).visible;
    }

    /** The loop over the lobbies this peer is in. */
    method CleanLobbies(now: int)
      returns (keepAlive: set<LobbyId>, changed: set<LobbyId>, challenge: set<LobbyId>)
      modifies this`lobbies
      ensures lobbies == map l | l in old(lobbies) :: CleanEntry(old(lobbies)[l], now)
      ensures keepAlive == set l | l in old(lobbies) && KeepAliveDue(old(lobbies)[l], now)
      ensures challenge == set l | l in old(lobbies) && ChallengeDue(old(lobbies)[l], now)
      ensures changed == set l | l in old(lobbies) && old(lobbies)[l].gxsIds != CleanEntry(old(lobbies)[l], now).gxsIds
    {
      keepAlive, changed, challenge := {}, {}, {};
      ghost var was := lobbies;
      var todo := lobbies.Keys;
      while todo != {}
        invariant todo <= was.Keys == lobbies.Keys
        invariant forall l :: l in was ==> lobbies[l] == if l in todo then was[l] else CleanEntry(was[l], now)
        invariant forall l :: l in keepAlive <==> (l in was && l !in todo && KeepAliveDue(was[l], now))
        invariant forall l :: l in challenge <==> (l in was && l !in todo && ChallengeDue(was[l], now))
        invariant forall l ::
          l in changed <==> (l in was && l !in todo && was[l].gxsIds != CleanEntry(was[l], now).gxsIds)
      {
        var l :| l in todo;
        todo := todo - {l};
        var e, gone, silent, due := CleanLobby(lobbies[l], now);
        lobbies := lobbies[l := e];
        changed := if gone then changed + {l} else changed;
        keepAlive := if silent then keepAlive + {l} else keepAlive;
        challenge := if due then challenge + {l} else challenge;
      }
    }

    static method CleanLobby(entry: Entry, now: int) returns (e: Entry, gone: bool, silent: bool, due: bool)
      ensures e == CleanEntry(entry, now)
      ensures gone <==> e.gxsIds != entry.gxsIds
      ensures silent == KeepAliveDue(entry, now) && due == ChallengeDue(entry, now)
    {
      var cache, _ := Expire(entry.msgCache, MAX_KEEP_MSG_RECORD, now);
      var ids, changed := Expire(entry.gxsIds, MAX_KEEP_INACTIVE_NICKNAME, now);
      e, gone := entry.(msgCache := cache, gxsIds := ids), changed;
      silent := e.lastKeepAlive + MAX_DELAY_BETWEEN_KEEP_ALIVE < now;
      if silent {
        e := e.(lastKeepAlive := now);
      }
      e := e.(challengeCount := e.challengeCount + 1);
      due := e.challengeCount > CHALLENGE_MAX_COUNT && now > e.lastChallenge + CHALLENGE_MIN_DELAY;
      if due {
        e := e.(challengeCount := 0, lastChallenge := now);
      }
    }

    /** Drops the public lobbies nobody has reported lately, unless this peer is in them. */
    method CleanVisible(now: int)
      modifies this`visible
      ensures visible == map l | l in old(visible)
                && (old(visible)[l].lastReport + MAX_KEEP_PUBLIC_LOBBY_RECORD >= now || l in lobbies) :: old(visible)[l]
    {
      ghost var was := visible;
      var todo := visible.Keys;
      while todo != {}
        invariant todo <= was.Keys
        invariant forall l :: l in visible <==>
                    (l in was && (l in todo || was[l].lastReport + MAX_KEEP_PUBLIC_LOBBY_RECORD >= now || l in lobbies))
        invariant forall l :: l in visible ==> visible[l] == was[l]
      {
        var l :| l in todo;
        todo := todo - {l};
        if visible[l].lastReport + MAX_KEEP_PUBLIC_LOBBY_RECORD < now && l !in lobbies {
          visible := visible - {l};
        }
      }
    }
  }
}
