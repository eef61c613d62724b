/**
 * The gossip of chat lobbies: what one peer does with a lobby object, as
 * functions on the whole state of its lobby service.
 */
module LobbySpec {
  type Peer = nat
  type LobbyId = nat
  type MsgId = nat
  type GxsId = nat

  const CHALLENGE_MAX_COUNT := 20
  const CHALLENGE_MIN_DELAY := 15
  const MAX_KEEP_MSG_RECORD := 1200
  const MAX_KEEP_INACTIVE_NICKNAME := 180
  const MAX_DELAY_BETWEEN_KEEP_ALIVE := 120
  const MAX_KEEP_PUBLIC_LOBBY_RECORD := 60
  const FLOOD_PERIOD := 10

  /** Seconds before the end of its record at which a message is too old. */
  const AGE_MARGIN := 100
  /** Seconds by which a message may come from the future. */
  const FUTURE_MARGIN := 600

  datatype Kind = Chat | PeerLeft | PeerJoined | KeepAlive | OtherEvent

  datatype Item = Item(id: MsgId, lobby: LobbyId, key: GxsId, sendTime: int, kind: Kind)

  datatype Entry = Entry(
    msgCache: map<MsgId, int>, friends: set<Peer>, gxsIds: map<GxsId, int>,
    lastActivity: int, challengeCount: int, lastChallenge: int, lastKeepAlive: int)

  datatype Record = Record(total: nat, lastReport: int)

  datatype Service = Service(
    own: Peer, lobbies: map<LobbyId, Entry>, visible: map<LobbyId, Record>,
    counts: map<(Peer, LobbyId), seq<int>>)

  /** The new state, whether the object is used, and who gets a copy. */
  datatype Outcome = Outcome(service: Service, accepted: bool, targets: set<Peer>)

  // ------------------------------------------------------------- flood check

  /** The limit is computed from a product in 32-bit unsigned arithmetic. */
  function Limit(lobbyCount: nat): real {
    var cnt := (4 * lobbyCount % 0x1_0000_0000) as real / 120.0 * 10.0;
    if 10.0 < cnt then cnt else 10.0
  }

  /** The better known lobby list wins over the own one; -1 if there is none. */
  function LobbyCount(s: Service, lobby: LobbyId): int {
    if lobby in s.visible then s.visible[lobby].total
    else if lobby in s.lobbies then |s.lobbies[lobby].gxsIds|
    else -1
  }

  /** The list after the stale times at its front are gone. */
  function Recent(times: seq<int>, now: int): seq<int> {
    if times != [] && times[0] + FLOOD_PERIOD < now then Recent(times[1..], now) else times
  }

  function Times(s: Service, peer: Peer, lobby: LobbyId): seq<int> {
    if (peer, lobby) in s.counts then s.counts[(peer, lobby)] else []
  }

  function FloodCheck(s: Service, lobby: LobbyId, peer: Peer, now: int): (Service, bool) {
    var count := LobbyCount(s, lobby);
    if count < 0 then (s, false)
    else
      var lst := Recent(Times(s, peer, lobby), now);
      if |lst| as real > Limit(count) then (s.(counts := s.counts[(peer, lobby) := lst]), false)
      else (s.(counts := s.counts[(peer, lobby) := lst + [now]]), true)
  }

  // ------------------------------------------------------------------ bounce

  /** The entry after `peer` has shown the object to this node. */
  function Seen(e: Entry, own: Peer, item: Item, peer: Peer, now: int): Entry {
    e.(friends := if peer != own then e.friends + {peer} else e.friends,
       gxsIds := e.gxsIds[item.key := now],
       msgCache := e.msgCache[item.id := now])
  }

  function Bounce(s: Service, item: Item, peer: Peer, connected: set<Peer>, now: int): Outcome {
    if item.lobby !in s.lobbies then Outcome(s, false, {})
    else
      var e := s.lobbies[item.lobby];
      var e1 := Seen(e, s.own, item, peer, now);
      if item.id in e.msgCache then Outcome(s.(lobbies := s.lobbies[item.lobby := e1]), false, {})
      else
        var e2 := e1.(lastActivity := now);
        var (s1, ok) := FloodCheck(s.(lobbies := s.lobbies[item.lobby := e2]), item.lobby, peer, now);
        if !ok then Outcome(s1, false, {})
        else Outcome(s1.(lobbies := s1.lobbies[item.lobby := e2.(challengeCount := e2.challengeCount + 1)]), true,
                     (e2.friends - {peer}) * connected)
  }

  /** Neither too old for the cache nor too far in the future. */
  predicate InWindow(sendTime: int, now: int) {
    now + AGE_MARGIN <= sendTime + MAX_KEEP_MSG_RECORD && sendTime <= now + FUTURE_MARGIN
  }

  /** What an event that was accepted does to the list of nicknames. */
  function Note(s: Service, item: Item, now: int): Service {
    if item.lobby !in s.lobbies then s
    else
      var e := s.lobbies[item.lobby];
      match item.kind
      case PeerLeft => s.(lobbies := s.lobbies[item.lobby := e.(gxsIds := e.gxsIds - {item.key})])
      case PeerJoined => s.(lobbies := s.lobbies[item.lobby := e.(gxsIds := e.gxsIds[item.key := now])])
      case KeepAlive => s.(lobbies := s.lobbies[item.lobby := e.(gxsIds := e.gxsIds[item.key := now])])
      case Chat => s
      case OtherEvent => s
  }

  /**
   * An object from a friend.  `checks` stands for reputation, signature and
   * identity, which are decided elsewhere.
   */
  function Handle(s: Service, item: Item, peer: Peer, connected: set<Peer>, checks: bool, now: int): Outcome {
    if !InWindow(item.sendTime, now) || !checks || item.lobby !in s.lobbies then Outcome(s, false, {})
    else
      var o := Bounce(s, item, peer, connected, now);
      if o.accepted then o.(service := Note(o.service, item, now)) else o
  }

  // ---------------------------------------------------------------- cleaning

  /** What is kept of a table of times. */
  function Live<K>(table: map<K, int>, keep: int, now: int): map<K, int> {
    map k | k in table && table[k] + keep >= now :: table[k]
  }

  predicate KeepAliveDue(e: Entry, now: int) {
    e.lastKeepAlive + MAX_DELAY_BETWEEN_KEEP_ALIVE < now
  }

  predicate ChallengeDue(e: Entry, now: int) {
    e.challengeCount + 1 > CHALLENGE_MAX_COUNT && now > e.lastChallenge + CHALLENGE_MIN_DELAY
  }

  function CleanEntry(e: Entry, now: int): Entry {
    e.(msgCache := Live(e.msgCache, MAX_KEEP_MSG_RECORD, now),
       gxsIds := Live(e.gxsIds, MAX_KEEP_INACTIVE_NICKNAME, now),
       lastKeepAlive := if KeepAliveDue(e, now) then now else e.lastKeepAlive,
       challengeCount := if ChallengeDue(e, now) then 0 else e.challengeCount + 1,
       lastChallenge := if ChallengeDue(e, now) then now else e.lastChallenge)
  }

  function Clean(s: Service, now: int): Service {
    s.(lobbies := map l | l in s.lobbies :: CleanEntry(s.lobbies[l], now),
       visible := map l | l in s.visible
                         && (s.visible[l].lastReport + MAX_KEEP_PUBLIC_LOBBY_RECORD >= now || l in s.lobbies)
                    :: s.visible[l])
  }
}
