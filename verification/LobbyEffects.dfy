/**
 * What one lobby object and one cleaning do to a lobby, field by field, and when
 * an object is used.  Periods are written as the numbers they have in the program.
 */
module LobbyEffects {
  import opened LobbySpec

  // -------------------------------------------------------------- when it is used

  /** Not older than 1100 seconds and not more than ten minutes ahead. */
  predicate InTime(item: Item, now: int) {
    now - 1100 <= item.sendTime <= now + 600
  }

  /** How many identities the lobby is taken to have when the object has come in. */
  function Members(s: Service, item: Item): nat
    requires item.lobby in s.lobbies
  {
    if item.lobby in s.visible then s.visible[item.lobby].total
    else |s.lobbies[item.lobby].gxsIds.Keys + {item.key}|
  }

  /** Too much for ten seconds: more than ten objects, and more than four in two minutes for each identity. */
  predicate Floods(objects: nat, members: nat) {
    objects > 10 && 12 * objects > 4 * members % 0x1_0000_0000
  }

  lemma LimitExactly(objects: nat, members: nat)
    ensures objects as real > Limit(members) <==> Floods(objects, members)
  {
    var x := 4 * members % 0x1_0000_0000;
    assert x as real / 120.0 * 10.0 == x as real / 12.0;
    assert objects as real > x as real / 12.0 <==> 12 * objects > x;
  }

  /** The times of the objects of this friend in this lobby in the last ten seconds. */
  function Lately(s: Service, item: Item, peer: Peer, now: int): seq<int> {
    Recent(Times(s, peer, item.lobby), now)
  }

  /** New, and not one too many. */
  predicate Welcome(s: Service, item: Item, peer: Peer, now: int)
    requires item.lobby in s.lobbies
  {
    item.id !in s.lobbies[item.lobby].msgCache && !Floods(|Lately(s, item, peer, now)|, Members(s, item))
  }

  lemma CheckExactly(s: Service, item: Item, peer: Peer, now: int)
    requires item.lobby in s.lobbies && item.key in s.lobbies[item.lobby].gxsIds
    ensures var lately := Lately(s, item, peer, now);
            var ok := !Floods(|lately|, Members(s, item));
            FloodCheck(s, item.lobby, peer, now)
            == (s.(counts := s.counts[(peer, item.lobby) := if ok then lately + [now] else lately]), ok)
  {
    hide Limit, Floods, Recent;
    var gxs := s.lobbies[item.lobby].gxsIds;
    assert gxs.Keys + {item.key} == gxs.Keys;
    LimitExactly(|Lately(s, item, peer, now)|, Members(s, item));
  }

  // ---------------------------------------------------------------- what it does

  /** The entry of the lobby after an object that is in time and passes the checks. */
  ghost predicate Shows(e: Entry, f: Entry, own: Peer, item: Item, peer: Peer, isNew: bool, used: bool, now: int) {
    && f.msgCache == e.msgCache[item.id := now]
    && f.friends == (if peer == own then e.friends else e.friends + {peer})
    && f.gxsIds == (if used && item.kind == PeerLeft then e.gxsIds - {item.key} else e.gxsIds[item.key := now])
    && f.lastActivity == (if isNew then now else e.lastActivity)
    && f.challengeCount == (if used then e.challengeCount + 1 else e.challengeCount)
    && f.lastChallenge == e.lastChallenge && f.lastKeepAlive == e.lastKeepAlive
  }

  /** The state after an object, but for its entry in the lobby. */
  ghost predicate Changes(s: Service, t: Service, item: Item, peer: Peer, isNew: bool, used: bool, now: int)
    requires item.lobby in s.lobbies
  {
    && item.lobby in t.lobbies && t == s.(lobbies := s.lobbies[item.lobby := t.lobbies[item.lobby]], counts := t.counts)
    && t.counts == (if !isNew then s.counts
                    else s.counts[(peer, item.lobby) := Lately(s, item, peer, now) + if used then [now] else []])
  }

  lemma BouncedExactly(s: Service, item: Item, peer: Peer, connected: set<Peer>, now: int)
    requires item.lobby in s.lobbies
    ensures var o := Bounce(s, item, peer, connected, now);
            && (o.accepted <==> Welcome(s, item, peer, now))
            && Changes(s, o.service, item, peer, item.id !in s.lobbies[item.lobby].msgCache, o.accepted, now)
            && Shows(s.lobbies[item.lobby], o.service.lobbies[item.lobby], s.own, item.(kind := Chat), peer,
                     item.id !in s.lobbies[item.lobby].msgCache, o.accepted, now)
  {
    hide Floods, FloodCheck, Recent;
    var e := s.lobbies[item.lobby];
    var e2 := Seen(e, s.own, item, peer, now).(lastActivity := now);
    var s1 := s.(lobbies := s.lobbies[item.lobby := e2]);
    CheckExactly(s1, item, peer, now);
    assert Lately(s1, item, peer, now) == Lately(s, item, peer, now);
    assert e2.gxsIds.Keys + {item.key} == e.gxsIds.Keys + {item.key};
    assert Lately(s, item, peer, now) + [] == Lately(s, item, peer, now);
  }

  /**
   * An object for a lobby that this node takes part in is used exactly if it is
   * in time, passes the checks, is new and not one too many.  A known one
   * refreshes its record; only a used one counts against its sender, and only
   * the used news that somebody has left takes an identity off the list.
   */
  lemma HandledExactly(s: Service, item: Item, peer: Peer, connected: set<Peer>, checks: bool, now: int)
    requires item.lobby in s.lobbies
    ensures var o := Handle(s, item, peer, connected, checks, now);
            if !InTime(item, now) || !checks then o == Outcome(s, false, {})
            else
              var isNew := item.id !in s.lobbies[item.lobby].msgCache;
              && (o.accepted <==> Welcome(s, item, peer, now))
              && Changes(s, o.service, item, peer, isNew, o.accepted, now)
              && Shows(s.lobbies[item.lobby], o.service.lobbies[item.lobby], s.own, item, peer, isNew, o.accepted, now)
  {
    hide Bounce, Welcome;
    if InTime(item, now) && checks {
      BouncedExactly(s, item, peer, connected, now);
      var e, key := s.lobbies[item.lobby], item.key;
      assert e.gxsIds[key := now] - {key} == e.gxsIds - {key};
      assert e.gxsIds[key := now][key := now] == e.gxsIds[key := now];
    }
  }

  /** An object for another lobby changes nothing. */
  lemma NotForUs(s: Service, item: Item, peer: Peer, connected: set<Peer>, checks: bool, now: int)
    requires item.lobby !in s.lobbies
    ensures Handle(s, item, peer, connected, checks, now) == Outcome(s, false, {})
  {
  }

  // ------------------------------------------------------------------- cleaning

  /** What is left of a table is what is not older than `keep` seconds. */
  ghost predicate KeepsFor<K(!new)>(was: map<K, int>, left: map<K, int>, keep: int, now: int) {
    && (forall k :: k in left <==> k in was && now - was[k] <= keep)
    && forall k :: k in left ==> left[k] == was[k]
  }

  lemma LiveKeeps<K(!new)>(table: map<K, int>, keep: int, now: int)
    ensures KeepsFor(table, Live(table, keep, now), keep, now)
  {
  }

  /** The next challenge is due after twenty objects or cleanings, and not within fifteen seconds. */
  predicate Challenges(e: Entry, now: int) {
    e.challengeCount >= 20 && now - e.lastChallenge > 15
  }

  /**
   * Cleaning keeps messages for twenty minutes and silent identities for three;
   * it calls for a sign of life every two minutes, and for a challenge, and it
   * drops what others told of a foreign lobby a minute ago.
   */
  lemma CleanedExactly(s: Service, now: int)
    ensures var t := Clean(s, now);
            && t == s.(lobbies := t.lobbies, visible := t.visible) && t.lobbies.Keys == s.lobbies.Keys
            && (forall l :: l in s.lobbies ==> Cleaned(s.lobbies[l], t.lobbies[l], now))
            && (forall l :: l in t.visible <==>
                  l in s.visible && (now - s.visible[l].lastReport <= 60 || l in s.lobbies))
            && forall l :: l in t.visible ==> t.visible[l] == s.visible[l]
  {
    hide Cleaned, CleanEntry;
    forall l | l in s.lobbies
      ensures Cleaned(s.lobbies[l], CleanEntry(s.lobbies[l], now), now)
    {
      EntryCleaned(s.lobbies[l], now);
    }
  }

  ghost predicate Cleaned(e: Entry, f: Entry, now: int) {
    && KeepsFor(e.msgCache, f.msgCache, 1200, now) && KeepsFor(e.gxsIds, f.gxsIds, 180, now)
    && f.friends == e.friends && f.lastActivity == e.lastActivity
    && f.lastKeepAlive == (if now - e.lastKeepAlive > 120 then now else e.lastKeepAlive)
    && f.challengeCount == (if Challenges(e, now) then 0 else e.challengeCount + 1)
    && f.lastChallenge == (if Challenges(e, now) then now else e.lastChallenge)
  }

  lemma EntryCleaned(e: Entry, now: int)
    ensures Cleaned(e, CleanEntry(e, now), now)
  {
    hide Live, KeepsFor;
    LiveKeeps(e.msgCache, 1200, now);
    LiveKeeps(e.gxsIds, 180, now);
  }

  /** Who is called on to give a sign of life, and to be challenged. */
  lemma CallsExactly(e: Entry, now: int)
    ensures KeepAliveDue(e, now) <==> now - e.lastKeepAlive > 120
    ensures ChallengeDue(e, now) <==> Challenges(e, now)
  {
  }
}
