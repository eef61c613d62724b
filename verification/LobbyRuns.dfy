/** Runs of one lobby service: no message is used twice, and no peer floods a lobby. */
module LobbyRuns {
  import opened Collections
  import opened LobbySpec

  /** One thing that happens at one peer. */
  datatype Step =
    | Receive(item: Item, peer: Peer, connected: set<Peer>, checks: bool, now: int)
    | Send(item: Item, connected: set<Peer>, now: int)
    | Tidy(now: int)
    | Join(lobby: LobbyId, friends: set<Peer>, now: int)
    | Leave(lobby: LobbyId, now: int)
    | AddFriend(lobby: LobbyId, peer: Peer, now: int)
    | DropFriend(lobby: LobbyId, peer: Peer, now: int)
    | Report(lobby: LobbyId, total: nat, now: int)

  function NewEntry(friends: set<Peer>, now: int): Entry {
    Entry(map[], friends, map[], now, 0, now, now)
  }

  function WithFriends(s: Service, lobby: LobbyId, friends: set<Peer>): Service
    requires lobby in s.lobbies
  {
    s.(lobbies := s.lobbies[lobby := s.lobbies[lobby].(friends := friends)])
  }

  /** An own object is stamped with the time and gets an id that the cache does not hold. */
  predicate Sendable(s: Service, item: Item, now: int) {
    item.sendTime == now && (item.lobby in s.lobbies ==> item.id !in s.lobbies[item.lobby].msgCache)
  }

  function Do(s: Service, step: Step): Outcome {
    match step
    case Receive(item, peer, connected, checks, now) => Handle(s, item, peer, connected, checks, now)
    case Send(item, connected, now) =>
      if Sendable(s, item, now) then Bounce(s, item, s.own, connected, now) else Outcome(s, false, {})
    case Tidy(now) => Outcome(Clean(s, now), false, {})
    case Join(lobby, friends, now) =>
      Outcome(if lobby in s.lobbies then s else s.(lobbies := s.lobbies[lobby := NewEntry(friends, now)]), false, {})
    case Leave(lobby, now) => Outcome(s.(lobbies := s.lobbies - {lobby}), false, {})
    case AddFriend(lobby, peer, now) =>
      Outcome(if lobby in s.lobbies then WithFriends(s, lobby, s.lobbies[lobby].friends + {peer}) else s, false, {})
    case DropFriend(lobby, peer, now) =>
      Outcome(if lobby in s.lobbies then WithFriends(s, lobby, s.lobbies[lobby].friends - {peer}) else s, false, {})
    case Report(lobby, total, now) => Outcome(s.(visible := s.visible[lobby := Record(total, now)]), false, {})
  }

  function Run(s: Service, steps: seq<Step>): Service {
    if steps == [] then s else Do(Run(s, steps[..|steps| - 1]), steps[|steps| - 1]).service
  }

  /** The clock never goes back. */
  predicate Timed(steps: seq<Step>) {
    forall i, j :: 0 <= i < j < |steps| ==> steps[i].now <= steps[j].now
  }

  predicate IsAbout(step: Step, lobby: LobbyId, id: MsgId) {
    (step.Receive? || step.Send?) && step.item.lobby == lobby && step.item.id == id
  }

  /** The i-th step of the run uses the message. */
  predicate UsesAt(s: Service, steps: seq<Step>, i: nat, lobby: LobbyId, id: MsgId) {
    i < |steps| && IsAbout(steps[i], lobby, id) && Do(Run(s, steps[..i]), steps[i]).accepted
  }

  /** The lobby is not left, and all copies of the message carry its one send time. */
  predicate Consistent(steps: seq<Step>, lobby: LobbyId, id: MsgId, sendTime: int) {
    forall i :: 0 <= i < |steps| ==>
      && !(steps[i].Leave? && steps[i].lobby == lobby)
      && (IsAbout(steps[i], lobby, id) ==> steps[i].item.sendTime == sendTime)
  }

  // ------------------------------------------------------- used at most once

  /** The cache still knows the message, or the message is too old by now. */
  predicate Remembers(s: Service, lobby: LobbyId, id: MsgId, sendTime: int, now: int) {
    && lobby in s.lobbies
    && var cache := s.lobbies[lobby].msgCache;
       if id in cache then cache[id] >= sendTime - AGE_MARGIN
       else now + AGE_MARGIN > sendTime + MAX_KEEP_MSG_RECORD
  }

  lemma BounceCaches(s: Service, item: Item, peer: Peer, connected: set<Peer>, now: int)
    requires item.lobby in s.lobbies
    ensures var o := Bounce(s, item, peer, connected, now);
            && o.service.lobbies.Keys == s.lobbies.Keys
            && o.service.lobbies[item.lobby].msgCache == s.lobbies[item.lobby].msgCache[item.id := now]
            && (forall l :: l in s.lobbies && l != item.lobby ==> o.service.lobbies[l] == s.lobbies[l])
            && (o.accepted ==> item.id !in s.lobbies[item.lobby].msgCache)
  {
  }

  lemma HandleCaches(s: Service, item: Item, peer: Peer, connected: set<Peer>, checks: bool, now: int)
    requires item.lobby in s.lobbies
    ensures var o := Handle(s, item, peer, connected, checks, now);
            && o.service.lobbies.Keys == s.lobbies.Keys
            && o.service.lobbies[item.lobby].msgCache
               == (if InWindow(item.sendTime, now) && checks then s.lobbies[item.lobby].msgCache[item.id := now]
                   else s.lobbies[item.lobby].msgCache)
            && (forall l :: l in s.lobbies && l != item.lobby ==> o.service.lobbies[l] == s.lobbies[l])
            && (o.accepted ==> item.id !in s.lobbies[item.lobby].msgCache && InWindow(item.sendTime, now) && checks)
  {
    BounceCaches(s, item, peer, connected, now);
  }

  /** Used means recorded, at the time of the step. */
  lemma UsedIsRemembered(s: Service, step: Step, lobby: LobbyId, id: MsgId, sendTime: int)
    requires IsAbout(step, lobby, id) && step.item.sendTime == sendTime
    requires Do(s, step).accepted && step.now >= sendTime - AGE_MARGIN
    ensures Remembers(Do(s, step).service, lobby, id, sendTime, step.now)
  {
    if step.Receive? {
      HandleCaches(s, step.item, step.peer, step.connected, step.checks, step.now);
    } else {
      BounceCaches(s, step.item, s.own, step.connected, step.now);
    }
  }

  /** What is remembered is not used again, and stays remembered. */
  lemma StepRemembers(s: Service, step: Step, lobby: LobbyId, id: MsgId, sendTime: int, last: int)
    requires Remembers(s, lobby, id, sendTime, last) && last <= step.now && sendTime - AGE_MARGIN <= last
    requires !(step.Leave? && step.lobby == lobby)
    requires IsAbout(step, lobby, id) ==> step.item.sendTime == sendTime
    ensures Remembers(Do(s, step).service, lobby, id, sendTime, step.now)
    ensures IsAbout(step, lobby, id) ==> !Do(s, step).accepted
  {
    if step.Receive? && step.item.lobby in s.lobbies {
      HandleCaches(s, step.item, step.peer, step.connected, step.checks, step.now);
    } else if step.Send? && step.item.lobby in s.lobbies {
      BounceCaches(s, step.item, s.own, step.connected, step.now);
    }
  }

  lemma {:induction false} RunRemembers(s: Service, steps: seq<Step>, i: nat, j: nat, lobby: LobbyId, id: MsgId,
                                        sendTime: int)
    requires Timed(steps) && Consistent(steps, lobby, id, sendTime)
    requires UsesAt(s, steps, i, lobby, id) && steps[i].now >= sendTime - AGE_MARGIN && i < j <= |steps|
    ensures Remembers(Run(s, steps[..j]), lobby, id, sendTime, steps[j - 1].now)
  {
    hide Remembers, Do;
    assert steps[..j][..j - 1] == steps[..j - 1];
    if j == i + 1 {
      UsedIsRemembered(Run(s, steps[..i]), steps[i], lobby, id, sendTime);
    } else {
      RunRemembers(s, steps, i, j - 1, lobby, id, sendTime);
      StepRemembers(Run(s, steps[..j - 1]), steps[j - 1], lobby, id, sendTime, steps[j - 2].now);
    }
  }

  /**
   * A message used no earlier than 100 seconds before its send time is never
   * used again while the lobby is not left, however often the cache is cleaned.
   */
  lemma UsedAtMostOnce(s: Service, steps: seq<Step>, i: nat, j: nat, lobby: LobbyId, id: MsgId, sendTime: int)
    requires Timed(steps) && Consistent(steps, lobby, id, sendTime)
    requires UsesAt(s, steps, i, lobby, id) && steps[i].now >= sendTime - AGE_MARGIN
    requires i < j < |steps|
    ensures !UsesAt(s, steps, j, lobby, id)
  {
    RunRemembers(s, steps, i, j, lobby, id, sendTime);
    if IsAbout(steps[j], lobby, id) {
      StepRemembers(Run(s, steps[..j]), steps[j], lobby, id, sendTime, steps[j - 1].now);
    }
  }

  // ------------------------------------------------------ the flood list

  predicate Sorted(times: seq<int>) {
    forall i, j :: 0 <= i < j < |times| ==> times[i] <= times[j]
  }

  /** Popping removes from the front, and only stale times. */
  lemma {:induction false} RecentIsSuffix(times: seq<int>, now: int) returns (k: nat)
    ensures k <= |times| && Recent(times, now) == times[k..]
    ensures forall i :: 0 <= i < k ==> times[i] + FLOOD_PERIOD < now
    ensures k < |times| ==> times[k] + FLOOD_PERIOD >= now
  {
    if times != [] && times[0] + FLOOD_PERIOD < now {
      k := RecentIsSuffix(times[1..], now);
      k := k + 1;
    } else {
      k := 0;
    }
  }

  /** On an ordered list popping removes exactly the times that lie before the window. */
  lemma RecentIsWindow(times: seq<int>, now: int)
    requires Sorted(times)
    ensures forall t :: t in Recent(times, now) <==> (t in times && t + FLOOD_PERIOD >= now)
  {
    var k := RecentIsSuffix(times, now);
    forall i | k <= i < |times|
      ensures times[i] + FLOOD_PERIOD >= now && times[i] in Recent(times, now)
    {
      assert times[k..][i - k] == times[i];
    }
  }

  /** The step passes an object of `peer` in `lobby` through the flood check. */
  predicate Passes(s: Service, step: Step, peer: Peer, lobby: LobbyId) {
    && Do(s, step).accepted
    && ((step.Receive? && step.peer == peer) || (step.Send? && s.own == peer))
    && step.item.lobby == lobby
  }

  /** The times at which the objects of `peer` in `lobby` were let through. */
  function Passed(s: Service, steps: seq<Step>, peer: Peer, lobby: LobbyId): seq<int> {
    if steps == [] then []
    else
      var n := |steps| - 1;
      var before := Passed(s, steps[..n], peer, lobby);
      if Passes(Run(s, steps[..n]), steps[n], peer, lobby) then before + [steps[n].now] else before
  }

  /** The limit the flood check applies during a step; the sender's nickname has been noted by then. */
  function LimitOf(s: Service, step: Step): real {
    if !(step.Receive? || step.Send?) then 0.0
    else if step.item.lobby in s.visible then Limit(s.visible[step.item.lobby].total)
    else if step.item.lobby in s.lobbies then Limit(|s.lobbies[step.item.lobby].gxsIds[step.item.key := step.now]|)
    else 0.0
  }

  /** Whenever the run lets an object of `peer` in `lobby` through, the limit is at most `max`. */
  predicate LimitedBy(s: Service, steps: seq<Step>, peer: Peer, lobby: LobbyId, max: real) {
    forall i :: 0 <= i < |steps| ==>
      Passes(Run(s, steps[..i]), steps[i], peer, lobby) ==> LimitOf(Run(s, steps[..i]), steps[i]) <= max
  }

  /** The flood list is what has passed, without a part at the front that is stale. */
  ghost predicate Listed(s: Service, passed: seq<int>, peer: Peer, lobby: LobbyId, now: int, k: nat) {
    && k <= |passed| && Times(s, peer, lobby) == passed[k..]
    && (forall i :: 0 <= i < k ==> passed[i] + FLOOD_PERIOD < now)
  }

  /** Any `m` + 1 consecutive passes span more than the period. */
  predicate Spread(passed: seq<int>, m: nat) {
    forall i :: m <= i < |passed| ==> passed[i - m] + FLOOD_PERIOD < passed[i]
  }

  lemma BounceTimes(s: Service, item: Item, from: Peer, connected: set<Peer>, now: int, peer: Peer, lobby: LobbyId)
    ensures var o := Bounce(s, item, from, connected, now);
            var before := Times(s, peer, lobby);
            var after := Times(o.service, peer, lobby);
            if from == peer && item.lobby == lobby && o.accepted
            then && after == Recent(before, now) + [now]
                 && |Recent(before, now)| as real <= LimitOf(s, Send(item, connected, now))
            else after == before || after == Recent(before, now)
  {
  }

  lemma DoTimes(s: Service, step: Step, peer: Peer, lobby: LobbyId)
    ensures var before := Times(s, peer, lobby);
            var after := Times(Do(s, step).service, peer, lobby);
            if Passes(s, step, peer, lobby)
            then && after == Recent(before, step.now) + [step.now]
                 && |Recent(before, step.now)| as real <= LimitOf(s, step)
            else after == before || after == Recent(before, step.now)
  {
    if step.Receive? {
      BounceTimes(s, step.item, step.peer, step.connected, step.now, peer, lobby);
    } else if step.Send? {
      BounceTimes(s, step.item, s.own, step.connected, step.now, peer, lobby);
    }
  }

  lemma FloorBound(n: nat, limit: real, max: real)
    requires n as real <= limit <= max
    ensures n <= max.Floor
  {
  }

  /** What is popped joins the stale part of the log. */
  lemma PopListed(s: Service, passed: seq<int>, peer: Peer, lobby: LobbyId, last: int, k: nat,
                  now: int) returns (k': nat)
    requires Listed(s, passed, peer, lobby, last, k) && last <= now
    ensures k <= k' <= |passed| && Recent(Times(s, peer, lobby), now) == passed[k'..]
    ensures forall i :: 0 <= i < k' ==> passed[i] + FLOOD_PERIOD < now
  {
    var times := passed[k..];
    var d := RecentIsSuffix(times, now);
    k' := k + d;
    DropTwice(passed, k, d);
    forall i | k <= i < k'
      ensures passed[i] + FLOOD_PERIOD < now
    {
      assert passed[i] == times[i - k];
    }
  }

  lemma DropTwice(s: seq<int>, k: nat, d: nat)
    requires k + d <= |s|
    ensures s[k..][d..] == s[k + d..]
  {
  }

  /** One step keeps the list a stale-free end of the log and the log spread out. */
  lemma StepListed(s: Service, step: Step, passed: seq<int>, peer: Peer, lobby: LobbyId, last: int, k: nat, max: real)
    returns (k': nat)
    requires Listed(s, passed, peer, lobby, last, k) && last <= step.now && 0.0 <= max
    requires Spread(passed, max.Floor + 1)
    requires Passes(s, step, peer, lobby) ==> LimitOf(s, step) <= max
    ensures var after := if Passes(s, step, peer, lobby) then passed + [step.now] else passed;
            Listed(Do(s, step).service, after, peer, lobby, step.now, k') && Spread(after, max.Floor + 1)
  {
    DoTimes(s, step, peer, lobby);
    k' := PopListed(s, passed, peer, lobby, last, k, step.now);
    if Passes(s, step, peer, lobby) {
      FloorBound(|passed| - k', LimitOf(s, step), max);
      PushSpread(passed, step.now, k', max.Floor + 1);
      assert (passed + [step.now])[k'..] == passed[k'..] + [step.now];
    } else if Times(Do(s, step).service, peer, lobby) == passed[k..] {
      k' := k;
    }
  }

  lemma PushSpread(passed: seq<int>, now: int, k: nat, m: nat)
    requires Spread(passed, m) && k <= |passed| && |passed| - k < m
    requires forall i :: 0 <= i < k ==> passed[i] + FLOOD_PERIOD < now
    ensures Spread(passed + [now], m)
  {
  }

  lemma SortedPush(passed: seq<int>, now: int)
    requires Sorted(passed) && forall i :: 0 <= i < |passed| ==> passed[i] <= now
    ensures Sorted(passed + [now])
  {
  }

  lemma {:induction false} PassedSorted(s: Service, steps: seq<Step>, peer: Peer, lobby: LobbyId)
    requires Timed(steps)
    ensures var passed := Passed(s, steps, peer, lobby);
            && Sorted(passed)
            && forall i :: 0 <= i < |passed| ==> steps != [] && passed[i] <= steps[|steps| - 1].now
  {
    if steps != [] {
      var n := |steps| - 1;
      PassedSorted(s, steps[..n], peer, lobby);
      SortedPush(Passed(s, steps[..n], peer, lobby), steps[n].now);
    }
  }

  lemma {:induction false} RunListed(s: Service, steps: seq<Step>, peer: Peer, lobby: LobbyId,
                                     max: real) returns (k: nat)
    requires Timed(steps) && LimitedBy(s, steps, peer, lobby, max) && 0.0 <= max
    requires Times(s, peer, lobby) == []
    ensures var passed := Passed(s, steps, peer, lobby);
            && Spread(passed, max.Floor + 1)
            && if steps == [] then k == 0
               else Listed(Run(s, steps), passed, peer, lobby, steps[|steps| - 1].now, k)
  {
    k := 0;
    if steps != [] {
      var n := |steps| - 1;
      LimitedPrefix(s, steps, peer, lobby, max);
      k := RunListed(s, steps[..n], peer, lobby, max);
      var last := if n == 0 then steps[n].now else steps[n - 1].now;
      k := StepListed(Run(s, steps[..n]), steps[n], Passed(s, steps[..n], peer, lobby), peer, lobby, last, k, max);
    }
  }

  lemma LimitedPrefix(s: Service, steps: seq<Step>, peer: Peer, lobby: LobbyId, max: real)
    requires LimitedBy(s, steps, peer, lobby, max) && steps != []
    ensures LimitedBy(s, steps[..|steps| - 1], peer, lobby, max)
  {
    forall i | 0 <= i < |steps| - 1
      ensures steps[..|steps| - 1][..i] == steps[..i]
    {
    }
  }

  // ------------------------------------------------ exactly when it is used twice

  /** No time stamp of the flood check lies in the future. */
  predicate PastTimes(s: Service, peer: Peer, lobby: LobbyId, now: int) {
    var times := Times(s, peer, lobby);
    forall i :: 0 <= i < |times| ==> times[i] <= now
  }

  lemma {:induction false} AllStale(times: seq<int>, now: int)
    requires forall i :: 0 <= i < |times| ==> times[i] + FLOOD_PERIOD < now
    ensures Recent(times, now) == []
  {
    if times != [] {
      AllStale(times[1..], now);
    }
  }

  /** The cleaning and the second delivery that use the message again. */
  function Echo(step: Step): seq<Step>
    requires step.Receive?
  {
    var late := step.now + MAX_KEEP_MSG_RECORD + 1;
    [step, Tidy(late), step.(checks := true, now := late)]
  }

  lemma CleanForgets(s: Service, lobby: LobbyId, id: MsgId, peer: Peer, now: int)
    requires lobby in s.lobbies && id in s.lobbies[lobby].msgCache
    requires s.lobbies[lobby].msgCache[id] + MAX_KEEP_MSG_RECORD < now
    ensures lobby in Clean(s, now).lobbies && id !in Clean(s, now).lobbies[lobby].msgCache
    ensures Times(Clean(s, now), peer, lobby) == Times(s, peer, lobby)
  {
  }

  /** After the cleaning nothing stands in the way of the second delivery. */
  lemma EchoState(s: Service, step: Step)
    requires step.Receive? && PastTimes(s, step.peer, step.item.lobby, step.now) && Do(s, step).accepted
    ensures var item, late := step.item, step.now + MAX_KEEP_MSG_RECORD + 1;
            var r := Clean(Do(s, step).service, late);
            && item.lobby in r.lobbies && item.id !in r.lobbies[item.lobby].msgCache
            && Recent(Times(r, step.peer, item.lobby), late) == []
            && InWindow(item.sendTime, step.now)
  {
    var item, late := step.item, step.now + MAX_KEEP_MSG_RECORD + 1;
    HandleCaches(s, item, step.peer, step.connected, step.checks, step.now);
    DoTimes(s, step, step.peer, item.lobby);
    var _ := RecentIsSuffix(Times(s, step.peer, item.lobby), step.now);
    CleanForgets(Do(s, step).service, item.lobby, item.id, step.peer, late);
    AllStale(Times(Do(s, step).service, step.peer, item.lobby), late);
  }

  lemma EchoIsUsed(s: Service, step: Step)
    requires step.Receive? && PastTimes(s, step.peer, step.item.lobby, step.now) && Do(s, step).accepted
    requires step.now < step.item.sendTime - AGE_MARGIN
    ensures UsesAt(s, Echo(step), 2, step.item.lobby, step.item.id)
  {
    var late := step.now + MAX_KEEP_MSG_RECORD + 1;
    EchoState(s, step);
    EchoRun(s, step);
    EmptyPasses(Clean(Do(s, step).service, late), step.item, step.peer, step.connected, late);
  }

  lemma EchoIsRun(step: Step)
    requires step.Receive?
    ensures Timed(Echo(step)) && Consistent(Echo(step), step.item.lobby, step.item.id, step.item.sendTime)
  {
  }

  lemma EchoRun(s: Service, step: Step)
    requires step.Receive?
    ensures Run(s, Echo(step)[..2]) == Clean(Do(s, step).service, step.now + MAX_KEEP_MSG_RECORD + 1)
  {
    assert Echo(step)[..2][..1] == [step] && [step][..0] == [];
    assert Run(s, [step]) == Do(s, step).service;
  }

  lemma EmptyPasses(s: Service, item: Item, peer: Peer, connected: set<Peer>, now: int)
    requires item.lobby in s.lobbies && item.id !in s.lobbies[item.lobby].msgCache
    requires Recent(Times(s, peer, item.lobby), now) == []
    ensures Bounce(s, item, peer, connected, now).accepted
  {
  }

  /** A run that starts with `step` uses the message of the step twice. */
  ghost predicate UsedTwice(s: Service, step: Step, steps: seq<Step>, j: nat)
    requires step.Receive?
  {
    && 0 < j < |steps| && steps[0] == step && Timed(steps)
    && Consistent(steps, step.item.lobby, step.item.id, step.item.sendTime)
    && UsesAt(s, steps, j, step.item.lobby, step.item.id)
  }

  /** A message that has just been used can be used again exactly if it came more than 100 seconds early. */
  lemma UsedTwiceExactly(s: Service, step: Step)
    requires step.Receive? && PastTimes(s, step.peer, step.item.lobby, step.now) && Do(s, step).accepted
    ensures (exists steps, j :: UsedTwice(s, step, steps, j)) <==> step.now < step.item.sendTime - AGE_MARGIN
  {
    if step.now < step.item.sendTime - AGE_MARGIN {
      EchoIsUsed(s, step);
      EchoIsRun(step);
      assert UsedTwice(s, step, Echo(step), 2);
    } else {
      forall steps, j | UsedTwice(s, step, steps, j)
        ensures false
      {
        NotUsedTwice(s, step, steps, j);
      }
    }
  }

  lemma NotUsedTwice(s: Service, step: Step, steps: seq<Step>, j: nat)
    requires step.Receive? && Do(s, step).accepted && step.now >= step.item.sendTime - AGE_MARGIN
    ensures !UsedTwice(s, step, steps, j)
  {
    if UsedTwice(s, step, steps, j) {
      assert steps[..0] == [];
      UsedAtMostOnce(s, steps, 0, j, step.item.lobby, step.item.id, step.item.sendTime);
    }
  }

  // ------------------------------------------------------------ flood window

  /** The passes in the window of ten seconds that ends at `w`. */
  function InTheWindow(passed: seq<int>, w: int): set<nat> {
    set i | 0 <= i < |passed| && w - FLOOD_PERIOD <= passed[i] <= w
  }

  function Range(a: nat, n: nat): (r: set<nat>)
    ensures |r| == n && forall i :: i in r <==> a <= i < a + n
  {
    if n == 0 then {} else Range(a, n - 1) + {a + n - 1}
  }

  lemma WindowBound(passed: seq<int>, m: nat, w: int)
    requires Sorted(passed) && Spread(passed, m)
    ensures |InTheWindow(passed, w)| <= m
  {
    var hits := InTheWindow(passed, w);
    if hits != {} {
      var first := First(passed, w);
      var range := Range(first, m);
      forall i | i in hits
        ensures i in range
      {
        if i >= m {
          assert passed[i - m] + FLOOD_PERIOD < passed[i];
          assert i - m < first;
        }
      }
      SubsetSize(hits, range);
    }
  }

  lemma First(passed: seq<int>, w: int) returns (first: nat)
    requires InTheWindow(passed, w) != {}
    ensures first in InTheWindow(passed, w)
    ensures forall i :: i in InTheWindow(passed, w) ==> first <= i
  {
    first :| first in InTheWindow(passed, w);
    while exists i :: i in InTheWindow(passed, w) && i < first
      invariant first in InTheWindow(passed, w)
      decreases first
    {
      var i :| i in InTheWindow(passed, w) && i < first;
      first := i;
    }
  }

  /**
   * With limits of at most `max`, no window of ten seconds holds more than
   * floor(max) + 1 objects of one peer in one lobby, in any run.
   */
  lemma FloodBound(s: Service, steps: seq<Step>, peer: Peer, lobby: LobbyId, max: real, w: int)
    requires Timed(steps) && LimitedBy(s, steps, peer, lobby, max) && 0.0 <= max
    requires Times(s, peer, lobby) == []
    ensures |InTheWindow(Passed(s, steps, peer, lobby), w)| <= max.Floor + 1
  {
    PassedSorted(s, steps, peer, lobby);
    var _ := RunListed(s, steps, peer, lobby, max);
    WindowBound(Passed(s, steps, peer, lobby), max.Floor + 1, w);
  }
}
