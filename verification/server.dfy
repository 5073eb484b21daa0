/**
 * The authoritative session of server.js: the player registry keyed by
 * connection id, first-free ability assignment from the three-entry catalog
 * (a spectator when none is free), per-player reset to a spawn point, the
 * `levelActive` flag, one-shot ability requests, all-goal completion that
 * records a leaderboard entry, and disconnects.
 *
 * Socket handlers are methods of `Session`; the clock is an argument; the
 * five-second deferred reset scheduled by a completion is an explicit
 * `FireReset`; outgoing events other than the requester's ability reply are
 * not modelled.
 */
module Server {
  import opened Wrappers
  import opened Levels
  import Ranking

  datatype AbilityDef = AbilityDef(id: string, name: string, color: string)

  /** The fixed ability catalog, in assignment order. */
  const Catalog: seq<AbilityDef> := [
    AbilityDef("phase", "Phase Walker", "#f06292"),
    AbilityDef("dash", "Dash Sprinter", "#64ffda"),
    AbilityDef("ceiling", "Ceiling Walker", "#7986cb")
  ]

  /** Entries kept on the leaderboard. */
  const LeaderboardSize: nat := 5

  datatype Player = Player(
    id: string,
    ability: Option<string>,
    abilityName: string,
    color: string,
    spawnIndex: Option<int>,
    abilityUsed: bool,
    position: Vec,
    velocity: Vec,
    goalReached: bool,
    spectator: bool)

  /** A leaderboard record; `recordedAt` is the clock reading the server renders as an ISO date. */
  datatype Entry = Entry(levelId: string, timeMs: int, players: seq<string>, recordedAt: int)

  /** What the requester of an ability is told. */
  datatype AbilityReply = Ignored | Denied(reason: string) | Activated(ability: string)

  function EntryTime(e: Entry): real { e.timeMs as real }

  predicate Distinct(s: seq<string>) {
    forall i, j :: 0 <= i < j < |s| ==> s[i] != s[j]
  }

  /**
   * The ability ids held by non-spectator players. In a well-formed roster
   * every one of them is a catalog id.
   */
  function Taken(players: map<string, Player>): (r: set<string>)
    ensures Roster(players) ==> r <= CatalogIds()
  {
    TakenInCatalog(players);
    set id | id in players && !players[id].spectator && players[id].ability.Some? :: players[id].ability.value
  }

  /** `abilityDefinitions.findIndex(a => a.id === id)`: the catalog index of `id`, or -1. */
  function CatalogIndex(id: string): (i: int)
    ensures -1 <= i < |Catalog|
    ensures i == -1 <==> forall j :: 0 <= j < |Catalog| ==> Catalog[j].id != id
    ensures 0 <= i ==> Catalog[i].id == id
  {
    if Catalog[0].id == id then 0
    else if Catalog[1].id == id then 1
    else if Catalog[2].id == id then 2
    else -1
  }

  function FirstFree(taken: set<string>, from: nat): (r: Option<nat>)
    requires from <= |Catalog|
    ensures r.Some? ==> from <= r.value < |Catalog| && Catalog[r.value].id !in taken
    ensures r.Some? ==> forall j :: from <= j < r.value ==> Catalog[j].id in taken
    ensures r.None? <==> forall j :: from <= j < |Catalog| ==> Catalog[j].id in taken
    decreases |Catalog| - from
  {
    if from == |Catalog| then None
    else if Catalog[from].id !in taken then Some(from)
    else FirstFree(taken, from + 1)
  }

  /**
   * `availableAbility()`: the first catalog entry, in catalog order, whose id
   * no non-spectator holds; none when all are held.
   */
  function AvailableAbility(players: map<string, Player>): (r: Option<AbilityDef>)
    ensures r.None? <==> forall j :: 0 <= j < |Catalog| ==> Catalog[j].id in Taken(players)
    ensures r.Some? ==> r.value.id !in Taken(players)
    ensures r.Some? ==> var i := CatalogIndex(r.value.id);
              0 <= i && Catalog[i] == r.value && forall j :: 0 <= j < i ==> Catalog[j].id in Taken(players)
  {
    match FirstFree(Taken(players), 0)
    case None => None
    case Some(i) => Some(Catalog[i])
  }

  /**
   * `spawnPositionFor(player)`: the spawn point at the player's spawn index,
   * falling back to the first spawn point when the index is missing or out
   * of range.
   */
  function SpawnPositionFor(p: Player, spawnPoints: seq<Vec>): (r: Vec)
    requires |spawnPoints| > 0
    ensures r in spawnPoints
    ensures p.spawnIndex.Some? && 0 <= p.spawnIndex.value < |spawnPoints| ==> r == spawnPoints[p.spawnIndex.value]
    ensures !(p.spawnIndex.Some? && 0 <= p.spawnIndex.value < |spawnPoints|) ==> r == spawnPoints[0]
  {
    match p.spawnIndex
    case Some(i) => if 0 <= i < |spawnPoints| then spawnPoints[i] else spawnPoints[0]
    case None => spawnPoints[0]
  }

  /**
   * `resetPlayerState(player)`: back to the spawn point, at rest, goal and
   * ability flags cleared; identity, ability and spectator status kept.
   */
  function ResetPlayer(p: Player, spawnPoints: seq<Vec>): (q: Player)
    requires |spawnPoints| > 0
    ensures q.position in spawnPoints && q.position == SpawnPositionFor(p, spawnPoints)
    ensures q.velocity == Zero && !q.goalReached && !q.abilityUsed
    ensures q.id == p.id && q.ability == p.ability && q.spectator == p.spectator && q.spawnIndex == p.spawnIndex
    ensures q.abilityName == p.abilityName && q.color == p.color
  {
    p.(position := SpawnPositionFor(p, spawnPoints), velocity := Zero, goalReached := false, abilityUsed := false)
  }

  /**
   * The record the connection handler builds for `id` given the ability it
   * found: a spectator exactly when none was found, otherwise the ability's
   * id, name and color and its catalog slot as spawn index.
   */
  function NewPlayer(id: string, ability: Option<AbilityDef>): (p: Player)
    ensures p.id == id && p.spectator == ability.None?
    ensures ability.Some? ==> p.ability == Some(ability.value.id) && p.abilityName == ability.value.name
    ensures ability.Some? ==> p.color == ability.value.color && p.spawnIndex == Some(CatalogIndex(ability.value.id))
    ensures ability.None? ==> p.ability.None? && p.spawnIndex.None? && p.abilityName == "Spectator"
    ensures !p.abilityUsed && !p.goalReached
  {
    match ability
    case Some(a) => Player(id, Some(a.id), a.name, a.color, Some(CatalogIndex(a.id)), false, Zero, Zero, false, false)
    case None => Player(id, None, "Spectator", "#ffffff", None, false, Zero, Zero, false, true)
  }

  /** Resetting twice is resetting once. */
  lemma ResetIdempotent(p: Player, spawnPoints: seq<Vec>)
    requires |spawnPoints| > 0
    ensures ResetPlayer(ResetPlayer(p, spawnPoints), spawnPoints) == ResetPlayer(p, spawnPoints)
  {
  }

  /** A player record as the connection handler builds it: a spectator exactly when it holds no ability. */
  predicate PlayerOk(p: Player) {
    && (p.spectator <==> p.ability.None?)
    && (p.spectator ==> p.spawnIndex.None?)
    && (!p.spectator ==> 0 <= CatalogIndex(p.ability.value) && p.spawnIndex == Some(CatalogIndex(p.ability.value)))
  }

  /** Every record is well formed and filed under its own id, and no two non-spectators share an ability. */
  predicate Roster(players: map<string, Player>) {
    && (forall id :: id in players ==> players[id].id == id && PlayerOk(players[id]))
    && (forall a, b :: a in players && b in players && a != b && !players[a].spectator && !players[b].spectator
          ==> players[a].ability != players[b].ability)
  }

  /** `Object.values(players).filter(p => !p.spectator)`, as ids in insertion order. */
  function ActiveIds(order: seq<string>, players: map<string, Player>): (r: seq<string>)
    ensures forall id :: id in r <==> id in order && id in players && !players[id].spectator
    ensures Distinct(order) ==> Distinct(r)
    ensures |r| <= |order|
  {
    if order == [] then []
    else
      var last := order[|order| - 1];
      var rest := ActiveIds(order[..|order| - 1], players);
      assert order == order[..|order| - 1] + [last];
      if last in players && !players[last].spectator then rest + [last] else rest
  }

  /** The ability names of the non-spectators, in insertion order (the entry's `players`). */
  function TeamNames(order: seq<string>, players: map<string, Player>): (names: seq<string>)
    ensures |names| == |ActiveIds(order, players)|
  {
    var ids := ActiveIds(order, players);
    seq(|ids|, i requires 0 <= i < |ids| => players[ids[i]].abilityName)
  }

  /** `delete players[id]` on the insertion order. */
  function Without(order: seq<string>, id: string): (r: seq<string>)
    ensures forall x :: x in r <==> x in order && x != id
    ensures Distinct(order) ==> Distinct(r)
  {
    if order == [] then []
    else
      var last := order[|order| - 1];
      var rest := Without(order[..|order| - 1], id);
      assert order == order[..|order| - 1] + [last];
      assert Distinct(order) ==> last !in order[..|order| - 1];
      if last == id then rest else rest + [last]
  }

  predicate AllAtGoal(ids: seq<string>, players: map<string, Player>) {
    forall id :: id in ids && id in players ==> players[id].goalReached
  }

  /** Every ability a well-formed roster hands out is in the catalog. */
  lemma TakenInCatalog(players: map<string, Player>)
    ensures Roster(players) ==> forall id :: id in players && !players[id].spectator ==> players[id].ability.value in CatalogIds()
  {
    if Roster(players) {
      forall id | id in players && !players[id].spectator ensures players[id].ability.value in CatalogIds() {
        var i := CatalogIndex(players[id].ability.value);
        assert Catalog[i].id in CatalogIds();
      }
    }
  }

  function CatalogIds(): set<string> {
    set i | 0 <= i < |Catalog| :: Catalog[i].id
  }

  lemma CatalogIdsCount()
    ensures |CatalogIds()| == |Catalog|
  {
    assert Catalog[0].id in CatalogIds() && Catalog[1].id in CatalogIds() && Catalog[2].id in CatalogIds();
    forall x | x in CatalogIds() ensures x in {"phase", "dash", "ceiling"} {
      var i :| 0 <= i < |Catalog| && Catalog[i].id == x;
    }
    assert CatalogIds() == {"phase", "dash", "ceiling"};
  }

  /** `resetPlayerState` applied to every player. */
  function ResetAll(players: map<string, Player>, spawnPoints: seq<Vec>): (r: map<string, Player>)
    requires |spawnPoints| > 0
    ensures r.Keys == players.Keys
  {
    map id | id in players :: ResetPlayer(players[id], spawnPoints)
  }

  /** The loop of `resetLevel()`: resets the players one id of `order` at a time. */
  method ResetEach(order: seq<string>, players: map<string, Player>, spawnPoints: seq<Vec>)
    returns (updated: map<string, Player>)
    requires |spawnPoints| > 0
    requires forall id :: id in order <==> id in players
    ensures updated == ResetAll(players, spawnPoints)
  {
    updated := players;
    var i := 0;
    while i < |order|
      invariant 0 <= i <= |order|
      invariant updated.Keys == players.Keys
      invariant forall id :: id in updated ==>
        updated[id] == if id in order[..i] then ResetPlayer(players[id], spawnPoints) else players[id]
    {
      var id := order[i];
      updated := updated[id := ResetPlayer(players[id], spawnPoints)];
      assert order[..i + 1] == order[..i] + [id];
      i := i + 1;
    }
    assert order[..|order|] == order;
  }

  /** Resetting every player keeps the roster well formed. */
  lemma RosterResetAll(players: map<string, Player>, spawnPoints: seq<Vec>)
    requires Roster(players) && |spawnPoints| > 0
    ensures Roster(ResetAll(players, spawnPoints))
  {
  }

  /** Filing `q` under its own id keeps the roster when no other non-spectator holds its ability. */
  lemma RosterPut(players: map<string, Player>, q: Player)
    requires Roster(players) && PlayerOk(q)
    requires forall other :: other in players && other != q.id && !players[other].spectator && !q.spectator ==>
               players[other].ability != q.ability
    ensures Roster(players[q.id := q])
  {
  }

  lemma RosterRemove(players: map<string, Player>, id: string)
    requires Roster(players)
    ensures Roster(players - {id})
  {
  }

  /** Distinct players with pairwise distinct abilities drawn from `pool` are at most `|pool|`. */
  lemma {:induction false} DistinctAbilitiesBound(ids: seq<string>, players: map<string, Player>, pool: set<string>)
    requires Distinct(ids) && Roster(players)
    requires forall id :: id in ids ==> id in players && !players[id].spectator && players[id].ability.value in pool
    ensures |ids| <= |pool|
  {
    if ids != [] {
      var last := ids[|ids| - 1];
      var init := ids[..|ids| - 1];
      var held := players[last].ability.value;
      forall id | id in init
        ensures id in players && !players[id].spectator && players[id].ability.value in pool - {held}
      {
        var k :| 0 <= k < |init| && init[k] == id;
        assert ids[k] == id && k < |ids| - 1;
      }
      DistinctAbilitiesBound(init, players, pool - {held});
    }
  }

  /** Because abilities are unique among non-spectators, there are never more non-spectators than catalog entries. */
  lemma TeamAtMostCatalog(order: seq<string>, players: map<string, Player>)
    requires Distinct(order) && Roster(players)
    ensures |ActiveIds(order, players)| <= |Catalog|
  {
    var ids := ActiveIds(order, players);
    forall id | id in ids ensures players[id].ability.value in CatalogIds() {
      var i := CatalogIndex(players[id].ability.value);
      assert Catalog[i].id in CatalogIds();
    }
    DistinctAbilitiesBound(ids, players, CatalogIds());
    CatalogIdsCount();
  }

  /**
   * After a reset, a non-spectator stands on the spawn point of its ability's
   * catalog slot and a spectator on the first spawn point.
   */
  lemma ResetSpawnSlot(p: Player, spawnPoints: seq<Vec>)
    requires PlayerOk(p) && |spawnPoints| >= |Catalog|
    ensures !p.spectator ==> ResetPlayer(p, spawnPoints).position == spawnPoints[CatalogIndex(p.ability.value)]
    ensures p.spectator ==> ResetPlayer(p, spawnPoints).position == spawnPoints[0]
  {
  }

  class Session {
    const level: Level
    var players: map<string, Player>
    /** The ids of `players` in insertion order, the order `Object.values` visits them. */
    var order: seq<string>
    var leaderboard: seq<Entry>
    var levelActive: bool
    var levelStartTime: int
    /** Deferred resets scheduled by completions and not yet fired. */
    var pendingResets: nat

    ghost predicate Valid()
      reads this
    {
      && |level.spawnPoints| > 0
      && Distinct(order)
      && (forall id :: id in order <==> id in players)
      && Roster(players)
    }

    /** Server start: no players, the level inactive, the stored leaderboard loaded. */
    constructor (level: Level, stored: seq<Entry>, now: int)
      requires |level.spawnPoints| > 0
      ensures Valid()
      ensures this.level == level && players == map[] && order == [] && leaderboard == stored
      ensures !levelActive && levelStartTime == now && pendingResets == 0
    {
      this.level := level;
      players := map[];
      order := [];
      leaderboard := stored;
      levelActive := false;
      levelStartTime := now;
      pendingResets := 0;
    }

    /** `resetLevel()`: restarts the clock, activates the level and resets every player. */
    method ResetLevel(now: int)
      requires Valid()
      modifies this
      ensures Valid()
      ensures levelActive && levelStartTime == now
      ensures order == old(order) && leaderboard == old(leaderboard) && pendingResets == old(pendingResets)
      ensures players == ResetAll(old(players), level.spawnPoints)
    {
      levelStartTime := now;
      levelActive := true;
      var updated := ResetEach(order, players, level.spawnPoints);
      RosterResetAll(players, level.spawnPoints);
      players := updated;
    }

    /**
     * The connection handler: registers the player with the first free
     * ability (a spectator when none is free), resets it to its spawn point,
     * and resets the whole level when it was not active.
     */
    method Connect(id: string, now: int)
      requires Valid()
      modifies this
      ensures Valid()
      ensures levelActive
      ensures id in players && players.Keys == old(players).Keys + {id}
      ensures order == if id in old(players) then old(order) else old(order) + [id]
      ensures players[id] == ResetPlayer(NewPlayer(id, AvailableAbility(old(players))), level.spawnPoints)
      ensures levelStartTime == if old(levelActive) then old(levelStartTime) else now
      ensures old(levelActive) ==> players == old(players)[id := players[id]]
      ensures !old(levelActive) ==> players == ResetAll(old(players)[id := players[id]], level.spawnPoints)
      ensures leaderboard == old(leaderboard) && pendingResets == old(pendingResets)
    {
      Register(id);
      if !levelActive {
        ghost var q := players[id];
        ResetLevel(now);
        ResetIdempotent(q, level.spawnPoints);
      }
    }

    /** The first half of the connection handler: files the new player, reset to its spawn point. */
    method Register(id: string)
      requires Valid()
      modifies this`players, this`order
      ensures Valid()
      ensures players == old(players)[id := ResetPlayer(NewPlayer(id, AvailableAbility(old(players))), level.spawnPoints)]
      ensures order == if id in old(players) then old(order) else old(order) + [id]
    {
      var ability := AvailableAbility(players);
      var p := NewPlayer(id, ability);
      forall other | other in players && other != id && !players[other].spectator && !p.spectator
        ensures players[other].ability != p.ability
      {
        assert players[other].ability.value in Taken(players);
      }
      var q := ResetPlayer(p, level.spawnPoints);
      RosterPut(players, q);
      if id !in players {
        order := order + [id];
      }
      players := players[id := q];
    }

    /**
     * The `playerUpdate` handler: overwrites the sender's position, velocity
     * and goal flag with the client's values, then completes the level when
     * it is active, the team is full and every non-spectator is at the goal.
     */
    method PlayerUpdate(id: string, position: Vec, velocity: Vec, goalReached: bool, now: int) returns (completed: bool)
      requires Valid()
      modifies this
      ensures Valid()
      ensures order == old(order) && players.Keys == old(players).Keys
      ensures id !in old(players) ==> players == old(players) && !completed && unchanged(this)
      ensures id in old(players) ==>
        && players[id] == old(players)[id].(position := position, velocity := velocity, goalReached := goalReached)
        && forall other :: other in players && other != id ==> players[other] == old(players)[other]
      ensures completed <==> (id in old(players) && old(levelActive) &&
        |ActiveIds(order, players)| == |Catalog| && AllAtGoal(ActiveIds(order, players), players))
      ensures completed ==> !levelActive && pendingResets == old(pendingResets) + 1
      ensures completed ==> leaderboard == Recorded(old(leaderboard), Completion(now))
      ensures !completed ==> levelActive == old(levelActive) && leaderboard == old(leaderboard)
      ensures !completed ==> pendingResets == old(pendingResets)
      ensures levelStartTime == old(levelStartTime)
    {
      completed := false;
      if id !in players {
        return;
      }
      var updated := players[id].(position := position, velocity := velocity, goalReached := goalReached);
      RosterPut(players, updated);
      players := players[id := updated];
      var active := ActiveIds(order, players);
      if levelActive && |active| == |Catalog| && AllAtGoal(active, players) {
        completed := CompleteLevel(now);
      }
    }

    /**
     * `completeLevel()`: a no-op unless the level is active; otherwise it
     * deactivates the level, records the elapsed time on the leaderboard and
     * schedules a reset.
     */
    method CompleteLevel(now: int) returns (recorded: bool)
      requires Valid()
      modifies this
      ensures Valid()
      ensures recorded == old(levelActive)
      ensures players == old(players) && order == old(order) && levelStartTime == old(levelStartTime)
      ensures !levelActive
      ensures recorded ==> pendingResets == old(pendingResets) + 1
      ensures recorded ==> leaderboard == Recorded(old(leaderboard), Completion(now))
      ensures !recorded ==> leaderboard == old(leaderboard) && pendingResets == old(pendingResets)
    {
      if !levelActive {
        return false;
      }
      var entry := Completion(now);
      Finish(entry);
      recorded := true;
    }

    /** Stops the level, records `entry` and schedules one reset. */
    method Finish(entry: Entry)
      requires Valid()
      modifies this
      ensures Valid()
      ensures players == old(players) && order == old(order) && levelStartTime == old(levelStartTime)
      ensures !levelActive && pendingResets == old(pendingResets) + 1
      ensures leaderboard == Recorded(old(leaderboard), entry)
    {
      levelActive := false;
      leaderboard := RecordEntry(leaderboard, entry);
      pendingResets := pendingResets + 1;
    }

    /**
     * The entry a completion at `now` records: level id, elapsed time, the
     * team's ability names, one per active player and so never more than the
     * catalog holds.
     */
    function Completion(now: int): (e: Entry)
      reads this`levelStartTime, this`order, this`players
      ensures e.timeMs == now - levelStartTime && e.recordedAt == now
      ensures |e.players| == |ActiveIds(order, players)|
      ensures Distinct(order) && Roster(players) ==> |e.players| <= |Catalog|
    {
      assert Distinct(order) && Roster(players) ==> |ActiveIds(order, players)| <= |Catalog| by {
        if Distinct(order) && Roster(players) {
          TeamAtMostCatalog(order, players);
        }
      }
      Entry(level.id, now - levelStartTime, TeamNames(order, players), now)
    }

    /**
     * The `requestAbility` handler: ignored for unknown players and
     * spectators, denied when the ability was used or the level is inactive,
     * otherwise marks the ability used.
     */
    method RequestAbility(id: string) returns (reply: AbilityReply)
      requires Valid()
      modifies this
      ensures Valid()
      ensures (id !in old(players) || old(players)[id].spectator) ==> reply == Ignored && unchanged(this)
      ensures (id in old(players) && !old(players)[id].spectator && (old(players)[id].abilityUsed || !old(levelActive))) ==>
        reply == Denied("Ability already used.") && unchanged(this)
      ensures reply.Activated? <==> (id in old(players) && !old(players)[id].spectator &&
        !old(players)[id].abilityUsed && old(levelActive))
      ensures reply.Activated? ==> players == old(players)[id := old(players)[id].(abilityUsed := true)]
      ensures reply.Activated? ==> reply.ability == old(players)[id].ability.value
      ensures order == old(order) && levelActive == old(levelActive) && leaderboard == old(leaderboard)
      ensures levelStartTime == old(levelStartTime) && pendingResets == old(pendingResets)
    {
      if id !in players || players[id].spectator {
        return Ignored;
      }
      var current := players[id];
      if current.abilityUsed || !levelActive {
        return Denied("Ability already used.");
      }
      RosterPut(players, current.(abilityUsed := true));
      players := players[id := current.(abilityUsed := true)];
      reply := Activated(current.ability.value);
    }

    /**
     * The `disconnect` handler: removes exactly that player and deactivates
     * the level when fewer non-spectators than catalog entries remain.
     */
    method Disconnect(id: string)
      requires Valid()
      modifies this
      ensures Valid()
      ensures players == old(players) - {id} && order == Without(old(order), id)
      ensures levelActive == if |ActiveIds(order, players)| < |Catalog| then false else old(levelActive)
      ensures leaderboard == old(leaderboard) && levelStartTime == old(levelStartTime)
      ensures pendingResets == old(pendingResets)
    {
      RosterRemove(players, id);
      players := players - {id};
      order := Without(order, id);
      if |ActiveIds(order, players)| < |Catalog| {
        levelActive := false;
      }
    }

    /** One deferred reset, scheduled five seconds after a completion, fires. */
    method FireReset(now: int)
      requires Valid() && pendingResets > 0
      modifies this
      ensures Valid()
      ensures pendingResets == old(pendingResets) - 1
      ensures levelActive && levelStartTime == now
      ensures order == old(order) && leaderboard == old(leaderboard)
      ensures players == ResetAll(old(players), level.spawnPoints)
    {
      pendingResets := pendingResets - 1;
      ResetLevel(now);
    }
  }

  /** Pushes `entry`, sorts by time and pops down to five entries. */
  method RecordEntry(board: seq<Entry>, entry: Entry) returns (r: seq<Entry>)
    ensures r == Recorded(board, entry)
  {
    r := Ranking.Record(board, entry, EntryTime, LeaderboardSize);
  }

  /**
   * The leaderboard after recording `entry`: the stable ascending sort of all
   * entries, cut to five, so it holds min(5, n + 1) of the pushed entries.
   */
  function Recorded(board: seq<Entry>, entry: Entry): (r: seq<Entry>)
    ensures |r| == Ranking.Min(LeaderboardSize, |board| + 1)
    ensures multiset(r) <= multiset(board + [entry])
  {
    var sorted := Ranking.SortByKey(board + [entry], EntryTime);
    var k := Ranking.Min(LeaderboardSize, |board| + 1);
    assert sorted == sorted[..k] + sorted[k..];
    sorted[..k]
  }

  /**
   * The recorded leaderboard is sorted by time, holds at most five entries,
   * all of them from the old board or the new entry, and no entry dropped is
   * faster than one kept.
   */
  lemma RecordedKeepsBest(board: seq<Entry>, entry: Entry)
    ensures var r := Recorded(board, entry);
      var all := board + [entry];
      && Ranking.Sorted(r, EntryTime)
      && |r| <= LeaderboardSize && |r| == Ranking.Min(LeaderboardSize, |all|)
      && multiset(r) <= multiset(all)
      && forall x, y :: x in multiset(all) - multiset(r) && y in r ==> y.timeMs <= x.timeMs
  {
    var all := board + [entry];
    Ranking.PrefixKeepsBest(all, EntryTime, Ranking.Min(LeaderboardSize, |all|));
    Ranking.PrefixDropsSlower(all, EntryTime, Ranking.Min(LeaderboardSize, |all|));
  }
}
