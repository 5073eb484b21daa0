/**
 * The co-op browser client of public/js/game.js: the per-player record the
 * client simulates (`Avatar`), its per-frame physics (ability timers, input,
 * gravity, collision, world clamp), ability apply/reset, reconciliation of
 * the player map against the server's snapshots, the ability trigger guard,
 * the frame-delta cap and the `MM:SS.mmm` timer text.
 *
 * Keyboard state, the frame clock and the level are arguments; drawing,
 * DOM updates and socket emits are not modelled.
 */
module Client {
  import opened Wrappers
  import opened Levels
  import opened Collision
  import Clock

  const PlayerWidth: real := 32.0
  const PlayerHeight: real := 48.0
  const MoveSpeed: real := 220.0
  const Accel: real := 1400.0
  const AirAccel: real := 1000.0
  const Friction: real := 0.8
  const AirFriction: real := 0.98
  const JumpSpeed: real := 520.0
  const DashSpeed: real := 560.0
  const DashDuration: real := 0.22
  const PhaseDuration: real := 1.5
  const CeilingDuration: real := 5.0
  const MaxFallSpeed: real := 900.0
  const MaxFrameDelta: real := 0.05

  /** A player as the server describes it; absent numbers are `None`, an absent name is empty. */
  datatype Snapshot = Snapshot(
    id: string,
    name: string,
    abilityId: string,
    abilityName: string,
    position: Option<Vec>,
    velocity: Option<Vec>,
    facing: Option<real>,
    spawnIndex: Option<int>,
    abilityUsed: bool,
    reachedGoal: bool)

  /** The held keys. */
  datatype Input = Input(left: bool, right: bool, jump: bool)

  /** `v || fallback` on a number that may be absent: absent and zero are falsy. */
  function OrReal(v: Option<real>, fallback: real): real {
    if v.Some? && v.value != 0.0 then v.value else fallback
  }

  function OrInt(v: Option<int>, fallback: int): int {
    if v.Some? && v.value != 0 then v.value else fallback
  }

  /** The horizontal direction the keys ask for: none when both or neither are held. */
  function Direction(input: Input): (d: int)
    ensures d == 0 <==> input.left == input.right
    ensures d == 1 <==> input.right && !input.left
    ensures d == -1 <==> input.left && !input.right
  {
    if input.right == input.left then 0 else if input.right then 1 else -1
  }

  /** The game loop's frame time in seconds, capped at 0.05. */
  function FrameDelta(now: real, last: real): (d: real)
    ensures d <= MaxFrameDelta && d <= (now - last) / 1000.0
    ensures d == MaxFrameDelta || d == (now - last) / 1000.0
    ensures now >= last ==> d >= 0.0
  {
    var raw := (now - last) / 1000.0;
    if raw < MaxFrameDelta then raw else MaxFrameDelta
  }

  /** The three fields `formatTime` prints: whole minutes, seconds within the minute, milliseconds within the second. */
  function TimeFields(ms: real): (f: (int, int, int))
    ensures ms >= 0.0 ==> 0 <= f.0 && 0 <= f.1 < 60 && 0 <= f.2 < 1000
    ensures ms >= 0.0 ==> 60000 * f.0 + 1000 * f.1 + f.2 == ms.Floor
  {
    var minutes := (ms / 1000.0 / 60.0).Floor;
    var seconds := Clock.JsRem(ms / 1000.0, 60.0).Floor;
    var millis := Clock.JsRem(ms, 1000.0).Floor;
    if ms >= 0.0 then
      var n := ms.Floor;
      assert ms / 1000.0 / 60.0 == ms / 60000.0;
      Clock.FloorDiv(ms, 60000);
      Clock.FloorDiv(ms, 1000);
      Clock.FloorDiv(ms / 1000.0, 60);
      Clock.SplitMillis(n);
      assert seconds == n / 1000 - 60 * ((n / 1000) / 60);
      assert millis == n - 1000 * (n / 1000);
      (minutes, seconds, millis)
    else
      (minutes, seconds, millis)
  }

  /** `formatTime(ms)`: zero-padded `MM:SS.mmm`. */
  function FormatTime(ms: real): (r: string)
    ensures ms >= 0.0 ==> Clock.ClockShaped(r)
    ensures 0.0 <= ms < 6000000.0 ==> |r| == 9
  {
    var f := TimeFields(ms);
    if ms >= 0.0 then
      Clock.ClockTextShape(f.0, f.1, f.2);
      Clock.ClockText(f.0, f.1, f.2)
    else
      Clock.ClockText(f.0, f.1, f.2)
  }

  /** For a non-negative time the text reads back as the whole milliseconds. */
  lemma FormatTimeRoundTrip(ms: real)
    requires ms >= 0.0
    ensures var r := Clock.ParseClock(FormatTime(ms)); r.Some? && r.value == ms.Floor
  {
    var f := TimeFields(ms);
    Clock.ClockTextRoundTrip(f.0, f.1, f.2);
  }

  /** `player.abilityState`: each ability's flag and timer, and the last dash direction. */
  datatype AbilityState = AbilityState(
    phaseActive: bool, phaseTimer: real,
    dashActive: bool, dashTimer: real, dashDirection: int,
    ceilingActive: bool, ceilingTimer: real)

  const Idle := AbilityState(false, 0.0, false, 0.0, 1, false, 0.0)

  /** Each ability is active exactly while its timer is positive; a dash goes left or right. */
  predicate TimersOk(a: AbilityState) {
    && a.phaseTimer >= 0.0 && (a.phaseActive <==> a.phaseTimer > 0.0)
    && a.dashTimer >= 0.0 && (a.dashActive <==> a.dashTimer > 0.0)
    && a.ceilingTimer >= 0.0 && (a.ceilingActive <==> a.ceilingTimer > 0.0)
    && (a.dashDirection == 1 || a.dashDirection == -1)
  }

  predicate AnyActive(a: AbilityState) {
    a.phaseActive || a.dashActive || a.ceilingActive
  }

  /**
   * One run-down of every active timer by `delta`: a timer that reaches zero
   * or below ends at exactly zero with its ability off; idle abilities are
   * untouched.
   */
  function Expire(a: AbilityState, delta: real): (b: AbilityState)
    ensures TimersOk(a) ==> TimersOk(b)
    ensures !a.phaseActive ==> !b.phaseActive && b.phaseTimer == a.phaseTimer
    ensures !a.dashActive ==> !b.dashActive && b.dashTimer == a.dashTimer
    ensures !a.ceilingActive ==> !b.ceilingActive && b.ceilingTimer == a.ceilingTimer
    ensures a.phaseActive ==> (b.phaseActive <==> a.phaseTimer - delta > 0.0) && (b.phaseActive ==> b.phaseTimer == a.phaseTimer - delta)
    ensures a.dashActive ==> (b.dashActive <==> a.dashTimer - delta > 0.0) && (b.dashActive ==> b.dashTimer == a.dashTimer - delta)
    ensures a.ceilingActive ==> (b.ceilingActive <==> a.ceilingTimer - delta > 0.0) && (b.ceilingActive ==> b.ceilingTimer == a.ceilingTimer - delta)
    ensures b.phaseActive ==> b.phaseTimer > 0.0
    ensures b.dashActive ==> b.dashTimer > 0.0
    ensures b.ceilingActive ==> b.ceilingTimer > 0.0
    ensures a.phaseActive && !b.phaseActive ==> b.phaseTimer == 0.0
    ensures a.dashActive && !b.dashActive ==> b.dashTimer == 0.0
    ensures a.ceilingActive && !b.ceilingActive ==> b.ceilingTimer == 0.0
    ensures b.dashDirection == a.dashDirection
  {
    var phase := if a.phaseActive && a.phaseTimer - delta <= 0.0 then 0.0 else if a.phaseActive then a.phaseTimer - delta else a.phaseTimer;
    var dash := if a.dashActive && a.dashTimer - delta <= 0.0 then 0.0 else if a.dashActive then a.dashTimer - delta else a.dashTimer;
    var ceiling := if a.ceilingActive && a.ceilingTimer - delta <= 0.0 then 0.0 else if a.ceilingActive then a.ceilingTimer - delta else a.ceilingTimer;
    AbilityState(
      a.phaseActive && phase > 0.0, phase,
      a.dashActive && dash > 0.0, dash, a.dashDirection,
      a.ceilingActive && ceiling > 0.0, ceiling)
  }

  /** The abilities the client knows how to start. */
  const KnownAbilities: set<string> := {"phase-walker", "dash-sprinter", "ceiling-walker"}

  /**
   * The ability state once `applyAbilityState` has started `ability`: its
   * flag on and its timer at the full duration (a dash also takes the
   * direction `dir`); an unknown ability changes nothing.
   */
  function Activated(a: AbilityState, ability: string, dir: int): (b: AbilityState)
    ensures ability in KnownAbilities ==> AnyActive(b)
    ensures ability !in KnownAbilities ==> b == a
    ensures TimersOk(a) && (dir == 1 || dir == -1) ==> TimersOk(b)
    ensures ability == "dash-sprinter" ==> b.dashDirection == dir
    ensures ability != "dash-sprinter" ==> b.dashDirection == a.dashDirection
  {
    if ability == "phase-walker" then a.(phaseActive := true, phaseTimer := PhaseDuration)
    else if ability == "dash-sprinter" then a.(dashActive := true, dashTimer := DashDuration, dashDirection := dir)
    else if ability == "ceiling-walker" then a.(ceilingActive := true, ceilingTimer := CeilingDuration)
    else a
  }

  /**
   * The local player's impulse from starting `ability`: a dash sets the
   * horizontal speed, the ceiling walk launches upward; nothing else moves.
   */
  function Impulse(v: Vec, ability: string, dir: int): (w: Vec)
    ensures ability !in {"dash-sprinter", "ceiling-walker"} ==> w == v
    ensures ability == "dash-sprinter" ==> w.y == v.y && w.x == dir as real * DashSpeed
    ensures ability == "ceiling-walker" ==> w.x == v.x && w.y < 0.0
  {
    if ability == "dash-sprinter" then v.(x := dir as real * DashSpeed)
    else if ability == "ceiling-walker" then v.(y := -JumpSpeed)
    else v
  }

  /** The horizontal speed cap of `applyInputToPlayer`. */
  function Clip(v: real): (r: real)
    ensures -MoveSpeed <= r <= MoveSpeed
    ensures -MoveSpeed <= v <= MoveSpeed ==> r == v
    ensures r != v ==> (r == MoveSpeed && v > MoveSpeed) || (r == -MoveSpeed && v < -MoveSpeed)
  {
    if v > MoveSpeed then MoveSpeed else if v < -MoveSpeed then -MoveSpeed else v
  }

  /** Scaling by a factor in [0, 1] never increases a magnitude. */
  lemma ScaleShrinks(f: real, v: real)
    requires 0.0 <= f <= 1.0
    ensures Abs(f * v) <= Abs(v)
  {
    if v < 0.0 {
      assert f * v >= 1.0 * v;
      assert f * v <= 0.0 * v;
    } else {
      assert f * v <= 1.0 * v;
      assert f * v >= 0.0 * v;
    }
  }

  /** Friction `f` applied to speed `v`, with a speed below 1 snapped to rest. */
  function Damp(v: real, f: real): (r: real)
    requires 0.0 <= f <= 1.0
    ensures Abs(r) <= Abs(v)
    ensures r == 0.0 || (r == f * v && Abs(r) >= 1.0)
    ensures Abs(f * v) >= 1.0 ==> r == f * v
  {
    var w := f * v;
    assert Abs(w) <= Abs(v) by { ScaleShrinks(f, v); }
    if Abs(w) < 1.0 then 0.0 else w
  }

  /**
   * The velocity `applyInputToPlayer` leaves: a dash fixes the horizontal
   * speed; otherwise a held direction accelerates (faster on the ground) up
   * to the speed cap and no direction lets friction slow the player; a jump
   * from the ground launches away from the current gravity.
   */
  function Driven(v: Vec, input: Input, grounded: bool, a: AbilityState, gravityDir: int, delta: real): (w: Vec)
    ensures a.dashActive ==> w.x == a.dashDirection as real * DashSpeed
    ensures !a.dashActive && Direction(input) != 0 ==>
      w.x == Clip(v.x + Direction(input) as real * (if grounded then Accel else AirAccel) * delta)
    ensures !a.dashActive && Direction(input) == 0 ==> w.x == Damp(v.x, if grounded then Friction else AirFriction)
    ensures input.jump && grounded ==> w.y == (if gravityDir == -1 then JumpSpeed else -JumpSpeed)
    ensures !(input.jump && grounded) ==> w.y == v.y
  {
    var x :=
      if a.dashActive then a.dashDirection as real * DashSpeed
      else if Direction(input) != 0 then Clip(v.x + Direction(input) as real * (if grounded then Accel else AirAccel) * delta)
      else Damp(v.x, if grounded then Friction else AirFriction);
    var y := if input.jump && grounded then (if gravityDir == -1 then JumpSpeed else -JumpSpeed) else v.y;
    Vec(x, y)
  }

  /** The vertical speed after `delta` seconds of the signed gravity `gravity`, within the fall-speed cap. */
  function Fall(vy: real, gravity: real, delta: real): (r: real)
    ensures -MaxFallSpeed <= r <= MaxFallSpeed
    ensures -MaxFallSpeed <= vy + gravity * delta <= MaxFallSpeed ==> r == vy + gravity * delta
    ensures r != vy + gravity * delta ==> r == MaxFallSpeed || r == -MaxFallSpeed
  {
    var w := vy + gravity * delta;
    if w > MaxFallSpeed then MaxFallSpeed else if w < -MaxFallSpeed then -MaxFallSpeed else w
  }

  /**
   * The box of size `w` by `h` at `p` after one step of gravity and
   * integration from velocity `v`: the vertical speed is `Fall`, the position
   * moves by the new velocity, and contact is cleared as collision begins.
   */
  function Integrated(p: Vec, v: Vec, gravity: real, delta: real, w: real, h: real): (c: Contact)
    ensures c.rect.width == w && c.rect.height == h && !c.grounded
    ensures c.vx == v.x && c.vy == Fall(v.y, gravity, delta)
    ensures c.rect.x == p.x + v.x * delta && c.rect.y == p.y + c.vy * delta
  {
    var vy := Fall(v.y, gravity, delta);
    Contact(Rect(p.x + v.x * delta, p.y + vy * delta, w, h), v.x, vy, false)
  }

  /**
   * What `clampWorld` makes of a box in `world`. Each axis is clamped at 0
   * and then at the far edge. A horizontal clamp turns the speed away from
   * the edge. Crossing the edge gravity points to grounds the player with
   * its speed turned away from it; crossing the other edge stops the
   * vertical motion.
   */
  function Clamped(c: Contact, world: World, gravityDir: int): (d: Contact)
    ensures d.rect.width == c.rect.width && d.rect.height == c.rect.height
    ensures world.width >= c.rect.width ==> 0.0 <= d.rect.x <= world.width - c.rect.width
    ensures world.height >= c.rect.height ==> 0.0 <= d.rect.y <= world.height - c.rect.height
    ensures 0.0 <= c.rect.x <= world.width - c.rect.width ==> d.rect.x == c.rect.x && d.vx == c.vx
    ensures 0.0 <= c.rect.y <= world.height - c.rect.height ==>
      d.rect.y == c.rect.y && d.vy == c.vy && d.grounded == c.grounded
    ensures d.rect.x == c.rect.x || d.rect.x == 0.0 || d.rect.x == world.width - c.rect.width
    ensures d.rect.y == c.rect.y || d.rect.y == 0.0 || d.rect.y == world.height - c.rect.height
    ensures Abs(d.vx) <= Abs(c.vx) && Abs(d.vy) <= Abs(c.vy)
    ensures world.width >= c.rect.width && c.rect.x < 0.0 ==> d.vx == Max(0.0, c.vx)
    ensures world.width >= c.rect.width && c.rect.x > world.width - c.rect.width ==> d.vx == Min(0.0, c.vx)
    ensures world.height >= c.rect.height ==>
      d.grounded == (c.grounded || (gravityDir == -1 && c.rect.y < 0.0) || (gravityDir == 1 && c.rect.y > world.height - c.rect.height))
    ensures world.height >= c.rect.height && c.rect.y < 0.0 ==>
      d.vy == (if gravityDir == -1 then Max(0.0, c.vy) else 0.0)
    ensures world.height >= c.rect.height && c.rect.y > world.height - c.rect.height ==>
      d.vy == (if gravityDir == 1 then Min(0.0, c.vy) else 0.0)
  {
    var r := c.rect;
    var maxX := world.width - r.width;
    var maxY := world.height - r.height;
    var x1 := if r.x < 0.0 then 0.0 else r.x;
    var vx1 := if r.x < 0.0 then Max(0.0, c.vx) else c.vx;
    var x2 := if x1 > maxX then maxX else x1;
    var vx2 := if x1 > maxX then Min(0.0, vx1) else vx1;
    var y1 := if r.y < 0.0 then 0.0 else r.y;
    var vy1 := if r.y < 0.0 then (if gravityDir == -1 then Max(0.0, c.vy) else 0.0) else c.vy;
    var g1 := c.grounded || (r.y < 0.0 && gravityDir == -1);
    var y2 := if y1 > maxY then maxY else y1;
    var vy2 := if y1 > maxY then (if gravityDir == 1 then Min(0.0, vy1) else 0.0) else vy1;
    var g2 := g1 || (y1 > maxY && gravityDir == 1);
    Contact(r.(x := x2, y := y2), vx2, vy2, g2)
  }

  /**
   * An avatar's state as a value: the fields `syncPlayers` takes from the
   * server, then the ones only this client simulates (contact, gravity and
   * the ability timers).
   */
  datatype Profile = Profile(
    name: string, abilityId: string, abilityName: string,
    position: Vec, velocity: Vec, facing: real, spawnIndex: int,
    abilityUsed: bool, reachedGoal: bool,
    grounded: bool, gravityDir: int, abilityState: AbilityState)

  /**
   * Profile `p` holds what snapshot `s` says: its name, ability and flags, a
   * truthy facing or spawn index, and, for a remote player, any position or
   * velocity the snapshot carries.
   */
  predicate Reflects(p: Profile, s: Snapshot, isLocal: bool)
  {
    && p.name == s.name && p.abilityId == s.abilityId && p.abilityName == s.abilityName
    && p.abilityUsed == s.abilityUsed && p.reachedGoal == s.reachedGoal
    && p.facing == OrReal(s.facing, p.facing) && p.spawnIndex == OrInt(s.spawnIndex, p.spawnIndex)
    && (!isLocal && s.position.Some? ==> p.position == s.position.value)
    && (!isLocal && s.velocity.Some? ==> p.velocity == s.velocity.value)
  }

  /**
   * `updatePlayerFromSnapshot` on a profile: the server's name, ability and
   * flags; position and velocity only for a remote player; a falsy facing or
   * spawn index keeps the current one.
   */
  function Absorb(p: Profile, s: Snapshot, isLocal: bool): (q: Profile)
    ensures Reflects(q, s, isLocal)
    ensures isLocal ==> q.position == p.position && q.velocity == p.velocity
    ensures s.position.None? ==> q.position == p.position
    ensures s.velocity.None? ==> q.velocity == p.velocity
    ensures (s.facing.None? || s.facing == Some(0.0)) ==> q.facing == p.facing
    ensures q.grounded == p.grounded && q.gravityDir == p.gravityDir && q.abilityState == p.abilityState
  {
    Profile(s.name, s.abilityId, s.abilityName,
      if !isLocal && s.position.Some? then s.position.value else p.position,
      if !isLocal && s.velocity.Some? then s.velocity.value else p.velocity,
      OrReal(s.facing, p.facing), OrInt(s.spawnIndex, p.spawnIndex),
      s.abilityUsed, s.reachedGoal,
      p.grounded, p.gravityDir, p.abilityState)
  }

  /**
   * The profile `createPlayer` gives a new avatar: missing position and
   * velocity are zero, facing right, spawn 0; in the air, gravity down,
   * every ability idle.
   */
  function Spawned(s: Snapshot): (p: Profile)
    ensures Reflects(p, s, false) && Reflects(p, s, true)
    ensures s.position.None? ==> p.position == Zero
    ensures (s.facing.None? || s.facing == Some(0.0)) ==> p.facing == 1.0
    ensures !p.grounded && p.gravityDir == 1 && p.abilityState == Idle
  {
    Profile(s.name, s.abilityId, s.abilityName,
      if s.position.Some? then s.position.value else Zero,
      if s.velocity.Some? then s.velocity.value else Zero,
      OrReal(s.facing, 1.0), OrInt(s.spawnIndex, 0),
      s.abilityUsed, s.reachedGoal,
      false, 1, Idle)
  }

  /**
   * The client's record of one player (`createPlayer`). Position, velocity
   * and ability state are the record's sub-objects, held as values.
   */
  class Avatar {
    const id: string
    var name: string
    var abilityId: string
    var abilityName: string
    var position: Vec
    var velocity: Vec
    const width: real
    const height: real
    var facing: real
    var grounded: bool
    /** 1 when gravity pulls down, -1 while the ceiling ability is active. */
    var gravityDir: int
    var abilityUsed: bool
    var reachedGoal: bool
    var spawnIndex: int
    var abilityState: AbilityState

    /** The timers are consistent and gravity is flipped exactly while the ceiling ability is active. */
    ghost predicate Valid()
      reads this
    {
      && width == PlayerWidth && height == PlayerHeight
      && TimersOk(abilityState)
      && gravityDir == (if abilityState.ceilingActive then -1 else 1)
    }

    /** The avatar's state as a value. */
    ghost function Shown(): Profile
      reads this
    {
      Profile(name, abilityId, abilityName, position, velocity, facing, spawnIndex, abilityUsed, reachedGoal,
        grounded, gravityDir, abilityState)
    }

    /** The avatar `createPlayer` builds from `s`: the spawned profile, on no ground, gravity down, abilities idle. */
    ghost predicate Created(s: Snapshot)
      reads this
    {
      id == s.id && Shown() == Spawned(s)
    }

    /** `createPlayer(snapshot)`. */
    constructor (s: Snapshot)
      ensures Valid() && Created(s)
    {
      id := s.id;
      name := s.name;
      abilityId := s.abilityId;
      abilityName := s.abilityName;
      position := if s.position.Some? then s.position.value else Zero;
      velocity := if s.velocity.Some? then s.velocity.value else Zero;
      width := PlayerWidth;
      height := PlayerHeight;
      facing := OrReal(s.facing, 1.0);
      grounded := false;
      gravityDir := 1;
      abilityUsed := s.abilityUsed;
      reachedGoal := s.reachedGoal;
      spawnIndex := OrInt(s.spawnIndex, 0);
      abilityState := Idle;
    }

    /**
     * `updatePlayerFromSnapshot`: takes the server's name, ability and flags;
     * takes position and velocity only for remote players; a falsy facing or
     * spawn index keeps the current one.
     */
    method UpdateFromSnapshot(s: Snapshot, isLocal: bool)
      requires Valid()
      modifies this`name, this`abilityId, this`abilityName, this`position, this`velocity, this`facing, this`spawnIndex, this`abilityUsed, this`reachedGoal
      ensures Valid()
      ensures name == s.name && abilityId == s.abilityId && abilityName == s.abilityName
      ensures abilityUsed == s.abilityUsed && reachedGoal == s.reachedGoal
      ensures facing == OrReal(s.facing, old(facing)) && spawnIndex == OrInt(s.spawnIndex, old(spawnIndex))
      ensures position == if !isLocal && s.position.Some? then s.position.value else old(position)
      ensures velocity == if !isLocal && s.velocity.Some? then s.velocity.value else old(velocity)
      ensures Shown() == Absorb(old(Shown()), s, isLocal)
    {
      TakeLabels(s);
      TakePlacement(s, isLocal);
    }

    /** The names and flags half of `updatePlayerFromSnapshot`: always taken from the server. */
    method TakeLabels(s: Snapshot)
      modifies this`name, this`abilityId, this`abilityName, this`abilityUsed, this`reachedGoal
      ensures name == s.name && abilityId == s.abilityId && abilityName == s.abilityName
      ensures abilityUsed == s.abilityUsed && reachedGoal == s.reachedGoal
    {
      name := s.name;
      abilityId := s.abilityId;
      abilityName := s.abilityName;
      abilityUsed := s.abilityUsed;
      reachedGoal := s.reachedGoal;
    }

    /**
     * The placement half of `updatePlayerFromSnapshot`: position and velocity
     * for a remote player only, facing and spawn index only when truthy.
     */
    method TakePlacement(s: Snapshot, isLocal: bool)
      modifies this`position, this`velocity, this`facing, this`spawnIndex
      ensures position == if !isLocal && s.position.Some? then s.position.value else old(position)
      ensures velocity == if !isLocal && s.velocity.Some? then s.velocity.value else old(velocity)
      ensures facing == OrReal(s.facing, old(facing)) && spawnIndex == OrInt(s.spawnIndex, old(spawnIndex))
    {
      if s.position.Some? && !isLocal {
        position := s.position.value;
      }
      if s.velocity.Some? && !isLocal {
        velocity := s.velocity.value;
      }
      facing := OrReal(s.facing, facing);
      spawnIndex := OrInt(s.spawnIndex, spawnIndex);
    }

    /**
     * `applyAbilityState`: starts the named ability's timer (a dash also
     * fixes its direction, the ceiling walk flips gravity), gives the local
     * player the ability's impulse, and marks the ability used.
     */
    method ApplyAbilityState(ability: string, direction: Option<int>, isLocal: bool)
      requires Valid()
      modifies this`abilityState, this`gravityDir, this`velocity, this`abilityUsed
      ensures Valid()
      ensures abilityUsed
      ensures ability == "phase-walker" ==>
        abilityState == old(abilityState).(phaseActive := true, phaseTimer := PhaseDuration)
      ensures ability == "dash-sprinter" ==>
        var dir := if direction == Some(-1) then -1 else 1;
        && abilityState == old(abilityState).(dashActive := true, dashTimer := DashDuration, dashDirection := dir)
        && velocity == (if isLocal then old(velocity).(x := dir as real * DashSpeed) else old(velocity))
      ensures ability == "ceiling-walker" ==>
        && abilityState == old(abilityState).(ceilingActive := true, ceilingTimer := CeilingDuration)
        && gravityDir == -1
        && velocity == (if isLocal then old(velocity).(y := -JumpSpeed) else old(velocity))
      ensures ability !in {"phase-walker", "dash-sprinter", "ceiling-walker"} ==> abilityState == old(abilityState)
      ensures ability != "ceiling-walker" ==> gravityDir == old(gravityDir)
      ensures ability !in {"dash-sprinter", "ceiling-walker"} ==> velocity == old(velocity)
      ensures abilityState == Activated(old(abilityState), ability, if direction == Some(-1) then -1 else 1)
      ensures velocity == if isLocal then Impulse(old(velocity), ability, if direction == Some(-1) then -1 else 1) else old(velocity)
    {
      if ability == "phase-walker" {
        abilityState := abilityState.(phaseActive := true, phaseTimer := PhaseDuration);
      } else if ability == "dash-sprinter" {
        var dir := if direction == Some(-1) then -1 else 1;
        abilityState := abilityState.(dashActive := true, dashTimer := DashDuration, dashDirection := dir);
        if isLocal {
          velocity := velocity.(x := dir as real * DashSpeed);
        }
      } else if ability == "ceiling-walker" {
        abilityState := abilityState.(ceilingActive := true, ceilingTimer := CeilingDuration);
        gravityDir := -1;
        if isLocal {
          velocity := velocity.(y := -JumpSpeed);
        }
      }
      abilityUsed := true;
    }

    /**
     * The local player's half of `triggerAbility`: its own ability fires,
     * a dash going the way the player faces.
     */
    method Activate()
      requires Valid()
      modifies this`abilityState, this`gravityDir, this`velocity, this`abilityUsed
      ensures Valid()
      ensures
        var dir := if old(facing) >= 0.0 then 1 else -1;
        && abilityUsed
        && abilityState == Activated(old(abilityState), abilityId, dir)
        && velocity == Impulse(old(velocity), abilityId, dir)
        && gravityDir == (if abilityId == "ceiling-walker" then -1 else old(gravityDir))
      ensures Shown() == old(Shown()).(abilityUsed := true, velocity := velocity, abilityState := abilityState, gravityDir := gravityDir)
    {
      var direction := if abilityId == "dash-sprinter" then Some(if facing >= 0.0 then 1 else -1) else None;
      ApplyAbilityState(abilityId, direction, true);
    }

    /** `resetAbilityState`: ability unused, gravity down, every ability idle; the last dash direction is kept. */
    method ResetAbilityState()
      requires Valid()
      modifies this`abilityUsed, this`gravityDir, this`abilityState
      ensures Valid()
      ensures !abilityUsed && gravityDir == 1
      ensures abilityState == Idle.(dashDirection := old(abilityState).dashDirection)
    {
      abilityUsed := false;
      gravityDir := 1;
      abilityState := AbilityState(false, 0.0, false, 0.0, abilityState.dashDirection, false, 0.0);
    }

    /**
     * `updateAbilityTimers`: runs every active timer down by `delta`; when
     * the ceiling walk ends, gravity points down again.
     */
    method UpdateAbilityTimers(delta: real)
      requires Valid()
      modifies this`abilityState, this`gravityDir
      ensures Valid()
      ensures abilityState == Expire(old(abilityState), delta)
      ensures gravityDir == if old(abilityState).ceilingActive && !abilityState.ceilingActive then 1 else old(gravityDir)
    {
      var state := abilityState;
      if state.phaseActive {
        state := state.(phaseTimer := state.phaseTimer - delta);
        if state.phaseTimer <= 0.0 {
          state := state.(phaseTimer := 0.0, phaseActive := false);
        }
      }
      if state.dashActive {
        state := state.(dashTimer := state.dashTimer - delta);
        if state.dashTimer <= 0.0 {
          state := state.(dashTimer := 0.0, dashActive := false);
        }
      }
      if state.ceilingActive {
        state := state.(ceilingTimer := state.ceilingTimer - delta);
        if state.ceilingTimer <= 0.0 {
          state := state.(ceilingTimer := 0.0, ceilingActive := false);
          gravityDir := 1;
        }
      }
      abilityState := state;
    }

    /**
     * `applyInputToPlayer`: accelerate toward the held direction up to the
     * move speed, or slow down by friction and snap to rest below 1; a dash
     * overrides the horizontal speed; a jump only from the ground, away from
     * the current gravity.
     */
    method ApplyInput(input: Input, delta: real)
      requires Valid()
      modifies this`velocity, this`facing, this`grounded
      ensures Valid()
      ensures !abilityState.dashActive && Direction(input) != 0 ==>
        -MoveSpeed <= velocity.x <= MoveSpeed && facing == Direction(input) as real
      ensures !abilityState.dashActive && Direction(input) == 0 ==>
        && Abs(velocity.x) <= Abs(old(velocity).x) && (velocity.x == 0.0 || Abs(velocity.x) >= 1.0)
        && (velocity.x == 0.0 || velocity.x == (if old(grounded) then Friction else AirFriction) * old(velocity).x)
      ensures abilityState.dashActive ==> velocity.x == abilityState.dashDirection as real * DashSpeed
      ensures input.jump && old(grounded) ==> velocity.y == -(gravityDir as real) * JumpSpeed && !grounded
      ensures !(input.jump && old(grounded)) ==> velocity.y == old(velocity).y && grounded == old(grounded)
      ensures (abilityState.dashActive || Direction(input) == 0) ==> facing == old(facing)
      ensures !abilityState.dashActive && Direction(input) != 0 ==>
        velocity.x == Clip(old(velocity).x + Direction(input) as real * (if old(grounded) then Accel else AirAccel) * delta)
      ensures !abilityState.dashActive && Direction(input) == 0 ==>
        velocity.x == Damp(old(velocity).x, if old(grounded) then Friction else AirFriction)
      ensures velocity == Driven(old(velocity), input, old(grounded), abilityState, gravityDir, delta)
      ensures grounded == (old(grounded) && !input.jump)
    {
      ghost var target := Driven(velocity, input, grounded, abilityState, gravityDir, delta);
      var accel := if grounded then Accel else AirAccel;
      var direction := Direction(input);
      var vx := velocity.x;
      if !abilityState.dashActive {
        if direction != 0 {
          vx := vx + direction as real * accel * delta;
          ghost var raw := vx;
          if vx > MoveSpeed { vx := MoveSpeed; }
          if vx < -MoveSpeed { vx := -MoveSpeed; }
          assert vx == Clip(raw);
          facing := if direction >= 0 then 1.0 else -1.0;
        } else {
          ghost var f := if grounded then Friction else AirFriction;
          vx := vx * (if grounded then Friction else AirFriction);
          if Abs(vx) < 1.0 {
            vx := 0.0;
          }
          assert vx == Damp(velocity.x, f);
        }
      } else {
        vx := abilityState.dashDirection as real * DashSpeed;
      }
      var vy := velocity.y;
      if input.jump && grounded {
        var jumpDirection := if gravityDir == -1 then -1 else 1;
        vy := -(jumpDirection as real) * JumpSpeed;
        grounded := false;
      }
      assert target == Vec(vx, vy);
      velocity := Vec(vx, vy);
    }

    /**
     * `clampWorld`: keeps the box inside the world, turns velocity away from
     * the edge it was clamped to, and grounds the player on the edge gravity
     * pulls toward.
     */
    method ClampWorld(level: Option<Level>)
      requires Valid()
      modifies this`position, this`velocity, this`grounded
      ensures Valid()
      ensures level.None? ==> position == old(position) && velocity == old(velocity) && grounded == old(grounded)
      ensures level.Some? && level.value.world.width >= width ==> 0.0 <= position.x <= level.value.world.width - width
      ensures level.Some? && level.value.world.height >= height ==> 0.0 <= position.y <= level.value.world.height - height
      ensures level.Some? && old(position).x < 0.0 ==> velocity.x >= 0.0
      ensures level.Some? && old(position).x > level.value.world.width - width ==> velocity.x <= 0.0
      ensures level.Some? && old(position).y < 0.0 ==> velocity.y >= 0.0
      ensures level.Some? && old(position).y > level.value.world.height - height ==> velocity.y <= 0.0
      ensures Abs(velocity.x) <= Abs(old(velocity).x) && Abs(velocity.y) <= Abs(old(velocity).y)
      ensures level.Some? && level.value.world.height >= height && grounded && !old(grounded) ==>
        (gravityDir == 1 && position.y == level.value.world.height - height) || (gravityDir == -1 && position.y == 0.0)
      ensures level.Some? ==>
        Contact(Rect(position.x, position.y, width, height), velocity.x, velocity.y, grounded)
        == Clamped(Contact(Rect(old(position).x, old(position).y, width, height), old(velocity).x, old(velocity).y, old(grounded)),
                   level.value.world, gravityDir)
    {
      if level.None? {
        return;
      }
      var world := level.value.world;
      var x, y, vx, vy := position.x, position.y, velocity.x, velocity.y;
      if x < 0.0 {
        x := 0.0;
        vx := Max(0.0, vx);
      }
      var maxX := world.width - width;
      if x > maxX {
        x := maxX;
        vx := Min(0.0, vx);
      }
      if y < 0.0 {
        y := 0.0;
        if gravityDir == -1 {
          grounded := true;
          vy := Max(0.0, vy);
        } else {
          vy := 0.0;
        }
      }
      var maxY := world.height - height;
      if y > maxY {
        y := maxY;
        if gravityDir == 1 {
          grounded := true;
          vy := Min(0.0, vy);
        } else {
          vy := 0.0;
        }
      }
      position, velocity := Vec(x, y), Vec(vx, vy);
    }

    /**
     * `resolveCollisions`: clears `grounded`, then pushes the box out of
     * every platform it overlaps, in level order, skipping walls while
     * phasing. The outcome is the `Settle` fold over the platforms.
     */
    method ResolveCollisions(level: Option<Level>)
      requires Valid()
      modifies this`position, this`velocity, this`grounded
      ensures Valid()
      ensures level.None? ==> position == old(position) && velocity == old(velocity) && grounded == old(grounded)
      ensures level.Some? ==>
        Contact(Rect(position.x, position.y, width, height), velocity.x, velocity.y, grounded)
        == Settle(Contact(Rect(old(position).x, old(position).y, width, height), old(velocity).x, old(velocity).y, false),
                  level.value.platforms, abilityState.phaseActive, abilityId, gravityDir)
    {
      if level.None? {
        return;
      }
      var rect := Rect(position.x, position.y, width, height);
      var vx, vy, onGround := velocity.x, velocity.y, false;
      var ps := level.value.platforms;
      var phasing := abilityState.phaseActive;
      ghost var start := Contact(rect, vx, vy, false);
      for i := 0 to |ps|
        invariant Contact(rect, vx, vy, onGround) == Settle(start, ps[..i], phasing, abilityId, gravityDir)
        invariant rect.width == width && rect.height == height
        invariant unchanged(this)
      {
        var platform := ps[i];
        assert ps[..i + 1][..i] == ps[..i];
        if Skipped(phasing, abilityId, platform) {
          continue;
        }
        var tile := Tile(platform);
        if !Intersect(rect, tile) {
          continue;
        }
        rect, vx, vy, onGround := PushOut(rect, vx, vy, onGround, tile, gravityDir);
      }
      assert ps[..|ps|] == ps;
      position, velocity, grounded := Vec(rect.x, rect.y), Vec(vx, vy), onGround;
    }

    /**
     * The gravity and integration of `stepPlayer`: the vertical speed gains
     * `gravity` per second within the fall-speed cap, then the position moves
     * by the new velocity.
     */
    method Integrate(gravity: real, delta: real)
      requires Valid()
      modifies this`velocity, this`position
      ensures Valid()
      ensures Contact(Rect(position.x, position.y, width, height), velocity.x, velocity.y, false)
        == Integrated(old(position), old(velocity), gravity, delta, width, height)
    {
      var vy := velocity.y + gravity * delta;
      if vy > MaxFallSpeed {
        vy := MaxFallSpeed;
      }
      if vy < -MaxFallSpeed {
        vy := -MaxFallSpeed;
      }
      velocity, position := velocity.(y := vy), Vec(position.x + velocity.x * delta, position.y + vy * delta);
    }

    /**
     * The second half of `stepPlayer`: gravity toward the current gravity
     * direction, integration, collision and the world clamp, in that order.
     */
    method Fly(level: Option<Level>, delta: real)
      requires Valid()
      modifies this`velocity, this`grounded, this`position
      ensures Valid()
      ensures -MaxFallSpeed <= velocity.y <= MaxFallSpeed
      ensures level.Some? && level.value.world.width >= width ==> 0.0 <= position.x <= level.value.world.width - width
      ensures level.Some? && level.value.world.height >= height ==> 0.0 <= position.y <= level.value.world.height - height
      ensures
        var moved := Integrated(old(position), old(velocity), (if level.Some? then level.value.world.gravity else 0.0) * gravityDir as real, delta, width, height);
        && (level.Some? ==>
              Contact(Rect(position.x, position.y, width, height), velocity.x, velocity.y, grounded)
              == Clamped(Settle(moved, level.value.platforms, abilityState.phaseActive, abilityId, gravityDir), level.value.world, gravityDir))
        && (level.None? ==>
              position == Vec(moved.rect.x, moved.rect.y) && velocity == Vec(moved.vx, moved.vy) && grounded == old(grounded))
    {
      var gravity := (if level.Some? then level.value.world.gravity else 0.0) * gravityDir as real;
      Integrate(gravity, delta);
      ghost var moved := Contact(Rect(position.x, position.y, width, height), velocity.x, velocity.y, false);
      assert moved == Integrated(old(position), old(velocity), gravity, delta, width, height);
      ResolveCollisions(level);
      if level.Some? {
        SettleSlows(moved, level.value.platforms, abilityState.phaseActive, abilityId, gravityDir);
      }
      ghost var settled := Contact(Rect(position.x, position.y, width, height), velocity.x, velocity.y, grounded);
      ClampWorld(level);
      assert gravity == (if level.Some? then level.value.world.gravity else 0.0) * gravityDir as real;
      if level.Some? {
        assert settled == Settle(moved, level.value.platforms, abilityState.phaseActive, abilityId, gravityDir);
        assert Contact(Rect(position.x, position.y, width, height), velocity.x, velocity.y, grounded) == Clamped(settled, level.value.world, gravityDir);
      }
    }

    /**
     * `stepPlayer`: timers, then (for the local player) input, then the
     * gravity, integration, collision and world clamp of `Fly`.
     */
    method Step(level: Option<Level>, input: Input, delta: real, isLocal: bool)
      requires Valid()
      modifies this`abilityState, this`gravityDir, this`velocity, this`facing, this`grounded, this`position
      ensures Valid()
      ensures -MaxFallSpeed <= velocity.y <= MaxFallSpeed
      ensures level.Some? && level.value.world.width >= width ==> 0.0 <= position.x <= level.value.world.width - width
      ensures level.Some? && level.value.world.height >= height ==> 0.0 <= position.y <= level.value.world.height - height
      ensures abilityState == Expire(old(abilityState), delta)
      ensures facing == if isLocal && !abilityState.dashActive && Direction(input) != 0 then Direction(input) as real else old(facing)
      ensures
        var v := if isLocal then Driven(old(velocity), input, old(grounded), abilityState, gravityDir, delta) else old(velocity);
        var moved := Integrated(old(position), v, (if level.Some? then level.value.world.gravity else 0.0) * gravityDir as real, delta, width, height);
        && (level.Some? ==>
              Contact(Rect(position.x, position.y, width, height), velocity.x, velocity.y, grounded)
              == Clamped(Settle(moved, level.value.platforms, abilityState.phaseActive, abilityId, gravityDir), level.value.world, gravityDir))
        && (level.None? ==>
              && position == Vec(moved.rect.x, moved.rect.y) && velocity == Vec(moved.vx, moved.vy)
              && grounded == (old(grounded) && !(isLocal && input.jump)))
    {
      UpdateAbilityTimers(delta);
      if isLocal {
        ApplyInput(input, delta);
      }
      Fly(level, delta);
    }
  }

  /**
   * The body of the platform loop in `resolveCollisions` once the box
   * overlaps the tile: push out along the axis of smaller penetration.
   */
  method PushOut(rect: Rect, vx: real, vy: real, onGround: bool, tile: Rect, gravityDir: int)
    returns (rect': Rect, vx': real, vy': real, onGround': bool)
    requires Intersect(rect, tile)
    ensures Contact(rect', vx', vy', onGround') == Push(Contact(rect, vx, vy, onGround), tile, gravityDir)
  {
    rect', vx', vy', onGround' := rect, vx, vy, onGround;
    var overlapLeft := rect.x + rect.width - tile.x;
    var overlapRight := tile.x + tile.width - rect.x;
    var overlapTop := rect.y + rect.height - tile.y;
    var overlapBottom := tile.y + tile.height - rect.y;
    var minHorizontal := Min(overlapLeft, overlapRight);
    var minVertical := Min(overlapTop, overlapBottom);
    if minHorizontal < minVertical {
      if overlapLeft < overlapRight {
        rect' := rect.(x := rect.x - overlapLeft);
      } else {
        rect' := rect.(x := rect.x + overlapRight);
      }
      vx' := 0.0;
    } else {
      if overlapTop < overlapBottom {
        rect' := rect.(y := rect.y - overlapTop);
        if gravityDir == 1 {
          onGround' := true;
          vy' := 0.0;
        } else {
          vy' := Min(vy', 0.0);
        }
      } else {
        rect' := rect.(y := rect.y + overlapBottom);
        if gravityDir == -1 {
          onGround' := true;
          vy' := 0.0;
        } else {
          vy' := Max(vy', 0.0);
        }
      }
    }
  }

  /** The ids the snapshots mention. */
  function Ids(snapshots: seq<Snapshot>): set<string>
  {
    set s | s in snapshots :: s.id
  }

  lemma IdsSnoc(snapshots: seq<Snapshot>, i: nat)
    requires i < |snapshots|
    ensures Ids(snapshots[..i + 1]) == Ids(snapshots[..i]) + {snapshots[i].id}
  {
    assert snapshots[..i + 1] == snapshots[..i] + [snapshots[i]];
  }

  /** The position of the last snapshot with `id`; `syncPlayers` leaves that snapshot's data in the avatar. */
  function LastIndex(snapshots: seq<Snapshot>, id: string): (k: nat)
    requires id in Ids(snapshots)
    ensures k < |snapshots| && snapshots[k].id == id
    ensures forall j :: k < j < |snapshots| ==> snapshots[j].id != id
    decreases |snapshots|
  {
    var n := |snapshots| - 1;
    IdsSnoc(snapshots, n);
    assert snapshots[..n + 1] == snapshots;
    if snapshots[n].id == id then n else LastIndex(snapshots[..n], id)
  }

  /** Each id of `snapshots` mapped to its last snapshot: what `syncPlayers` leaves in the avatars. */
  function Latest(snapshots: seq<Snapshot>): map<string, Snapshot>
  {
    if snapshots == [] then map[]
    else
      var n := |snapshots| - 1;
      Latest(snapshots[..n])[snapshots[n].id := snapshots[n]]
  }

  /** `Latest` has an entry for exactly the ids the snapshots carry. */
  lemma {:induction false} LatestKeys(snapshots: seq<Snapshot>)
    ensures Latest(snapshots).Keys == Ids(snapshots)
    decreases |snapshots|
  {
    if snapshots != [] {
      var n := |snapshots| - 1;
      LatestKeys(snapshots[..n]);
      IdsSnoc(snapshots, n);
      assert snapshots[..n + 1] == snapshots;
    }
  }

  /** `Latest` takes, for every id, the snapshot at `LastIndex`. */
  lemma {:induction false} LatestIsLast(snapshots: seq<Snapshot>, id: string)
    requires id in Ids(snapshots)
    ensures id in Latest(snapshots) && Latest(snapshots)[id] == snapshots[LastIndex(snapshots, id)]
    decreases |snapshots|
  {
    var n := |snapshots| - 1;
    IdsSnoc(snapshots, n);
    assert snapshots[..n + 1] == snapshots;
    if snapshots[n].id != id {
      LatestIsLast(snapshots[..n], id);
    }
  }

  /** One snapshot of `syncPlayers` on the profiles: update the one with that id, or spawn it. */
  function Merge(roster: map<string, Profile>, s: Snapshot, localId: Option<string>): (r: map<string, Profile>)
    ensures r.Keys == roster.Keys + {s.id}
    ensures Reflects(r[s.id], s, localId == Some(s.id))
    ensures forall id :: id in roster && id != s.id ==> r[id] == roster[id]
  {
    roster[s.id := if s.id in roster then Absorb(roster[s.id], s, localId == Some(s.id)) else Spawned(s)]
  }

  /** The update-or-create pass of `syncPlayers` on the profiles, snapshot by snapshot. */
  function Synced(roster: map<string, Profile>, snapshots: seq<Snapshot>, localId: Option<string>): (r: map<string, Profile>)
  {
    if snapshots == [] then roster
    else
      var n := |snapshots| - 1;
      Merge(Synced(roster, snapshots[..n], localId), snapshots[n], localId)
  }

  /** The pass keeps every id it had and adds one per snapshot id, no more. */
  lemma {:induction false} SyncedKeys(roster: map<string, Profile>, snapshots: seq<Snapshot>, localId: Option<string>)
    ensures Synced(roster, snapshots, localId).Keys == roster.Keys + Latest(snapshots).Keys
    decreases |snapshots|
  {
    if snapshots != [] {
      SyncedKeys(roster, snapshots[..|snapshots| - 1], localId);
    }
  }

  lemma SyncedSnoc(roster: map<string, Profile>, snapshots: seq<Snapshot>, localId: Option<string>, i: nat)
    requires i < |snapshots|
    ensures Synced(roster, snapshots[..i + 1], localId) == Merge(Synced(roster, snapshots[..i], localId), snapshots[i], localId)
  {
    assert snapshots[..i + 1][..i] == snapshots[..i];
  }

  /** The pass never moves the local player: its position and velocity are the ones it had. */
  lemma {:induction false} SyncedKeepsLocal(roster: map<string, Profile>, snapshots: seq<Snapshot>, localId: Option<string>)
    requires localId.Some? && localId.value in roster
    ensures localId.value in Synced(roster, snapshots, localId)
    ensures Synced(roster, snapshots, localId)[localId.value].position == roster[localId.value].position
    ensures Synced(roster, snapshots, localId)[localId.value].velocity == roster[localId.value].velocity
    decreases |snapshots|
  {
    if snapshots != [] {
      SyncedKeepsLocal(roster, snapshots[..|snapshots| - 1], localId);
    }
  }

  /** After the pass, every id's profile holds the last snapshot with that id. */
  lemma {:induction false} SyncedReflects(roster: map<string, Profile>, snapshots: seq<Snapshot>, localId: Option<string>, id: string)
    requires id in Ids(snapshots)
    ensures id in Latest(snapshots) && id in Synced(roster, snapshots, localId)
    ensures Reflects(Synced(roster, snapshots, localId)[id], Latest(snapshots)[id], localId == Some(id))
    decreases |snapshots|
  {
    var n := |snapshots| - 1;
    IdsSnoc(snapshots, n);
    assert snapshots[..n + 1] == snapshots;
    if snapshots[n].id != id {
      SyncedReflects(roster, snapshots[..n], localId, id);
    }
  }

  /** Whatever subset of the pass's ids `view` keeps, each holds the last snapshot with its id. */
  lemma KeptReflect(view: map<string, Profile>, roster: map<string, Profile>, snapshots: seq<Snapshot>, localId: Option<string>)
    requires forall id :: id in view ==>
      id in Ids(snapshots) && id in Synced(roster, snapshots, localId) && view[id] == Synced(roster, snapshots, localId)[id]
    ensures forall id :: id in view ==> id in Latest(snapshots) && Reflects(view[id], Latest(snapshots)[id], localId == Some(id))
  {
    forall id | id in view
      ensures id in Latest(snapshots) && Reflects(view[id], Latest(snapshots)[id], localId == Some(id))
    {
      SyncedReflects(roster, snapshots, localId, id);
    }
  }

  /** The client's view of the session: the avatar map and what gates the ability key. */
  class Game {
    var players: map<string, Avatar>
    var localId: Option<string>
    /** The server has told this client its ability. */
    var hasAbility: bool
    /** The session is still waiting for its team. */
    var waiting: bool
    /** Every avatar this client has created. */
    ghost var Repr: set<Avatar>
    /** Every avatar's state as a value, by id. */
    ghost var View: map<string, Profile>

    /** Every avatar is filed under its own id, is valid, belongs to `Repr` and shows its `View` entry. */
    ghost predicate Valid()
      reads this, Repr
    {
      && View.Keys == players.Keys
      && forall id :: id in players ==>
        players[id] in Repr && players[id].id == id && players[id].Valid() && players[id].Shown() == View[id]
    }

    constructor ()
      ensures Valid() && players == map[] && localId.None? && !hasAbility && !waiting
    {
      players := map[];
      Repr := {};
      View := map[];
      localId := None;
      hasAbility := false;
      waiting := false;
    }

    /**
     * `syncPlayers`: creates an avatar for every new snapshot id, updates
     * the existing ones in place, then drops every avatar the snapshots do
     * not mention.
     */
    method SyncPlayers(snapshots: seq<Snapshot>)
      requires Valid()
      modifies this`players, this`Repr, this`View, Repr
      ensures Valid()
      ensures players.Keys == Ids(snapshots)
      ensures forall id :: id in players && id in old(players) ==> players[id] == old(players)[id]
      ensures localId.Some? && localId.value in View && localId.value in old(View) ==>
        View[localId.value].position == old(View)[localId.value].position &&
        View[localId.value].velocity == old(View)[localId.value].velocity
      ensures forall id :: id in View ==>
        id in Synced(old(View), snapshots, localId) && View[id] == Synced(old(View), snapshots, localId)[id]
      ensures forall id :: id in View ==>
        id in Latest(snapshots) && Reflects(View[id], Latest(snapshots)[id], localId == Some(id))
      ensures forall id :: id in players && id !in old(players) ==> fresh(players[id])
    {
      UpsertAll(snapshots);
      PruneUnseen(snapshots, old(View));
    }

    /**
     * The deletion pass of `syncPlayers` once the update-or-create pass has
     * run over `snapshots` from the profiles `before`: only the snapshot ids
     * stay, each holding its last snapshot.
     */
    method PruneUnseen(snapshots: seq<Snapshot>, ghost before: map<string, Profile>)
      requires Valid() && View == Synced(before, snapshots, localId)
      modifies this`players, this`View
      ensures Valid()
      ensures players.Keys == Ids(snapshots)
      ensures forall id :: id in players ==> id in old(players) && players[id] == old(players)[id]
      ensures forall id :: id in View ==> id in old(View) && View[id] == old(View)[id]
      ensures localId.Some? && localId.value in View && localId.value in before ==>
        View[localId.value].position == before[localId.value].position &&
        View[localId.value].velocity == before[localId.value].velocity
      ensures forall id :: id in View ==>
        id in Latest(snapshots) && Reflects(View[id], Latest(snapshots)[id], localId == Some(id))
    {
      SyncedKeys(before, snapshots, localId);
      LatestKeys(snapshots);
      Prune(Ids(snapshots));
      if localId.Some? && localId.value in before {
        SyncedKeepsLocal(before, snapshots, localId);
      }
      KeptReflect(View, before, snapshots, localId);
    }

    /** The update-or-create pass of `syncPlayers`, one snapshot at a time. */
    method UpsertAll(snapshots: seq<Snapshot>)
      requires Valid()
      modifies this`players, this`Repr, this`View, Repr
      ensures Valid()
      ensures forall id :: id in old(players) ==> id in players && players[id] == old(players)[id]
      ensures forall id :: id in players && id !in old(players) ==> fresh(players[id])
      ensures View == Synced(old(View), snapshots, localId)
    {
      for i := 0 to |snapshots|
        invariant Valid()
        invariant old(players).Keys <= players.Keys
        invariant forall id :: id in old(players) ==> players[id] == old(players)[id]
        invariant forall a :: a in Repr ==> a in old(Repr) || fresh(a)
        invariant forall id :: id in players && id !in old(players) ==> fresh(players[id])
        invariant View == Synced(old(View), snapshots[..i], localId)
      {
        SyncedSnoc(old(View), snapshots, localId, i);
        Upsert(snapshots[i]);
      }
      assert snapshots[..|snapshots|] == snapshots;
    }

    /** The deletion pass of `syncPlayers`: drops every avatar whose id is not in `keep`. */
    method Prune(keep: set<string>)
      requires Valid()
      modifies this`players, this`View
      ensures Valid()
      ensures players.Keys == old(players).Keys * keep
      ensures forall id :: id in players ==> players[id] == old(players)[id]
      ensures forall id :: id in View ==> id in keep && id in old(View) && View[id] == old(View)[id]
    {
      players := map id | id in players && id in keep :: players[id];
      View := map id | id in View && id in keep :: View[id];
    }

    /** One snapshot of `syncPlayers`: update the avatar with that id in place, or create it. */
    method Upsert(s: Snapshot)
      requires Valid()
      modifies this`players, this`Repr, this`View, Repr
      ensures Valid()
      ensures players.Keys == old(players).Keys + {s.id}
      ensures forall id :: id in old(players) ==> players[id] == old(players)[id]
      ensures forall a :: a in Repr ==> a in old(Repr) || fresh(a)
      ensures s.id !in old(players) ==> fresh(players[s.id]) && players[s.id].Created(s)
      ensures View == Merge(old(View), s, localId)
    {
      if s.id in players {
        Refresh(s);
      } else {
        Spawn(s);
      }
    }

    /** The update half of `Upsert`: the avatar with that id takes the snapshot in place. */
    method Refresh(s: Snapshot)
      requires Valid() && s.id in players
      modifies players[s.id], this`View
      ensures players == old(players) && Repr == old(Repr)
      ensures Valid()
      ensures View == Merge(old(View), s, localId)
    {
      var avatar := players[s.id];
      avatar.UpdateFromSnapshot(s, localId == Some(s.id));
      View := View[s.id := avatar.Shown()];
    }

    /** The create half of `Upsert`: a fresh avatar for an id the client has not seen. */
    method Spawn(s: Snapshot)
      requires Valid() && s.id !in players
      modifies this`players, this`Repr, this`View
      ensures Valid()
      ensures s.id in players && players == old(players)[s.id := players[s.id]]
      ensures fresh(players[s.id]) && players[s.id].Created(s)
      ensures Repr == old(Repr) + {players[s.id]}
      ensures View == Merge(old(View), s, localId)
    {
      var avatar := new Avatar(s);
      players := players[s.id := avatar];
      Repr := Repr + {avatar};
      View := View[s.id := avatar.Shown()];
    }
    /**
     * `triggerAbility`: fires only for a local player that knows its
     * ability, outside the waiting phase, with the ability unused and none
     * active; a dash goes the way the player faces.
     */
    method TriggerAbility() returns (fired: bool)
      requires Valid()
      modifies this`View, Repr
      ensures Valid()
      ensures fired <==> (localId.Some? && localId.value in players && hasAbility && !waiting &&
        !old(players[localId.value].abilityUsed) && !AnyActive(old(players[localId.value].abilityState)))
      ensures fired ==> players[localId.value].abilityUsed
      ensures fired && players[localId.value].abilityId == "dash-sprinter" ==>
        players[localId.value].abilityState.dashDirection == (if old(players[localId.value].facing) >= 0.0 then 1 else -1)
      ensures !fired ==> forall id :: id in players ==> unchanged(players[id])
      ensures fired ==>
        var p := players[localId.value];
        var dir := if old(p.facing) >= 0.0 then 1 else -1;
        && p.abilityState == Activated(old(p.abilityState), p.abilityId, dir)
        && p.velocity == Impulse(old(p.velocity), p.abilityId, dir)
        && p.gravityDir == (if p.abilityId == "ceiling-walker" then -1 else old(p.gravityDir))
        && View == old(View)[localId.value := old(View)[localId.value].(abilityUsed := true, velocity := p.velocity, abilityState := p.abilityState, gravityDir := p.gravityDir)]
      ensures fired ==> forall id :: id in players && id != localId.value ==> unchanged(players[id])
    {
      fired := false;
      if localId.None? || localId.value !in players || !hasAbility {
        return;
      }
      if waiting {
        return;
      }
      var player := players[localId.value];
      if player.abilityUsed || AnyActive(player.abilityState) {
        return;
      }
      Fire(localId.value);
      fired := true;
    }

    /** The firing half of `TriggerAbility`: the avatar filed under `me` activates its own ability the way it faces. */
    method Fire(me: string)
      requires Valid() && me in players
      modifies players[me], this`View
      ensures Valid() && players == old(players)
      ensures
        var p := players[me];
        var dir := if old(p.facing) >= 0.0 then 1 else -1;
        && p.abilityUsed
        && p.abilityState == Activated(old(p.abilityState), p.abilityId, dir)
        && p.velocity == Impulse(old(p.velocity), p.abilityId, dir)
        && p.gravityDir == (if p.abilityId == "ceiling-walker" then -1 else old(p.gravityDir))
      ensures
        var p := players[me];
        View == old(View)[me := old(View)[me].(abilityUsed := true, velocity := p.velocity, abilityState := p.abilityState, gravityDir := p.gravityDir)]
    {
      var player := players[me];
      player.Activate();
      View := View[me := player.Shown()];
    }
  }
}
