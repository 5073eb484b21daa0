/**
 * The single-player retro variant (public/js/retro-platformer.js): a 20 by 20
 * box moved in fixed steps with a double jump, three built-in levels of
 * platforms and collectable dots, a run timer that the first move key arms
 * on level 0, and a local best-five leaderboard.
 */
module Retro {
  import opened Wrappers
  import opened Levels
  import opened Collision
  import Ranking
  import Clock

  const Gravity: real := 0.8
  const Speed: real := 6.0
  const JumpVelocity: real := -14.0
  /** The player box is `BoxSize` wide and high. */
  const BoxSize: real := 20.0
  const BoardSize: nat := 5

  /** A collectable dot: its centre and its pick-up radius. */
  datatype Dot = Dot(x: real, y: real, hitR: real)

  /** One built-in level: the spawn point, the platforms and the dots. */
  datatype Stage = Stage(spawn: Vec, plats: seq<Rect>, dots: seq<Dot>)

  /** A leaderboard entry: a finishing time in milliseconds and the name typed for it. */
  datatype Score = Score(ms: real, name: string)

  function ScoreMs(s: Score): real { s.ms }

  /** `makeDot(x, y)`: every dot has pick-up radius 18. */
  function MakeDot(x: real, y: real): Dot { Dot(x, y, 18.0) }

  /** The three built-in levels (platform colours are left out). */
  const Stages: seq<Stage> := [
    Stage(Vec(60.0, 380.0),
      [Rect(0.0, 480.0, 900.0, 40.0), Rect(140.0, 420.0, 160.0, 20.0), Rect(360.0, 360.0, 120.0, 20.0),
       Rect(560.0, 300.0, 160.0, 20.0), Rect(760.0, 260.0, 100.0, 20.0)],
      [MakeDot(180.0, 400.0), MakeDot(420.0, 340.0), MakeDot(600.0, 280.0), MakeDot(800.0, 240.0)]),
    Stage(Vec(40.0, 420.0),
      [Rect(0.0, 480.0, 900.0, 40.0), Rect(120.0, 420.0, 100.0, 20.0), Rect(280.0, 370.0, 120.0, 20.0),
       Rect(470.0, 420.0, 120.0, 20.0), Rect(640.0, 360.0, 120.0, 20.0), Rect(820.0, 300.0, 80.0, 20.0),
       Rect(740.0, 240.0, 60.0, 20.0)],
      [MakeDot(160.0, 400.0), MakeDot(320.0, 350.0), MakeDot(520.0, 400.0), MakeDot(680.0, 340.0),
       MakeDot(850.0, 280.0)]),
    Stage(Vec(60.0, 440.0),
      [Rect(0.0, 480.0, 900.0, 40.0), Rect(120.0, 430.0, 90.0, 20.0), Rect(240.0, 380.0, 90.0, 20.0),
       Rect(360.0, 330.0, 90.0, 20.0), Rect(480.0, 280.0, 90.0, 20.0), Rect(600.0, 230.0, 90.0, 20.0),
       Rect(720.0, 185.0, 120.0, 20.0), Rect(820.0, 145.0, 60.0, 20.0)],
      [MakeDot(150.0, 410.0), MakeDot(270.0, 360.0), MakeDot(390.0, 310.0), MakeDot(510.0, 260.0),
       MakeDot(630.0, 210.0), MakeDot(760.0, 170.0), MakeDot(850.0, 130.0)])
  ]

  /** The keys that start the run timer on level 0. */
  const StartKeys: set<string> := {"ArrowLeft", "ArrowRight", "KeyA", "KeyD", "Space", "KeyW", "ArrowUp"}

  /** The keys that jump. */
  const JumpKeys: set<string> := {"Space", "KeyW", "ArrowUp"}

  /** JavaScript truthiness of a timer reading: absent and zero are both false. */
  predicate Truthy(t: Option<real>) { t.Some? && t.value != 0.0 }

  // ---------------------------------------------------------------- fmt

  /**
   * The fields `fmt` prints for a reading: whole minutes, then seconds and
   * milliseconds taken with JavaScript's truncating `%` of the floored count.
   */
  function FmtFields(ms: real): (f: (int, int, int))
    ensures ms >= 0.0 ==> 0 <= f.0 && 0 <= f.1 < 60 && 0 <= f.2 < 1000
    ensures ms >= 0.0 ==> 60000 * f.0 + 1000 * f.1 + f.2 == ms.Floor
  {
    var total := ms.Floor;
    var minutes := (total as real / 60000.0).Floor;
    var seconds := (Clock.JsRemInt(total, 60000) as real / 1000.0).Floor;
    var millis := Clock.JsRemInt(total, 1000);
    if total >= 0 then
      Clock.FloorIntDiv(total, 60000);
      Clock.FloorIntDiv(total % 60000, 1000);
      Clock.SplitMillis(total);
      (minutes, seconds, millis)
    else
      (minutes, seconds, millis)
  }

  /** `fmt(ms)`: `00:00.000` without a reading, otherwise zero-padded `MM:SS.mmm`. */
  function Fmt(ms: Option<real>): (r: string)
    ensures (ms.None? || ms.value >= 0.0) ==> Clock.ClockShaped(r)
    ensures (ms.None? || 0.0 <= ms.value < 6000000.0) ==> |r| == 9
  {
    match ms
    case None => "00:00.000"
    case Some(t) =>
      var f := FmtFields(t);
      if t >= 0.0 then
        Clock.ClockTextShape(f.0, f.1, f.2);
        Clock.ClockText(f.0, f.1, f.2)
      else
        Clock.ClockText(f.0, f.1, f.2)
  }

  /** A non-negative reading prints as text that reads back as its whole milliseconds. */
  lemma FmtRoundTrip(ms: real)
    requires ms >= 0.0
    ensures var r := Clock.ParseClock(Fmt(Some(ms))); r.Some? && r.value == ms.Floor
  {
    var f := FmtFields(ms);
    Clock.ClockTextRoundTrip(f.0, f.1, f.2);
  }

  /** No reading prints exactly as a zero reading does. */
  lemma FmtNoneIsZero()
    ensures Fmt(None) == Fmt(Some(0.0))
  {
    var f := FmtFields(0.0);
    assert f == (0, 0, 0);
    assert Clock.Field(0, 2) == "00" && Clock.Field(0, 3) == "000";
  }

  // ---------------------------------------------------------------- aabb and resolve

  /**
   * `aabb(a, b)`: the boxes are not separated along either axis, which is
   * the strict overlap test of the co-op client.
   */
  predicate Aabb(a: Rect, b: Rect)
    ensures Aabb(a, b) <==> Intersect(a, b)
  {
    !(a.x + a.width <= b.x || a.x >= b.x + b.width || a.y + a.height <= b.y || a.y >= b.y + b.height)
  }

  /** Penetrations of the box `b` into the platform `t`, named as in `resolve`. */
  function Dx1(b: Rect, t: Rect): real { t.x + t.width - b.x }
  function Dx2(b: Rect, t: Rect): real { b.x + b.width - t.x }
  function Dy1(b: Rect, t: Rect): real { t.y + t.height - b.y }
  function Dy2(b: Rect, t: Rect): real { b.y + b.height - t.y }

  /** The horizontal penetration is the smaller one: the platform pushes sideways. */
  predicate SideHit(b: Rect, t: Rect) {
    Min(Dx1(b, t), Dx2(b, t)) < Min(Dy1(b, t), Dy2(b, t))
  }

  /** The platform pushes the box up onto its top. */
  predicate Lands(b: Rect, t: Rect) {
    Aabb(b, t) && !SideHit(b, t) && !(Dy1(b, t) < Dy2(b, t))
  }

  /**
   * One push-out: flush against the side of the platform the box entered
   * least, stopping the motion into it; landing on top grounds the box.
   */
  function Knock(c: Contact, t: Rect): (d: Contact)
    requires Aabb(c.rect, t)
    ensures !Aabb(d.rect, t)
    ensures d.rect.width == c.rect.width && d.rect.height == c.rect.height
    ensures Abs(d.vx) <= Abs(c.vx) && Abs(d.vy) <= Abs(c.vy)
    ensures SideHit(c.rect, t) ==>
      && d.vx == 0.0 && d.rect.y == c.rect.y && d.vy == c.vy && d.grounded == c.grounded
      && (d.rect.x == t.x + t.width || d.rect.x + d.rect.width == t.x)
    ensures !SideHit(c.rect, t) ==> d.rect.x == c.rect.x && d.vx == c.vx
    ensures Lands(c.rect, t) ==> d.grounded && d.vy == 0.0 && d.rect.y + d.rect.height == t.y
    ensures !Lands(c.rect, t) ==> d.grounded == c.grounded
    ensures !SideHit(c.rect, t) && !Lands(c.rect, t) ==> d.vy >= 0.0 && d.rect.y == t.y + t.height
  {
    var b := c.rect;
    if Min(Dx1(b, t), Dx2(b, t)) < Min(Dy1(b, t), Dy2(b, t)) then
      c.(rect := b.(x := if Dx1(b, t) < Dx2(b, t) then t.x + t.width else t.x - b.width), vx := 0.0)
    else if Dy1(b, t) < Dy2(b, t) then
      c.(rect := b.(y := t.y + t.height), vy := Max(0.0, c.vy))
    else
      c.(rect := b.(y := t.y - b.height), vy := 0.0, grounded := true)
  }

  /**
   * The platform pass of `resolve`: every overlapped platform, in level
   * order, pushes the box out. It never clears the grounded flag, and once a
   * landing has grounded the box no later push gives it vertical speed again.
   */
  function Sweep(c: Contact, plats: seq<Rect>): (r: Contact)
    ensures c.grounded ==> r.grounded
    ensures r.grounded && !c.grounded ==> r.vy == 0.0
  {
    if plats == [] then c
    else
      var d := Sweep(c, plats[..|plats| - 1]);
      var t := plats[|plats| - 1];
      if Aabb(d.rect, t) then Knock(d, t) else d
  }

  /**
   * The screen clamp of `resolve`: a box past the left edge goes to 0, then
   * one past the right edge goes flush with it; either stops the horizontal
   * motion.
   */
  function ScreenClamp(c: Contact, screenWidth: real): (d: Contact)
    ensures d.rect.x <= screenWidth - c.rect.width
    ensures screenWidth >= c.rect.width ==> 0.0 <= d.rect.x
    ensures d.rect.x != c.rect.x ==> d.vx == 0.0
    ensures 0.0 <= c.rect.x <= screenWidth - c.rect.width ==> d == c
    ensures d.rect.y == c.rect.y && d.rect.width == c.rect.width && d.rect.height == c.rect.height
    ensures d.vy == c.vy && d.grounded == c.grounded
  {
    var e := if c.rect.x < 0.0 then c.(rect := c.rect.(x := 0.0), vx := 0.0) else c;
    if e.rect.x + e.rect.width > screenWidth then e.(rect := e.rect.(x := screenWidth - e.rect.width), vx := 0.0) else e
  }

  /**
   * What `resolve(px, py, vx, vy)` returns against the platforms `plats` on a
   * screen `screenWidth` wide: the box keeps its size, ends on screen
   * horizontally and is grounded only at rest.
   */
  function Resolved(px: real, py: real, vx: real, vy: real, plats: seq<Rect>, screenWidth: real): (r: Contact)
    ensures r.rect.x <= screenWidth - BoxSize
    ensures screenWidth >= BoxSize ==> 0.0 <= r.rect.x
    ensures r.rect.width == BoxSize && r.rect.height == BoxSize
    ensures r.grounded ==> r.vy == 0.0
  {
    var start := Contact(Rect(px, py, BoxSize, BoxSize), vx, vy, false);
    SweepKeepsSize(start, plats);
    ScreenClamp(Sweep(start, plats), screenWidth)
  }

  /** The pass never changes the size of the box. */
  lemma {:induction false} SweepKeepsSize(c: Contact, plats: seq<Rect>)
    ensures Sweep(c, plats).rect.width == c.rect.width && Sweep(c, plats).rect.height == c.rect.height
  {
    if plats != [] {
      SweepKeepsSize(c, plats[..|plats| - 1]);
    }
  }

  /** A grounded box is at rest vertically, before the pass and so after it. */
  lemma {:induction false} SweepGroundedAtRest(c: Contact, plats: seq<Rect>)
    requires c.grounded ==> c.vy == 0.0
    ensures Sweep(c, plats).grounded ==> Sweep(c, plats).vy == 0.0
  {
    if plats != [] {
      SweepGroundedAtRest(c, plats[..|plats| - 1]);
    }
  }

  /** The pass ends grounded only if it started grounded or some platform it met pushed the box onto its top. */
  lemma {:induction false} SweepGroundedWitness(c: Contact, plats: seq<Rect>)
    requires Sweep(c, plats).grounded
    ensures c.grounded || exists i :: 0 <= i < |plats| && Lands(Sweep(c, plats[..i]).rect, plats[i])
  {
    if plats != [] {
      var n := |plats| - 1;
      var before := Sweep(c, plats[..n]);
      if before.grounded {
        SweepGroundedWitness(c, plats[..n]);
        if !c.grounded {
          var i :| 0 <= i < n && Lands(Sweep(c, plats[..n][..i]).rect, plats[..n][i]);
          assert plats[..n][..i] == plats[..i];
        }
      } else {
        assert Lands(before.rect, plats[n]);
      }
    }
  }

  // ---------------------------------------------------------------- dots

  /** The player box at (`px`, `py`) has its centre strictly inside the dot's pick-up circle. */
  predicate Hit(d: Dot, px: real, py: real) {
    var dx := px + BoxSize / 2.0 - d.x;
    var dy := py + BoxSize / 2.0 - d.y;
    dx * dx + dy * dy < d.hitR * d.hitR
  }

  /** The `collected` flags after the dot loop of `tick` with the player at (`px`, `py`). */
  function Collected(flags: seq<bool>, dots: seq<Dot>, px: real, py: real): (r: seq<bool>)
    requires |flags| == |dots|
    ensures |r| == |flags|
    ensures forall i :: 0 <= i < |r| && flags[i] ==> r[i]
    ensures forall i :: 0 <= i < |r| && Hit(dots[i], px, py) ==> r[i]
    ensures forall i :: 0 <= i < |r| && r[i] ==> flags[i] || Hit(dots[i], px, py)
  {
    seq(|flags|, i requires 0 <= i < |flags| => flags[i] || Hit(dots[i], px, py))
  }

  /** `level.dots.every((dot) => dot.collected)`. */
  predicate AllSet(flags: seq<bool>) {
    forall i :: 0 <= i < |flags| ==> flags[i]
  }

  /** Every flag cleared, one per dot of `dots`. */
  function Cleared(dots: seq<Dot>): (r: seq<bool>)
    ensures |r| == |dots| && forall i :: 0 <= i < |r| ==> !r[i]
  {
    seq(|dots|, _ => false)
  }

  // ---------------------------------------------------------------- leaderboard

  /**
   * The local leaderboard after `pushTime(ms)` with the name typed at the
   * prompt: unchanged for an empty name, otherwise the entry is pushed, the
   * table sorted by time and cut to five.
   */
  function Pushed(board: seq<Score>, ms: real, name: string): (r: seq<Score>)
    ensures name == "" ==> r == board
    ensures name != "" ==>
      var all := board + [Score(ms, name)];
      |r| == Ranking.Min(BoardSize, |all|) && multiset(r) <= multiset(all)
  {
    if name == "" then board
    else
      var sorted := Ranking.SortByKey(board + [Score(ms, name)], ScoreMs);
      var k := Ranking.Min(BoardSize, |board| + 1);
      assert sorted == sorted[..k] + sorted[k..];
      sorted[..k]
  }

  /**
   * After a push with a name the table is sorted by time, holds at most five
   * entries, all of them from the old table or the new entry, and no entry
   * dropped is faster than one kept.
   */
  lemma PushedKeepsBest(board: seq<Score>, ms: real, name: string)
    requires name != ""
    ensures var r := Pushed(board, ms, name);
      var all := board + [Score(ms, name)];
      && Ranking.Sorted(r, ScoreMs)
      && |r| <= BoardSize && |r| == Ranking.Min(BoardSize, |all|)
      && multiset(r) <= multiset(all)
      && forall x, y :: x in multiset(all) - multiset(r) && y in r ==> y.ms <= x.ms
  {
    var all := board + [Score(ms, name)];
    Ranking.PrefixKeepsBest(all, ScoreMs, Ranking.Min(BoardSize, |all|));
    Ranking.PrefixDropsSlower(all, ScoreMs, Ranking.Min(BoardSize, |all|));
  }

  // ---------------------------------------------------------------- the game state

  /** The keys held decide the horizontal speed: left wins over right. */
  function Steer(keys: set<string>): (v: real)
    ensures v == -Speed <==> "ArrowLeft" in keys || "KeyA" in keys
    ensures v == Speed <==> !("ArrowLeft" in keys || "KeyA" in keys) && ("ArrowRight" in keys || "KeyD" in keys)
    ensures v == 0.0 <==> !("ArrowLeft" in keys || "KeyA" in keys || "ArrowRight" in keys || "KeyD" in keys)
  {
    if "ArrowLeft" in keys || "KeyA" in keys then -Speed
    else if "ArrowRight" in keys || "KeyD" in keys then Speed
    else 0.0
  }

  /**
   * The module state of the retro page: the player, the current level, the
   * dots' flags, the run timer, the held keys and the stored leaderboard.
   */
  class Platformer {
    /** The built-in levels. */
    const levels: seq<Stage>
    /** The canvas size. */
    const screenWidth: real
    const screenHeight: real
    var x: real
    var y: real
    var vx: real
    var vy: real
    var onGround: bool
    var jumpsUsed: int
    var levelIdx: nat
    /** One flag per dot of every level. */
    var collected: seq<seq<bool>>
    var firstMoveArmed: bool
    var timerStart: Option<real>
    var timerEnd: Option<real>
    var keys: set<string>
    /** The leaderboard as stored between page loads. */
    var board: seq<Score>

    /** The current level exists, each level has one flag per dot, and at most two jumps are spent. */
    ghost predicate Valid()
      reads this
    {
      && |levels| > 0
      && levelIdx < |levels|
      && |collected| == |levels|
      && (forall k :: 0 <= k < |levels| ==> |collected[k]| == |levels[k].dots|)
      && 0 <= jumpsUsed <= 2
    }

    /** The player stands at the current level's spawn point, at rest and with both jumps available. */
    ghost predicate AtSpawn()
      requires levelIdx < |levels|
      reads this
    {
      && x == levels[levelIdx].spawn.x && y == levels[levelIdx].spawn.y
      && vx == 0.0 && vy == 0.0 && !onGround && jumpsUsed == 0
    }

    /** `init()`: the stored leaderboard, then level 0 loaded and the player at its spawn. */
    constructor (screenWidth: real, screenHeight: real, stored: seq<Score>)
      ensures levels == Stages
      ensures Valid() && levelIdx == 0 && AtSpawn()
      ensures firstMoveArmed && timerStart.None? && timerEnd.None?
      ensures keys == {} && board == stored
      ensures forall k :: 0 <= k < |Stages| ==> collected[k] == Cleared(Stages[k].dots)
    {
      levels := Stages;
      this.screenWidth := screenWidth;
      this.screenHeight := screenHeight;
      x, y, vx, vy := 60.0, 0.0, 0.0, 0.0;
      onGround, jumpsUsed := false, 0;
      levelIdx := 0;
      collected := seq(|Stages|, k requires 0 <= k < |Stages| => Cleared(Stages[k].dots));
      firstMoveArmed := true;
      timerStart, timerEnd := None, None;
      keys := {};
      board := stored;
      new;
      LoadLevel(0);
      ResetToSpawn();
    }

    /** `resetDots(level)`: clears the flag of every dot of level `index`. */
    method ResetDots(index: nat)
      requires Valid() && index < |levels|
      modifies this`collected
      ensures Valid()
      ensures collected == old(collected)[index := Cleared(levels[index].dots)]
    {
      var flags := collected[index];
      for i := 0 to |flags|
        invariant |flags| == |levels[index].dots|
        invariant forall k :: 0 <= k < i ==> !flags[k]
      {
        flags := flags[i := false];
      }
      assert flags == Cleared(levels[index].dots);
      collected := collected[index := flags];
    }

    /** `resetToSpawn()`: back to the current level's spawn point, at rest, jumps restored. */
    method ResetToSpawn()
      requires Valid()
      modifies this`x, this`y, this`vx, this`vy, this`onGround, this`jumpsUsed
      ensures Valid() && AtSpawn()
    {
      x, y := levels[levelIdx].spawn.x, levels[levelIdx].spawn.y;
      vx, vy := 0.0, 0.0;
      onGround, jumpsUsed := false, 0;
    }

    /**
     * `loadLevel(index)`: makes `index` current, clears its dots, puts the
     * player at its spawn, and re-arms the timer when it is level 0.
     */
    method LoadLevel(index: nat)
      requires Valid() && index < |levels|
      modifies this`levelIdx, this`collected, this`x, this`y, this`vx, this`vy, this`onGround, this`jumpsUsed,
        this`firstMoveArmed, this`timerStart, this`timerEnd
      ensures Valid() && levelIdx == index && AtSpawn()
      ensures collected == old(collected)[index := Cleared(levels[index].dots)]
      ensures index == 0 ==> firstMoveArmed && timerStart.None? && timerEnd.None?
      ensures index != 0 ==>
        firstMoveArmed == old(firstMoveArmed) && timerStart == old(timerStart) && timerEnd == old(timerEnd)
    {
      levelIdx := index;
      ResetDots(levelIdx);
      ResetToSpawn();
      if levelIdx == 0 {
        firstMoveArmed := true;
        timerStart := None;
        timerEnd := None;
      }
    }

    /**
     * The keydown handler: records the key; the first start key on level 0
     * starts the timer; a jump key jumps from the ground, or once more in
     * the air.
     */
    method KeyDown(code: string, now: real)
      requires Valid()
      modifies this`keys, this`firstMoveArmed, this`timerStart, this`timerEnd, this`vy, this`onGround, this`jumpsUsed
      ensures Valid()
      ensures keys == old(keys) + {code}
      ensures old(firstMoveArmed) && levelIdx == 0 && code in StartKeys ==>
        !firstMoveArmed && timerStart == Some(now) && timerEnd.None?
      ensures !(old(firstMoveArmed) && levelIdx == 0 && code in StartKeys) ==>
        firstMoveArmed == old(firstMoveArmed) && timerStart == old(timerStart) && timerEnd == old(timerEnd)
      ensures code in JumpKeys && old(onGround) ==> vy == JumpVelocity && !onGround && jumpsUsed == 1
      ensures code in JumpKeys && !old(onGround) && old(jumpsUsed) < 2 ==>
        vy == JumpVelocity && !onGround && jumpsUsed == old(jumpsUsed) + 1
      ensures !(code in JumpKeys && (old(onGround) || old(jumpsUsed) < 2)) ==>
        vy == old(vy) && onGround == old(onGround) && jumpsUsed == old(jumpsUsed)
    {
      keys := keys + {code};
      if firstMoveArmed && levelIdx == 0 && code in StartKeys {
        firstMoveArmed := false;
        timerStart := Some(now);
        timerEnd := None;
      }
      if code in JumpKeys {
        if onGround {
          vy := JumpVelocity;
          onGround := false;
          jumpsUsed := 1;
        } else if jumpsUsed < 2 {
          vy := JumpVelocity;
          jumpsUsed := jumpsUsed + 1;
        }
      }
    }

    /** The keyup handler: forgets the key. */
    method KeyUp(code: string)
      modifies this`keys
      ensures keys == old(keys) - {code}
    {
      keys := keys - {code};
    }

    /**
     * `resolve(px, py, vx, vy)` against the current level: the platform
     * pass as a loop over a local box, then the screen clamp.
     */
    method Resolve(px: real, py: real, vx: real, vy: real) returns (r: Contact)
      requires Valid()
      ensures r == Resolved(px, py, vx, vy, levels[levelIdx].plats, screenWidth)
    {
      var plats := levels[levelIdx].plats;
      var box := Rect(px, py, BoxSize, BoxSize);
      var vx, vy, grounded := vx, vy, false;
      ghost var start := Contact(box, vx, vy, false);
      for i := 0 to |plats|
        invariant Contact(box, vx, vy, grounded) == Sweep(start, plats[..i])
      {
        var rect := plats[i];
        assert plats[..i + 1][..i] == plats[..i];
        if !Aabb(box, rect) {
          continue;
        }
        var dx1 := rect.x + rect.width - box.x;
        var dx2 := box.x + box.width - rect.x;
        var dy1 := rect.y + rect.height - box.y;
        var dy2 := box.y + box.height - rect.y;
        var penX := Min(dx1, dx2);
        var penY := Min(dy1, dy2);
        if penX < penY {
          if dx1 < dx2 {
            box := box.(x := rect.x + rect.width);
          } else {
            box := box.(x := rect.x - box.width);
          }
          vx := 0.0;
        } else {
          if dy1 < dy2 {
            box := box.(y := rect.y + rect.height);
            vy := Max(0.0, vy);
          } else {
            box := box.(y := rect.y - box.height);
            vy := 0.0;
            grounded := true;
          }
        }
      }
      assert plats[..|plats|] == plats;
      if box.x < 0.0 {
        box := box.(x := 0.0);
        vx := 0.0;
      }
      if box.x + box.width > screenWidth {
        box := box.(x := screenWidth - box.width);
        vx := 0.0;
      }
      r := Contact(box, vx, vy, grounded);
    }

    /**
     * The movement part of `tick`: speed from the held keys, gravity, the
     * resolved step, landing restores the jumps, and falling more than 200
     * below the screen sends the player back to the spawn.
     */
    method Move()
      requires Valid()
      modifies this`x, this`y, this`vx, this`vy, this`onGround, this`jumpsUsed
      ensures Valid()
      ensures var r := Resolved(old(x) + Steer(keys), old(y) + old(vy) + Gravity, Steer(keys), old(vy) + Gravity,
                                levels[levelIdx].plats, screenWidth);
        if r.rect.y > screenHeight + 200.0 then AtSpawn()
        else
          && x == r.rect.x && y == r.rect.y && vx == r.vx && vy == r.vy && onGround == r.grounded
          && jumpsUsed == (if r.grounded then 0 else old(jumpsUsed))
      ensures onGround ==> jumpsUsed == 0 && vy == 0.0
    {
      ghost var target := Resolved(x + Steer(keys), y + vy + Gravity, Steer(keys), vy + Gravity, levels[levelIdx].plats, screenWidth);
      vx := Steer(keys);
      vy := vy + Gravity;
      var r := Resolve(x + vx, y + vy, vx, vy);
      assert r == target;
      Land(r);
    }

    /** Takes the resolved step: a landing restores the jumps, a fall far below the screen respawns. */
    method Land(r: Contact)
      requires Valid() && (r.grounded ==> r.vy == 0.0)
      modifies this`x, this`y, this`vx, this`vy, this`onGround, this`jumpsUsed
      ensures Valid()
      ensures if r.rect.y > screenHeight + 200.0 then AtSpawn()
        else
          && x == r.rect.x && y == r.rect.y && vx == r.vx && vy == r.vy && onGround == r.grounded
          && jumpsUsed == (if r.grounded then 0 else old(jumpsUsed))
      ensures onGround ==> jumpsUsed == 0 && vy == 0.0
    {
      x, y, vx, vy, onGround := r.rect.x, r.rect.y, r.vx, r.vy, r.grounded;
      if onGround {
        jumpsUsed := 0;
      }
      if y > screenHeight + 200.0 {
        ResetToSpawn();
      }
    }

    /** The dot loop of `tick`: every uncollected dot the player's centre is inside gets collected. */
    method CollectDots()
      requires Valid()
      modifies this`collected
      ensures Valid()
      ensures collected == old(collected)[levelIdx := Collected(old(collected)[levelIdx], levels[levelIdx].dots, x, y)]
    {
      var dots := levels[levelIdx].dots;
      var flags := collected[levelIdx];
      ghost var start := flags;
      for i := 0 to |dots|
        invariant |flags| == |dots|
        invariant forall k :: 0 <= k < i ==> flags[k] == (start[k] || Hit(dots[k], x, y))
        invariant forall k :: i <= k < |dots| ==> flags[k] == start[k]
      {
        if flags[i] {
          continue;
        }
        var dx := x + BoxSize / 2.0 - dots[i].x;
        var dy := y + BoxSize / 2.0 - dots[i].y;
        assert Hit(dots[i], x, y) <==> dx * dx + dy * dy < dots[i].hitR * dots[i].hitR;
        if dx * dx + dy * dy < dots[i].hitR * dots[i].hitR {
          flags := flags[i := true];
        }
      }
      assert flags == Collected(start, dots, x, y);
      collected := collected[levelIdx := flags];
    }

    /**
     * The finish of the last level in `tick`: the first time through with a
     * started timer it stops the timer and offers the time to the
     * leaderboard under the name typed at the prompt.
     */
    method StopTimer(now: real, name: string)
      modifies this`timerEnd, this`board
      ensures !Truthy(old(timerEnd)) && Truthy(timerStart) ==>
        timerEnd == Some(now - timerStart.value) && board == Pushed(old(board), now - timerStart.value, name)
      ensures !(!Truthy(old(timerEnd)) && Truthy(timerStart)) ==> timerEnd == old(timerEnd) && board == old(board)
    {
      if !Truthy(timerEnd) && Truthy(timerStart) {
        var elapsed := now - timerStart.value;
        timerEnd := Some(elapsed);
        PushTime(elapsed, name);
      }
    }

    /** `pushTime(ms)` with the name typed at the prompt (empty when cancelled). */
    method PushTime(ms: real, name: string)
      modifies this`board
      ensures board == Pushed(old(board), ms, name)
    {
      if name == "" {
        return;
      }
      board := Ranking.Record(board, Score(ms, name), ScoreMs, BoardSize);
    }

    /**
     * The progression part of `tick`, after the dot loop: with every dot of
     * the level collected, load the next level, or on the last level stop
     * the timer.
     */
    method Advance(now: real, name: string)
      requires Valid()
      modifies this
      ensures Valid()
      ensures old(LevelDone()) ==>
        && levelIdx == old(levelIdx) + 1 && AtSpawn()
        && collected == old(collected)[levelIdx := Cleared(levels[levelIdx].dots)]
      ensures !old(LevelDone()) ==>
        && levelIdx == old(levelIdx) && collected == old(collected)
        && x == old(x) && y == old(y) && vx == old(vx) && vy == old(vy) && onGround == old(onGround)
        && jumpsUsed == old(jumpsUsed)
      ensures old(RunDone()) ==>
        && timerEnd == Some(now - old(timerStart).value)
        && board == Pushed(old(board), now - old(timerStart).value, name)
      ensures !old(RunDone()) ==> timerEnd == old(timerEnd) && board == old(board)
      ensures timerStart == old(timerStart) && firstMoveArmed == old(firstMoveArmed) && keys == old(keys)
    {
      if AllSet(collected[levelIdx]) {
        if levelIdx < |levels| - 1 {
          LoadLevel(levelIdx + 1);
        } else {
          StopTimer(now, name);
        }
      }
    }

    /** Every dot of the current level is collected and a next level exists. */
    ghost predicate LevelDone()
      requires Valid()
      reads this
    {
      AllSet(collected[levelIdx]) && levelIdx < |levels| - 1
    }

    /** Every dot of the last level is collected while the timer runs and has not been stopped. */
    ghost predicate RunDone()
      requires Valid()
      reads this
    {
      AllSet(collected[levelIdx]) && levelIdx == |levels| - 1 && !Truthy(timerEnd) && Truthy(timerStart)
    }

    /** `tick()` without drawing: movement, the dot loop, then progression. */
    method Tick(now: real, name: string)
      requires Valid()
      modifies this
      ensures Valid()
      ensures levelIdx == old(levelIdx) || levelIdx == old(levelIdx) + 1
      ensures timerStart == old(timerStart) && firstMoveArmed == old(firstMoveArmed)
      ensures timerEnd != old(timerEnd) ==>
        !Truthy(old(timerEnd)) && Truthy(timerStart) && levelIdx == |levels| - 1 && timerEnd == Some(now - timerStart.value)
    {
      Move();
      CollectDots();
      Advance(now, name);
    }
  }
}
