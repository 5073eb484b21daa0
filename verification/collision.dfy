/**
 * Minimum-penetration-axis collision of the co-op client (public/js/game.js):
 * strict rectangle overlap, one push-out against one platform tile, and the
 * pass over all platforms in level order. The pass is a left fold here; the
 * client's `ResolveCollisions` method runs it as a loop and is proved equal
 * to it.
 */
module Collision {
  import opened Levels

  datatype Rect = Rect(x: real, y: real, width: real, height: real)

  /** The moving box and the parts of the player that a push can change. */
  datatype Contact = Contact(rect: Rect, vx: real, vy: real, grounded: bool)

  function Abs(r: real): real { if r < 0.0 then -r else r }

  function Min(a: real, b: real): real { if a < b then a else b }

  function Max(a: real, b: real): real { if a < b then b else a }

  /**
   * Strict overlap on both axes: for boxes of positive size, their spans
   * share an open stretch along x and along y.
   */
  predicate Intersect(a: Rect, b: Rect)
    ensures a.width > 0.0 && b.width > 0.0 && a.height > 0.0 && b.height > 0.0 ==>
      (Intersect(a, b) <==>
      && Max(a.x, b.x) < Min(a.x + a.width, b.x + b.width)
      && Max(a.y, b.y) < Min(a.y + a.height, b.y + b.height))
  {
    a.x < b.x + b.width && a.x + a.width > b.x && a.y < b.y + b.height && a.y + a.height > b.y
  }

  /** Overlap is symmetric. */
  lemma IntersectSymmetric(a: Rect, b: Rect)
    ensures Intersect(a, b) <==> Intersect(b, a)
  {
  }

  /** Boxes that share only an edge do not overlap. */
  lemma TouchingDoNotIntersect(a: Rect, b: Rect)
    requires a.x + a.width == b.x || b.x + b.width == a.x || a.y + a.height == b.y || b.y + b.height == a.y
    ensures !Intersect(a, b)
  {
  }

  function Tile(p: Platform): Rect {
    Rect(p.x, p.y, p.width, p.height)
  }

  /** A platform the phase ability lets the player walk through. */
  predicate Skipped(phaseActive: bool, abilityId: string, p: Platform) {
    phaseActive && abilityId == "phase-walker" && p.kind == "wall"
  }

  function OverlapLeft(r: Rect, t: Rect): real { r.x + r.width - t.x }
  function OverlapRight(r: Rect, t: Rect): real { t.x + t.width - r.x }
  function OverlapTop(r: Rect, t: Rect): real { r.y + r.height - t.y }
  function OverlapBottom(r: Rect, t: Rect): real { t.y + t.height - r.y }

  /** The smaller penetration is horizontal (ties go to the vertical axis). */
  predicate Horizontal(r: Rect, t: Rect) {
    Min(OverlapLeft(r, t), OverlapRight(r, t)) < Min(OverlapTop(r, t), OverlapBottom(r, t))
  }

  /** A vertical push toward the floor of the current gravity direction. */
  predicate GroundPush(r: Rect, t: Rect, gravityDir: int) {
    && Intersect(r, t)
    && !Horizontal(r, t)
    && (if OverlapTop(r, t) < OverlapBottom(r, t) then gravityDir == 1 else gravityDir == -1)
  }

  /**
   * One push-out: along the axis of smaller penetration, by exactly that
   * penetration, so the box ends flush against the tile.
   */
  function Push(c: Contact, t: Rect, gravityDir: int): (d: Contact)
    requires Intersect(c.rect, t)
    ensures !Intersect(d.rect, t)
    ensures d.rect.width == c.rect.width && d.rect.height == c.rect.height
    ensures Horizontal(c.rect, t) ==>
      && d.rect.y == c.rect.y && d.vx == 0.0 && d.vy == c.vy && d.grounded == c.grounded
      && (d.rect.x + d.rect.width == t.x || d.rect.x == t.x + t.width)
      && Abs(d.rect.x - c.rect.x) == Min(OverlapLeft(c.rect, t), OverlapRight(c.rect, t))
    ensures !Horizontal(c.rect, t) ==>
      && d.rect.x == c.rect.x && d.vx == c.vx
      && (d.rect.y + d.rect.height == t.y || d.rect.y == t.y + t.height)
      && Abs(d.rect.y - c.rect.y) == Min(OverlapTop(c.rect, t), OverlapBottom(c.rect, t))
    ensures Abs(d.vx) <= Abs(c.vx) && Abs(d.vy) <= Abs(c.vy)
    ensures d.grounded == (c.grounded || GroundPush(c.rect, t, gravityDir))
    ensures GroundPush(c.rect, t, gravityDir) ==> d.vy == 0.0
  {
    var r := c.rect;
    var left, right := OverlapLeft(r, t), OverlapRight(r, t);
    var top, bottom := OverlapTop(r, t), OverlapBottom(r, t);
    if Horizontal(r, t) then
      var x := if left < right then r.x - left else r.x + right;
      c.(rect := r.(x := x), vx := 0.0)
    else if top < bottom then
      var d := c.(rect := r.(y := r.y - top));
      if gravityDir == 1 then d.(grounded := true, vy := 0.0) else d.(vy := Min(c.vy, 0.0))
    else
      var d := c.(rect := r.(y := r.y + bottom));
      if gravityDir == -1 then d.(grounded := true, vy := 0.0) else d.(vy := Max(c.vy, 0.0))
  }

  /** One iteration of the platform loop: skipped and missed platforms leave the contact alone. */
  function Visit(c: Contact, p: Platform, phaseActive: bool, abilityId: string, gravityDir: int): Contact {
    if Skipped(phaseActive, abilityId, p) || !Intersect(c.rect, Tile(p)) then c
    else Push(c, Tile(p), gravityDir)
  }

  /**
   * The whole pass: platforms visited in level order. It never clears the
   * grounded flag, and once a push has grounded the box no later push gives
   * it vertical speed again.
   */
  function Settle(c: Contact, ps: seq<Platform>, phaseActive: bool, abilityId: string, gravityDir: int): (r: Contact)
    ensures c.grounded ==> r.grounded
    ensures r.grounded && !c.grounded ==> r.vy == 0.0
  {
    if ps == [] then c
    else Visit(Settle(c, ps[..|ps| - 1], phaseActive, abilityId, gravityDir), ps[|ps| - 1], phaseActive, abilityId, gravityDir)
  }

  /** The platforms of `ps` that are not walls, in level order. */
  function Solid(ps: seq<Platform>): (r: seq<Platform>)
    ensures forall p :: p in r <==> p in ps && p.kind != "wall"
  {
    if ps == [] then []
    else Solid(ps[..|ps| - 1]) + (if ps[|ps| - 1].kind == "wall" then [] else [ps[|ps| - 1]])
  }

  /**
   * Phasing as the phase walker is exactly a pass over the platforms with the
   * walls removed; with any other ability, or with phase off, nothing is
   * skipped.
   */
  lemma {:induction false} SettleSkipsWalls(c: Contact, ps: seq<Platform>, phaseActive: bool, abilityId: string, gravityDir: int)
    ensures Settle(c, ps, phaseActive, abilityId, gravityDir)
         == Settle(c, if phaseActive && abilityId == "phase-walker" then Solid(ps) else ps, false, abilityId, gravityDir)
  {
    if ps != [] {
      var init, p := ps[..|ps| - 1], ps[|ps| - 1];
      var phasing := phaseActive && abilityId == "phase-walker";
      var rest := if phasing then Solid(init) else init;
      var before := Settle(c, rest, false, abilityId, gravityDir);
      assert Settle(c, ps, phaseActive, abilityId, gravityDir) == Visit(before, p, phaseActive, abilityId, gravityDir) by {
        SettleSkipsWalls(c, init, phaseActive, abilityId, gravityDir);
      }
      if phasing && p.kind == "wall" {
        assert Solid(ps) == Solid(init);
      } else {
        var kept := if phasing then Solid(ps) else ps;
        assert kept[..|kept| - 1] == rest && kept[|kept| - 1] == p by {
          assert kept == rest + [p];
        }
      }
    }
  }

  /** No platform is hit along the way. */
  predicate Clear(c: Contact, ps: seq<Platform>, phaseActive: bool, abilityId: string) {
    forall p :: p in ps ==> Skipped(phaseActive, abilityId, p) || !Intersect(c.rect, Tile(p))
  }

  /** A box that overlaps no platform it may not pass through is left exactly where it is. */
  lemma {:induction false} ClearSettleUnchanged(c: Contact, ps: seq<Platform>, phaseActive: bool, abilityId: string, gravityDir: int)
    requires Clear(c, ps, phaseActive, abilityId)
    ensures Settle(c, ps, phaseActive, abilityId, gravityDir) == c
  {
    if ps != [] {
      var init := ps[..|ps| - 1];
      assert Clear(c, init, phaseActive, abilityId) by {
        forall p | p in init ensures p in ps { }
      }
      ClearSettleUnchanged(c, init, phaseActive, abilityId, gravityDir);
      assert ps[|ps| - 1] in ps;
    }
  }

  /** Collision never speeds the player up on either axis, and never changes the box size. */
  lemma {:induction false} SettleSlows(c: Contact, ps: seq<Platform>, phaseActive: bool, abilityId: string, gravityDir: int)
    ensures var d := Settle(c, ps, phaseActive, abilityId, gravityDir);
      && Abs(d.vx) <= Abs(c.vx) && Abs(d.vy) <= Abs(c.vy)
      && d.rect.width == c.rect.width && d.rect.height == c.rect.height
  {
    if ps != [] {
      SettleSlows(c, ps[..|ps| - 1], phaseActive, abilityId, gravityDir);
    }
  }

  /**
   * The pass ends grounded only if it started grounded or some platform it
   * visited pushed the box toward the floor of the current gravity direction.
   */
  lemma {:induction false} SettleGroundedWitness(c: Contact, ps: seq<Platform>, phaseActive: bool, abilityId: string, gravityDir: int)
    requires Settle(c, ps, phaseActive, abilityId, gravityDir).grounded
    ensures c.grounded || exists i :: (0 <= i < |ps| && !Skipped(phaseActive, abilityId, ps[i]) &&
      GroundPush(Settle(c, ps[..i], phaseActive, abilityId, gravityDir).rect, Tile(ps[i]), gravityDir))
  {
    if ps != [] {
      var n := |ps| - 1;
      var before := Settle(c, ps[..n], phaseActive, abilityId, gravityDir);
      if before.grounded {
        SettleGroundedWitness(c, ps[..n], phaseActive, abilityId, gravityDir);
        if !c.grounded {
          var i :| 0 <= i < n && !Skipped(phaseActive, abilityId, ps[..n][i])
            && GroundPush(Settle(c, ps[..n][..i], phaseActive, abilityId, gravityDir).rect, Tile(ps[..n][i]), gravityDir);
          assert ps[..n][..i] == ps[..i];
        }
      } else {
        assert GroundPush(before.rect, Tile(ps[n]), gravityDir);
      }
    }
  }
}
