/**
 * The pipes of the game, held in the sprite group that flappybird/game_functions.py
 * adds to, updates and empties. Each pipe is a value record named by the identity
 * the group gives it when it is added (identities are handed out in increasing
 * order and never reused). A pair made by one spawn is a bottom member (location 0,
 * even identity) and a top member (location 1, the next identity). The geometry
 * of a new pipe is that of package/pipe.py; a game pipe moves `velocity * dt` per
 * frame of `dt` milliseconds.
 */
module PipeGroups {
  import opened Geometry
  import opened Pipes
  import opened GameSettings

  datatype PipeRec = PipeRec(x: real, y: real, velocity: real, location: nat, rect: Rect)

  /** The location of the member hanging from the top of the screen. */
  const TOP_LOCATION: nat := 1

  /** A new member of the pair around gap centre `gapY`, just right of the screen. */
  function NewPipe(gapY: real, location: nat, cfg: Config): (p: PipeRec)
    ensures p.x == cfg.screenWidth as real + cfg.pipeWidth as real / 2.0
    ensures p.rect.left == cfg.screenWidth as real && p.rect.width == cfg.pipeWidth as real
    ensures p.rect.CenterX() == p.x
    ensures p.y == gapY && p.velocity == cfg.worldVelocity && p.location == location
    ensures location == TOP_LOCATION ==>
              p.rect.top == 0.0 && p.rect.Bottom() == gapY - cfg.gapHeight as real / 2.0
    ensures location != TOP_LOCATION ==>
              p.rect.top == gapY + cfg.gapHeight as real / 2.0 && p.rect.Bottom() == cfg.screenHeight as real
  {
    var x := cfg.screenWidth as real + cfg.pipeWidth as real / 2.0;
    var rect := PipeRect(x, gapY, location == TOP_LOCATION, cfg.screenHeight as real,
                         cfg.pipeWidth as real, cfg.gapHeight as real);
    PipeRec(x, gapY, cfg.worldVelocity, location, rect)
  }

  /** One frame of `dt` milliseconds for one pipe: it moves left by `velocity * dt`, its rect with it. */
  function Advance(p: PipeRec, dt: int): (q: PipeRec)
    ensures q.x == p.x - p.velocity * dt as real
    ensures q.rect.CenterX() == q.x
    ensures p.rect.CenterX() == p.x ==> q.rect.Right() == p.rect.Right() - p.velocity * dt as real
    ensures q.y == p.y && q.velocity == p.velocity && q.location == p.location
    ensures q.rect.top == p.rect.top && q.rect.width == p.rect.width && q.rect.height == p.rect.height
  {
    var x := p.x - p.velocity * dt as real;
    p.(x := x, rect := WithCenterX(p.rect, x))
  }

  /**
   * `pipes.update(dt)`: every pipe advances, and exactly those whose right edge is then
   * left of the screen leave the group.
   */
  function AdvanceAll(ps: map<nat, PipeRec>, dt: int): (r: map<nat, PipeRec>)
    ensures forall id :: id in r <==> id in ps && !OffScreen(Advance(ps[id], dt).rect)
    ensures forall id :: id in r ==> r[id] == Advance(ps[id], dt)
  {
    map id | id in ps && !OffScreen(Advance(ps[id], dt).rect) :: Advance(ps[id], dt)
  }

  /** The other member of the pair an identity belongs to. */
  function Partner(id: nat): nat {
    if id % 2 == 0 then id + 1 else id - 1
  }

  /**
   * A bottom and a top member that line up: same column, same gap centre, same speed,
   * and exactly `gapHeight` between the top member's bottom and the bottom member's top.
   */
  predicate Framed(bottom: PipeRec, top: PipeRec, gapHeight: real) {
    && bottom.x == top.x && bottom.y == top.y && bottom.velocity == top.velocity
    && bottom.rect.width == top.rect.width
    && bottom.rect.top - top.rect.Bottom() == gapHeight
  }

  /**
   * The group holds whole pairs only: every identity is below the next one to hand out,
   * its parity is its location, its rect is centred on it, its partner is present, and
   * each pair frames a gap of `gapHeight`. (The partner clause is instantiated only where
   * a proof names `Partner(id)`, so that it cannot feed itself new identities.)
   */
  ghost predicate Paired(ps: map<nat, PipeRec>, nextId: nat, gapHeight: real) {
    && nextId % 2 == 0
    && (forall id :: id in ps ==>
          id < nextId && ps[id].location == id % 2 && ps[id].rect.CenterX() == ps[id].x)
    && (forall id {:trigger Partner(id)} :: id in ps ==>
          && Partner(id) in ps
          && (id % 2 == 0 ==> Framed(ps[id], ps[Partner(id)], gapHeight)))
  }

  /** Members of a pair move together, so they leave the group together: pairs stay whole. */
  lemma AdvancePreservesPaired(ps: map<nat, PipeRec>, nextId: nat, gapHeight: real, dt: int)
    requires Paired(ps, nextId, gapHeight)
    ensures Paired(AdvanceAll(ps, dt), nextId, gapHeight)
  {
    var r := AdvanceAll(ps, dt);
    forall id | id in r
      ensures Partner(id) in r && (id % 2 == 0 ==> Framed(r[id], r[Partner(id)], gapHeight))
    {
      var p := Partner(id);
      if id % 2 == 0 {
        PairMovesTogether(ps, nextId, gapHeight, dt, id);
      } else {
        assert p in ps && p % 2 == 0;
        assert Partner(p) == id;
        PairMovesTogether(ps, nextId, gapHeight, dt, p);
      }
    }
  }

  /** The two members of the pair at even identity `id` stay or leave together, and stay framed. */
  lemma PairMovesTogether(ps: map<nat, PipeRec>, nextId: nat, gapHeight: real, dt: int, id: nat)
    requires Paired(ps, nextId, gapHeight) && id in ps && id % 2 == 0
    ensures var r := AdvanceAll(ps, dt);
            && Partner(id) in ps
            && (id in r <==> Partner(id) in r)
            && (id in r ==> Framed(r[id], r[Partner(id)], gapHeight))
  {
    var p := Partner(id);
    assert p in ps && Framed(ps[id], ps[p], gapHeight);
    var b, t := Advance(ps[id], dt), Advance(ps[p], dt);
    assert b.rect.Right() == t.rect.Right();
  }

  /** Adding a new pair around one gap centre under the next two identities keeps pairs whole. */
  lemma AddPairPreservesPaired(ps: map<nat, PipeRec>, nextId: nat, gapY: real, cfg: Config)
    requires Paired(ps, nextId, cfg.gapHeight as real)
    ensures Paired(ps[nextId := NewPipe(gapY, 0, cfg)][nextId + 1 := NewPipe(gapY, 1, cfg)],
                   nextId + 2, cfg.gapHeight as real)
  {
    var r := ps[nextId := NewPipe(gapY, 0, cfg)][nextId + 1 := NewPipe(gapY, 1, cfg)];
    forall id | id in r
      ensures Partner(id) in r && (id % 2 == 0 ==> Framed(r[id], r[Partner(id)], cfg.gapHeight as real))
    {
      var p := Partner(id);
      if id < nextId {
        assert p in ps && p < nextId;
      } else {
        assert id == nextId || id == nextId + 1;
      }
    }
  }

  /** A spawn adds exactly two pipes: the identities it uses are not in the group yet. */
  lemma AddPairAddsTwo(ps: map<nat, PipeRec>, nextId: nat, gapY: real, cfg: Config)
    requires Paired(ps, nextId, cfg.gapHeight as real)
    ensures |ps[nextId := NewPipe(gapY, 0, cfg)][nextId + 1 := NewPipe(gapY, 1, cfg)]| == |ps| + 2
  {
    assert nextId !in ps && nextId + 1 !in ps;
  }

  /**
   * For a gap centre in the range the game draws from, the top member is at least
   * `minPipeHeight` tall, and so is the part of the bottom member above the ground.
   */
  lemma GapLeavesMinPipe(gapY: real, cfg: Config)
    requires cfg == Derive(cfg.screenWidth, cfg.screenHeight, cfg.pipeWidth)
    requires cfg.gapYMin <= gapY <= cfg.gapYMax
    ensures NewPipe(gapY, 1, cfg).rect.height >= cfg.minPipeHeight as real
    ensures cfg.groundElev as real - NewPipe(gapY, 0, cfg).rect.top >= cfg.minPipeHeight as real
  {
    var top, bottom := NewPipe(gapY, 1, cfg), NewPipe(gapY, 0, cfg);
    assert top.rect.height == gapY - 90.0;
    assert bottom.rect.top == gapY + 90.0;
  }

  class PipeGroup {
    const gapHeight: real
    var pipes: map<nat, PipeRec>
    /** The identity the next added pipe gets. */
    var nextId: nat

    ghost predicate Valid()
      reads this
    {
      Paired(pipes, nextId, gapHeight)
    }

    constructor (gapHeight: real)
      ensures Valid() && this.gapHeight == gapHeight
      ensures pipes == map[] && nextId == 0
    {
      this.gapHeight := gapHeight;
      pipes := map[];
      nextId := 0;
    }

    /** `pipes.add(p)`: the pipe joins the group under a fresh identity. */
    method Add(p: PipeRec) returns (id: nat)
      modifies this
      ensures id == old(nextId) && pipes == old(pipes)[id := p] && nextId == id + 1
      ensures old(Valid()) ==> forall k :: k in old(pipes) ==> k < id
    {
      id := nextId;
      pipes := pipes[id := p];
      nextId := nextId + 1;
    }

    /** `pipes.empty()`: no pipe is left; identities are not reused. */
    method Empty()
      requires Valid()
      modifies this
      ensures Valid()
      ensures pipes == map[] && nextId == old(nextId)
    {
      pipes := map[];
    }

    /** `pipes.update(dt)`: every pipe advances and those off screen leave. */
    method Update(dt: int)
      requires Valid()
      modifies this
      ensures Valid()
      ensures pipes == AdvanceAll(old(pipes), dt) && nextId == old(nextId)
    {
      AdvancePreservesPaired(pipes, nextId, gapHeight, dt);
      pipes := AdvanceAll(pipes, dt);
    }
  }
}
