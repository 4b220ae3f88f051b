/** The player of src/Player.h: a box-shaped body whose position, velocity and
    grounded flag are advanced one physics step at a time, moving along x, then
    y, then z and committing each axis only when its candidate box hits no
    solid block. */
module Physics {
  import opened Geometry
  import opened WorldIndex

  const HEIGHT: real := 1.8
  const WIDTH: real := 0.6
  const DEPTH: real := 0.6

  const GRAVITY: real := -20.0
  const JUMP_STRENGTH: real := 8.0
  const TERMINAL_VELOCITY: real := -50.0

  /** The player's box when its feet stand at `position`. */
  function PlayerBox(position: Vec3): AABB {
    Box(position, WIDTH, HEIGHT, DEPTH)
  }

  /** Block cell (x, y, z) is solid and its unit box overlaps the player's box
      at `position`. */
  predicate Blocks(world: World, position: Vec3, x: int, y: int, z: int) {
    IsBlockSolid(x, y, z, world) && Intersects(PlayerBox(position), BlockBox(x, y, z))
  }

  /** The player's box at `position` overlaps the box of some solid block;
      with no chunk loaded nothing is solid, so nothing collides. */
  ghost predicate Collides(world: World, position: Vec3)
    ensures world == map[] ==> !Collides(world, position)
  {
    exists x, y, z :: Blocks(world, position, x, y, z)
  }

  /** Some cell in the range the collision test scans, [floor(min), ceil(max))
      on every axis of the player's box, blocks the player at `position`. */
  ghost predicate ScanHits(world: World, position: Vec3) {
    var b := PlayerBox(position);
    exists x, y, z | && b.min.x.Floor <= x < Ceil(b.max.x)
                     && b.min.y.Floor <= y < Ceil(b.max.y)
                     && b.min.z.Floor <= z < Ceil(b.max.z) :: Blocks(world, position, x, y, z)
  }

  /** The scan range is wide enough: a cell in it blocks the player exactly
      when some cell anywhere in the world does. */
  lemma ScanRangeSuffices(world: World, position: Vec3)
    ensures ScanHits(world, position) <==> Collides(world, position)
  {
    if x, y, z :| Blocks(world, position, x, y, z) {
      IntersectingCellInScanRange(PlayerBox(position), x, y, z);
    }
  }

  // ---------------------------------------------------------------------------
  // One physics step, as a function of the state
  // ---------------------------------------------------------------------------

  datatype PlayerState = PlayerState(position: Vec3, velocity: Vec3, onGround: bool)

  /** Vertical velocity after gravity has acted for dt, never below the
      terminal velocity. */
  function Fall(vy: real, dt: real): (v: real)
    ensures v >= TERMINAL_VELOCITY
    ensures v == vy + GRAVITY * dt || v == TERMINAL_VELOCITY
    ensures vy + GRAVITY * dt >= TERMINAL_VELOCITY ==> v == vy + GRAVITY * dt
  {
    var v := vy + GRAVITY * dt;
    if v < TERMINAL_VELOCITY then TERMINAL_VELOCITY else v
  }

  /** The state after gravity, before any move. */
  function AfterGravity(s: PlayerState, dt: real): PlayerState {
    s.(velocity := s.velocity.(y := Fall(s.velocity.y, dt)))
  }

  /** Where each axis move would take the player. */
  function CandidateX(s: PlayerState, dt: real): Vec3 {
    s.position.(x := s.position.x + s.velocity.x * dt)
  }

  function CandidateY(s: PlayerState, dt: real): Vec3 {
    s.position.(y := s.position.y + s.velocity.y * dt)
  }

  function CandidateZ(s: PlayerState, dt: real): Vec3 {
    s.position.(z := s.position.z + s.velocity.z * dt)
  }

  /** The x move, given whether its candidate is blocked: commit it, or stay
      and stop moving along x. */
  function MoveX(s: PlayerState, dt: real, blocked: bool): (r: PlayerState)
    ensures r.position.y == s.position.y && r.position.z == s.position.z
    ensures r.velocity.y == s.velocity.y && r.velocity.z == s.velocity.z && r.onGround == s.onGround
    ensures blocked ==> r.position == s.position && r.velocity.x == 0.0
    ensures !blocked ==> r.position.x == s.position.x + s.velocity.x * dt && r.velocity.x == s.velocity.x
  {
    if !blocked then s.(position := CandidateX(s, dt))
    else s.(velocity := s.velocity.(x := 0.0))
  }

  /** The y move: a committed move leaves the ground, a blocked downward move
      lands on it. */
  function MoveY(s: PlayerState, dt: real, blocked: bool): (r: PlayerState)
    ensures r.position.x == s.position.x && r.position.z == s.position.z
    ensures r.velocity.x == s.velocity.x && r.velocity.z == s.velocity.z
    ensures blocked ==> r.position == s.position && r.velocity.y == 0.0
    ensures blocked ==> (r.onGround <==> s.velocity.y < 0.0 || s.onGround)
    ensures !blocked ==> r.position.y == s.position.y + s.velocity.y * dt && r.velocity.y == s.velocity.y
    ensures !blocked ==> !r.onGround
  {
    if !blocked then s.(position := CandidateY(s, dt), onGround := false)
    else s.(velocity := s.velocity.(y := 0.0), onGround := if s.velocity.y < 0.0 then true else s.onGround)
  }

  /** The z move, like the x move. */
  function MoveZ(s: PlayerState, dt: real, blocked: bool): (r: PlayerState)
    ensures r.position.x == s.position.x && r.position.y == s.position.y
    ensures r.velocity.x == s.velocity.x && r.velocity.y == s.velocity.y && r.onGround == s.onGround
    ensures blocked ==> r.position == s.position && r.velocity.z == 0.0
    ensures !blocked ==> r.position.z == s.position.z + s.velocity.z * dt && r.velocity.z == s.velocity.z
  {
    if !blocked then s.(position := CandidateZ(s, dt))
    else s.(velocity := s.velocity.(z := 0.0))
  }

  ghost function StepX(s: PlayerState, dt: real, world: World): PlayerState {
    MoveX(s, dt, Collides(world, CandidateX(s, dt)))
  }

  ghost function StepY(s: PlayerState, dt: real, world: World): PlayerState {
    MoveY(s, dt, Collides(world, CandidateY(s, dt)))
  }

  ghost function StepZ(s: PlayerState, dt: real, world: World): PlayerState {
    MoveZ(s, dt, Collides(world, CandidateZ(s, dt)))
  }

  /** One physics step of dt seconds: gravity, then x, y and z. Afterwards the
      vertical velocity is 0 (the y move was blocked) or the gravity-updated
      value, which is never below the terminal velocity. */
  ghost function Tick(s: PlayerState, dt: real, world: World): (r: PlayerState)
    ensures r.velocity.y == 0.0 || r.velocity.y == Fall(s.velocity.y, dt)
    ensures r.velocity.y >= TERMINAL_VELOCITY
  {
    StepZ(StepY(StepX(AfterGravity(s, dt), dt, world), dt, world), dt, world)
  }

  /** Each axis step touches its own axis only. A blocked candidate leaves
      the position as it was and zeroes that velocity component; a free one
      moves along the axis by exactly velocity * dt. Either way the new
      position is the old one or a collision-free one. */
  lemma StepXMovesOnlyX(s: PlayerState, dt: real, world: World)
    ensures var r := StepX(s, dt, world);
      && r.position.y == s.position.y && r.position.z == s.position.z
      && r.velocity.y == s.velocity.y && r.velocity.z == s.velocity.z && r.onGround == s.onGround
      && (Collides(world, CandidateX(s, dt)) ==> r.position == s.position && r.velocity.x == 0.0)
      && (!Collides(world, CandidateX(s, dt)) ==>
            r.position.x == s.position.x + s.velocity.x * dt && r.velocity.x == s.velocity.x)
      && (r.position == s.position || !Collides(world, r.position))
  {
  }

  lemma StepYMovesOnlyY(s: PlayerState, dt: real, world: World)
    ensures var r := StepY(s, dt, world);
      && r.position.x == s.position.x && r.position.z == s.position.z
      && r.velocity.x == s.velocity.x && r.velocity.z == s.velocity.z
      && (Collides(world, CandidateY(s, dt)) ==> r.position == s.position && r.velocity.y == 0.0)
      && (!Collides(world, CandidateY(s, dt)) ==>
            r.position.y == s.position.y + s.velocity.y * dt && r.velocity.y == s.velocity.y)
      && (r.position == s.position || !Collides(world, r.position))
  {
  }

  lemma StepZMovesOnlyZ(s: PlayerState, dt: real, world: World)
    ensures var r := StepZ(s, dt, world);
      && r.position.x == s.position.x && r.position.y == s.position.y
      && r.velocity.x == s.velocity.x && r.velocity.y == s.velocity.y && r.onGround == s.onGround
      && (Collides(world, CandidateZ(s, dt)) ==> r.position == s.position && r.velocity.z == 0.0)
      && (!Collides(world, CandidateZ(s, dt)) ==>
            r.position.z == s.position.z + s.velocity.z * dt && r.velocity.z == s.velocity.z)
      && (r.position == s.position || !Collides(world, r.position))
  {
  }

  /** A player that starts a step clear of every solid block ends it clear. */
  lemma TickKeepsCollisionFree(s: PlayerState, dt: real, world: World)
    requires !Collides(world, s.position)
    ensures !Collides(world, Tick(s, dt, world).position)
  {
    var s0 := AfterGravity(s, dt);
    var s1 := StepX(s0, dt, world);
    var s2 := StepY(s1, dt, world);
    StepXMovesOnlyX(s0, dt, world);
    StepYMovesOnlyY(s1, dt, world);
    StepZMovesOnlyZ(s2, dt, world);
  }

  /** The grounded flag follows the outcome of the y move: cleared when it is
      committed, set when a downward move is blocked, kept when an upward or
      zero move is blocked. */
  lemma TickGrounding(s: PlayerState, dt: real, world: World)
    ensures var s1 := StepX(AfterGravity(s, dt), dt, world);
      var blocked := Collides(world, CandidateY(s1, dt));
      var r := Tick(s, dt, world);
      && (!blocked ==> !r.onGround && r.position.y == s1.position.y + s1.velocity.y * dt)
      && (blocked && s1.velocity.y < 0.0 ==> r.onGround && r.velocity.y == 0.0)
      && (blocked && s1.velocity.y >= 0.0 ==> r.onGround == s.onGround && r.velocity.y == 0.0)
  {
    var s1 := StepX(AfterGravity(s, dt), dt, world);
    var s2 := StepY(s1, dt, world);
    StepXMovesOnlyX(AfterGravity(s, dt), dt, world);
    StepYMovesOnlyY(s1, dt, world);
    StepZMovesOnlyZ(s2, dt, world);
  }

  /** The effect of a jump request on the state. */
  function JumpState(s: PlayerState): (r: PlayerState)
    ensures r.position == s.position && !r.onGround
    ensures r.velocity.x == s.velocity.x && r.velocity.z == s.velocity.z
    ensures s.onGround ==> r.velocity.y == JUMP_STRENGTH
    ensures !s.onGround ==> r == s
  {
    if s.onGround then s.(velocity := s.velocity.(y := JUMP_STRENGTH), onGround := false) else s
  }

  /** The effect of a horizontal move request on the state. */
  function MoveState(s: PlayerState, direction: Vec3, speed: real): (r: PlayerState)
    ensures r.position == s.position && r.onGround == s.onGround
    ensures r.velocity.y == s.velocity.y
    ensures r.velocity.x == direction.x * speed && r.velocity.z == direction.z * speed
  {
    s.(velocity := Vec3(direction.x * speed, s.velocity.y, direction.z * speed))
  }

  // ---------------------------------------------------------------------------
  // The player object
  // ---------------------------------------------------------------------------

  class Player {
    /** Centre of the player's feet. */
    var position: Vec3
    var velocity: Vec3
    var onGround: bool

    function State(): PlayerState
      reads this
    {
      PlayerState(position, velocity, onGround)
    }

    /** A player standing still, not on the ground, at `startPos`. */
    constructor (startPos: Vec3)
      ensures position == startPos && velocity == Vec3(0.0, 0.0, 0.0) && !onGround
    {
      position := startPos;
      velocity := Vec3(0.0, 0.0, 0.0);
      onGround := false;
    }

    /** The player's box: WIDTH x HEIGHT x DEPTH, centred on the feet in x and
        z, with its bottom at the feet. */
    function GetAABB(): (b: AABB)
      reads this
      ensures b.min.y == position.y && b.max.y == position.y + HEIGHT
      ensures b.min.x + b.max.x == 2.0 * position.x && b.max.x - b.min.x == WIDTH
      ensures b.min.z + b.max.z == 2.0 * position.z && b.max.z - b.min.z == DEPTH
    {
      Box(position, WIDTH, HEIGHT, DEPTH)
    }

    /** Scans every cell in [floor(min), ceil(max)) of the player's box at
        newPos and reports whether one is solid and overlaps the box. */
    method CheckCollision(newPos: Vec3, world: World) returns (hit: bool)
      ensures hit <==> Collides(world, newPos)
      ensures hit <==> ScanHits(world, newPos)
    {
      var playerBox := Box(newPos, WIDTH, HEIGHT, DEPTH);
      var minX, maxX := playerBox.min.x.Floor, Ceil(playerBox.max.x);
      var minY, maxY := playerBox.min.y.Floor, Ceil(playerBox.max.y);
      var minZ, maxZ := playerBox.min.z.Floor, Ceil(playerBox.max.z);
      var x := minX;
      while x < maxX
        invariant minX <= x
        invariant forall i, j, k | minX <= i < x && minY <= j < maxY && minZ <= k < maxZ ::
          !Blocks(world, newPos, i, j, k)
      {
        var y := minY;
        while y < maxY
          invariant minY <= y
          invariant forall i, j, k | minX <= i < x && minY <= j < maxY && minZ <= k < maxZ ::
            !Blocks(world, newPos, i, j, k)
          invariant forall j, k | minY <= j < y && minZ <= k < maxZ :: !Blocks(world, newPos, x, j, k)
        {
          var z := minZ;
          while z < maxZ
            invariant minZ <= z
            invariant forall i, j, k | minX <= i < x && minY <= j < maxY && minZ <= k < maxZ ::
              !Blocks(world, newPos, i, j, k)
            invariant forall j, k | minY <= j < y && minZ <= k < maxZ :: !Blocks(world, newPos, x, j, k)
            invariant forall k | minZ <= k < z :: !Blocks(world, newPos, x, y, k)
          {
            if IsBlockSolid(x, y, z, world) {
              var blockBox := BlockBox(x, y, z);
              if Intersects(playerBox, blockBox) {
                assert Blocks(world, newPos, x, y, z);
                ScanRangeSuffices(world, newPos);
                return true;
              }
            }
            z := z + 1;
          }
          y := y + 1;
        }
        x := x + 1;
      }
      forall i, j, k
        ensures !Blocks(world, newPos, i, j, k)
      {
        if Blocks(world, newPos, i, j, k) {
          IntersectingCellInScanRange(playerBox, i, j, k);
        }
      }
      ScanRangeSuffices(world, newPos);
      return false;
    }

    /** Advances the player by deltaTime seconds: gravity, then the x, y and z
        moves, each committed only when collision-free. */
    method Update(deltaTime: real, world: World)
      modifies this
      ensures State() == Tick(old(State()), deltaTime, world)
    {
      velocity := velocity.(y := velocity.y + GRAVITY * deltaTime);
      if velocity.y < TERMINAL_VELOCITY {
        velocity := velocity.(y := TERMINAL_VELOCITY);
      }
      UpdateX(deltaTime, world);
      UpdateY(deltaTime, world);
      UpdateZ(deltaTime, world);
    }

    /** The x block of the update: try the x move, keep it when the candidate
        box is clear, otherwise stop moving along x. */
    method UpdateX(deltaTime: real, world: World)
      modifies this
      ensures State() == StepX(old(State()), deltaTime, world)
    {
      var newPos := position;
      newPos := newPos.(x := newPos.x + velocity.x * deltaTime);
      assert newPos == CandidateX(State(), deltaTime);
      var hit := CheckCollision(newPos, world);
      if !hit {
        position := position.(x := newPos.x);
      } else {
        velocity := velocity.(x := 0.0);
      }
    }

    /** The y block: as for x, and a blocked downward move lands the player. */
    method UpdateY(deltaTime: real, world: World)
      modifies this
      ensures State() == StepY(old(State()), deltaTime, world)
    {
      var newPos := position;
      newPos := newPos.(y := newPos.y + velocity.y * deltaTime);
      assert newPos == CandidateY(State(), deltaTime);
      var hit := CheckCollision(newPos, world);
      if !hit {
        position := position.(y := newPos.y);
        onGround := false;
      } else {
        if velocity.y < 0.0 {
          onGround := true;
        }
        velocity := velocity.(y := 0.0);
      }
    }

    /** The z block. */
    method UpdateZ(deltaTime: real, world: World)
      modifies this
      ensures State() == StepZ(old(State()), deltaTime, world)
    {
      var newPos := position;
      newPos := newPos.(z := newPos.z + velocity.z * deltaTime);
      assert newPos == CandidateZ(State(), deltaTime);
      var hit := CheckCollision(newPos, world);
      if !hit {
        position := position.(z := newPos.z);
      } else {
        velocity := velocity.(z := 0.0);
      }
    }

    /** Sets the horizontal velocity to direction * speed. */
    method Move(direction: Vec3, speed: real)
      modifies this
      ensures State() == MoveState(old(State()), direction, speed)
    {
      velocity := velocity.(x := direction.x * speed);
      velocity := velocity.(z := direction.z * speed);
    }

    /** Starts a jump when the player stands on the ground. */
    method Jump()
      modifies this
      ensures State() == JumpState(old(State()))
    {
      if onGround {
        velocity := velocity.(y := JUMP_STRENGTH);
        onGround := false;
      }
    }
  }
}
