/** The collision logic of the breakout example: the orientation test
    `isCLeftOfLineAB`, the mask of block sides the ball can hit given the signs
    of its velocity, the `switch` that flips a velocity component for that mask,
    and the per-frame pass over the blocks that removes every block the ball
    overlaps and decides whether the game goes on. Velocities are integers here;
    only their signs matter to the collision logic. */
module Breakout {
  import opened Wrappers

  datatype Coordinate = Coordinate(x: int, y: int)
  datatype Area = Area(width: int, height: int)
  datatype Velocity = Velocity(x: int, y: int)

  /* ----- isCLeftOfLineAB ----- */

  /** The z component of (B - A) x (C - A). */
  function Cross(a: Coordinate, b: Coordinate, c: Coordinate): int {
    (b.x - a.x) * (c.y - a.y) - (b.y - a.y) * (c.x - a.x)
  }

  predicate IsCLeftOfLineAB(a: Coordinate, b: Coordinate, c: Coordinate) {
    Cross(a, b, c) > 0
  }

  /** Swapping A and B negates the cross product, so C cannot be left of both
      AB and BA. */
  lemma SwappingEndpointsFlipsSide(a: Coordinate, b: Coordinate, c: Coordinate)
    ensures Cross(b, a, c) == -Cross(a, b, c)
    ensures !(IsCLeftOfLineAB(a, b, c) && IsCLeftOfLineAB(b, a, c))
  {
    var dx, dy := b.x - a.x, b.y - a.y;
    var ex, ey := c.x - a.x, c.y - a.y;
    assert Cross(b, a, c) == (-dx) * (ey - dy) - (-dy) * (ex - dx);
    assert (-dx) * (ey - dy) - (-dy) * (ex - dx) == -(dx * ey - dy * ex);
  }

  /** A point on the line through A and B is not left of it. */
  lemma CollinearPointIsNotLeft(a: Coordinate, b: Coordinate, t: int)
    ensures !IsCLeftOfLineAB(a, b, Coordinate(a.x + t * (b.x - a.x), a.y + t * (b.y - a.y)))
  {
    var dx, dy := b.x - a.x, b.y - a.y;
    assert dx * (t * dy) == dy * (t * dx);
  }

  /** Rotating the three points keeps the orientation. */
  lemma RotatingPointsKeepsSide(a: Coordinate, b: Coordinate, c: Coordinate)
    ensures Cross(a, b, c) == Cross(b, c, a)
  {
    var dx, dy := b.x - a.x, b.y - a.y;
    var ex, ey := c.x - a.x, c.y - a.y;
    assert Cross(b, c, a) == (ex - dx) * (-dy) - (ey - dy) * (-dx);
    assert (ex - dx) * (-dy) - (ey - dy) * (-dx) == dx * ey - dy * ex;
  }

  /* ----- possibleCollisionSides ----- */

  const LeftSide: bv8 := 1
  const RightSide: bv8 := 2
  const TopSide: bv8 := 4
  const BottomSide: bv8 := 8
  const AllSides: bv8 := LeftSide | RightSide | TopSide | BottomSide

  /** The sides of a block a ball with velocity `v` can hit: its left side only
      when moving right, its top only when moving down, and so on. */
  function SideMask(v: Velocity): (mask: bv8)
    ensures mask & AllSides == mask
    ensures mask == 0 <==> v == Velocity(0, 0)
  {
    (if v.x > 0 then LeftSide else 0) | (if v.x < 0 then RightSide else 0)
    | (if v.y > 0 then TopSide else 0) | (if v.y < 0 then BottomSide else 0)
  }

  /** The successive `&=` narrowing of the four sides by the velocity's signs. */
  method PossibleCollisionSides(v: Velocity) returns (mask: bv8)
    ensures mask == SideMask(v)
  {
    mask := LeftSide | RightSide | TopSide | BottomSide;
    if v.x == 0 {
      mask := mask & (TopSide | BottomSide);
    }
    if v.y == 0 {
      mask := mask & (LeftSide | RightSide);
    }
    if v.x > 0 {
      mask := mask & (TopSide | LeftSide | BottomSide);
    }
    if v.x < 0 {
      mask := mask & (TopSide | RightSide | BottomSide);
    }
    if v.y > 0 {
      mask := mask & (LeftSide | TopSide | RightSide);
    }
    if v.y < 0 {
      mask := mask & (LeftSide | BottomSide | RightSide);
    }
  }

  /** The masks the `switch` has a case for. */
  const HandledMasks: set<bv8> :=
    {0, LeftSide, RightSide, TopSide, BottomSide,
     LeftSide | TopSide, TopSide | RightSide, RightSide | BottomSide, BottomSide | LeftSide}

  /** Whatever the velocity, the mask is one the `switch` handles, so its
      throwing `default` branch is never taken. */
  lemma DefaultIsUnreachable(v: Velocity)
    ensures SideMask(v) in HandledMasks
  {
    if v.x > 0 {
      if v.y > 0 {
        assert SideMask(v) == LeftSide | TopSide;
      } else if v.y < 0 {
        assert SideMask(v) == BottomSide | LeftSide;
      } else {
        assert SideMask(v) == LeftSide;
      }
    } else if v.x < 0 {
      if v.y > 0 {
        assert SideMask(v) == TopSide | RightSide;
      } else if v.y < 0 {
        assert SideMask(v) == RightSide | BottomSide;
      } else {
        assert SideMask(v) == RightSide;
      }
    } else {
      if v.y > 0 {
        assert SideMask(v) == TopSide;
      } else if v.y < 0 {
        assert SideMask(v) == BottomSide;
      } else {
        assert SideMask(v) == 0;
      }
    }
  }

  /* ----- The collision switch ----- */

  /** The `runtime_error` of the `default` branch, carrying the mask. */
  datatype CollisionError = InvalidSides(sides: bv8)

  function FlipX(v: Velocity): Velocity {
    Velocity(-v.x, v.y)
  }

  function FlipY(v: Velocity): Velocity {
    Velocity(v.x, -v.y)
  }

  /** The new velocity after the ball at `ball` (size `ballSize`) hits the block
      at `block`, whose corners are placed with the common block size. At a
      corner, the side of the ball's diagonal the block's corner lies on decides
      which component flips. */
  function Bounce(mask: bv8, ball: Coordinate, ballSize: Area, block: Coordinate, blockSize: Area, v: Velocity)
    : (r: Result<Velocity, CollisionError>)
    ensures r.Failure? <==> mask !in HandledMasks
    ensures r.Failure? ==> r.error == InvalidSides(mask)
    ensures mask == 0 ==> r == Success(v)
    ensures mask == LeftSide || mask == RightSide ==> r == Success(FlipX(v))
    ensures mask == TopSide || mask == BottomSide ==> r == Success(FlipY(v))
    ensures mask != 0 && r.Success? ==> r.value == FlipX(v) || r.value == FlipY(v)
  {
    var topLeft := ball;
    var topRight := Coordinate(ball.x + ballSize.width, ball.y);
    var bottomLeft := Coordinate(ball.x, ball.y + ballSize.height);
    var bottomRight := Coordinate(ball.x + ballSize.width, ball.y + ballSize.height);
    if mask == 0 then Success(v)
    else if mask == LeftSide || mask == RightSide then Success(FlipX(v))
    else if mask == TopSide || mask == BottomSide then Success(FlipY(v))
    else if mask == LeftSide | TopSide then
      Success(if IsCLeftOfLineAB(topLeft, bottomRight, block) then FlipY(v) else FlipX(v))
    else if mask == TopSide | RightSide then
      Success(if IsCLeftOfLineAB(topRight, bottomLeft, Coordinate(block.x + blockSize.width, block.y))
              then FlipY(v) else FlipX(v))
    else if mask == RightSide | BottomSide then
      Success(if IsCLeftOfLineAB(bottomRight, topLeft, Coordinate(block.x + blockSize.width, block.y + blockSize.height))
              then FlipY(v) else FlipX(v))
    else if mask == BottomSide | LeftSide then
      Success(if IsCLeftOfLineAB(bottomLeft, topRight, Coordinate(block.x, block.y + blockSize.height))
              then FlipX(v) else FlipY(v))
    else Failure(InvalidSides(mask))
  }

  /** Bouncing with the sides the velocity can hit never fails and turns the
      ball around: a ball at rest keeps its velocity, a moving ball has one
      component reversed, and that component is one along which it was moving,
      so it leaves the block it hit. */
  lemma BounceTurnsBallAround(ball: Coordinate, ballSize: Area, block: Coordinate, blockSize: Area, v: Velocity)
    ensures var r := Bounce(SideMask(v), ball, ballSize, block, blockSize, v);
      && r.Success?
      && (v == Velocity(0, 0) ==> r.value == v)
      && (v != Velocity(0, 0) ==> (r.value == FlipX(v) && v.x != 0) || (r.value == FlipY(v) && v.y != 0))
  {
    DefaultIsUnreachable(v);
    if v.x == 0 {
      if v.y > 0 {
        assert SideMask(v) == TopSide;
      } else if v.y < 0 {
        assert SideMask(v) == BottomSide;
      }
    } else if v.y == 0 {
      if v.x > 0 {
        assert SideMask(v) == LeftSide;
      } else {
        assert SideMask(v) == RightSide;
      }
    }
  }

  /* ----- Overlap ----- */

  /** A block window still on screen. */
  datatype Block = Block(position: Coordinate, size: Area)

  /** The strict overlap test of the ball against a block. */
  predicate Overlaps(ball: Coordinate, ballSize: Area, b: Block) {
    && ball.x + ballSize.width > b.position.x && ball.x < b.position.x + b.size.width
    && ball.y + ballSize.height > b.position.y && ball.y < b.position.y + b.size.height
  }

  /** The pixel (px, py) lies within the rectangle at `p` of size `s`. */
  predicate Covers(p: Coordinate, s: Area, px: int, py: int) {
    p.x <= px < p.x + s.width && p.y <= py < p.y + s.height
  }

  /** For non-empty rectangles, the overlap test holds exactly when some pixel
      lies in both. */
  lemma OverlapMeansSharedPixel(ball: Coordinate, ballSize: Area, b: Block)
    requires ballSize.width > 0 && ballSize.height > 0 && b.size.width > 0 && b.size.height > 0
    ensures Overlaps(ball, ballSize, b) <==>
            exists px, py :: Covers(ball, ballSize, px, py) && Covers(b.position, b.size, px, py)
  {
    if Overlaps(ball, ballSize, b) {
      var px := if ball.x < b.position.x then b.position.x else ball.x;
      var py := if ball.y < b.position.y then b.position.y else ball.y;
      assert Covers(ball, ballSize, px, py) && Covers(b.position, b.size, px, py);
    }
  }

  /* ----- One frame's pass over the blocks ----- */

  /** A block the ball overlaps is reset to null; the others stay. */
  function AfterPass(b: Option<Block>, ball: Coordinate, ballSize: Area): Option<Block> {
    if b.Some? && Overlaps(ball, ballSize, b.value) then None else b
  }

  /** The velocity after bouncing off every overlapped block among the first
      `n`, in order. */
  function CollideAll(blocks: seq<Option<Block>>, n: nat, ball: Coordinate, ballSize: Area, blockSize: Area, v: Velocity)
    : Result<Velocity, CollisionError>
    requires n <= |blocks|
  {
    if n == 0 then Success(v)
    else match CollideAll(blocks, n - 1, ball, ballSize, blockSize, v)
      case Failure(e) => Failure(e)
      case Success(u) =>
        var b := blocks[n - 1];
        if b.Some? && Overlaps(ball, ballSize, b.value)
        then Bounce(SideMask(u), ball, ballSize, b.value.position, blockSize, u)
        else Success(u)
  }

  /** The pass never throws, whatever the blocks and the velocity. */
  lemma {:induction false} CollideAllNeverFails(blocks: seq<Option<Block>>, n: nat, ball: Coordinate, ballSize: Area, blockSize: Area, v: Velocity)
    requires n <= |blocks|
    ensures CollideAll(blocks, n, ball, ballSize, blockSize, v).Success?
  {
    if n > 0 {
      CollideAllNeverFails(blocks, n - 1, ball, ballSize, blockSize, v);
      var u := CollideAll(blocks, n - 1, ball, ballSize, blockSize, v).value;
      DefaultIsUnreachable(u);
    }
  }

  /** No block is ever hit: nothing changes the velocity. */
  lemma {:induction false} NoHitKeepsVelocity(blocks: seq<Option<Block>>, n: nat, ball: Coordinate, ballSize: Area, blockSize: Area, v: Velocity)
    requires n <= |blocks|
    requires forall i :: 0 <= i < n ==> AfterPass(blocks[i], ball, ballSize) == blocks[i]
    ensures CollideAll(blocks, n, ball, ballSize, blockSize, v) == Success(v)
  {
    if n > 0 {
      NoHitKeepsVelocity(blocks, n - 1, ball, ballSize, blockSize, v);
      assert AfterPass(blocks[n - 1], ball, ballSize) == blocks[n - 1];
    }
  }

  /** Every block among the first `n` is null. */
  predicate AllCleared(blocks: seq<Option<Block>>, n: nat)
    requires n <= |blocks|
  {
    forall i :: 0 <= i < n ==> blocks[i].None?
  }

  /** The game state the collision loop works on. */
  class Game {
    var blocks: seq<Option<Block>>
    var velocity: Velocity
    const ballSize: Area
    const blockSize: Area

    constructor (blocks: seq<Option<Block>>, velocity: Velocity, ballSize: Area, blockSize: Area)
      ensures this.blocks == blocks && this.velocity == velocity
      ensures this.ballSize == ballSize && this.blockSize == blockSize
    {
      this.blocks := blocks;
      this.velocity := velocity;
      this.ballSize := ballSize;
      this.blockSize := blockSize;
    }

    /** The `switch (possibleCollisionSides)`, flipping a component of the velocity in place
        as `Bounce` decides. */
    method BounceOff(mask: bv8, ball: Coordinate, block: Coordinate) returns (r: Result<(), CollisionError>)
      modifies this
      ensures blocks == old(blocks)
      ensures var b := Bounce(mask, ball, ballSize, block, blockSize, old(velocity));
              && (b.Success? ==> r == Success(()) && velocity == b.value)
              && (b.Failure? ==> r == Failure(b.error) && velocity == old(velocity))
    {
      var b := Bounce(mask, ball, ballSize, block, blockSize, velocity);
      if b.Failure? {
        return Failure(b.error);
      }
      velocity := b.value;
      r := Success(());
    }

    /** The loop over `blocks` in one frame: skip null blocks, note that one is
        left, and bounce off and reset every block the ball overlaps. The game
        goes on exactly when some block was still there at the start of the pass. */
    method HitBlocks(ball: Coordinate) returns (continueGame: bool)
      modifies this
      ensures |blocks| == |old(blocks)|
      ensures forall i :: 0 <= i < |blocks| ==> blocks[i] == AfterPass(old(blocks)[i], ball, ballSize)
      ensures Success(velocity) == CollideAll(old(blocks), |old(blocks)|, ball, ballSize, blockSize, old(velocity))
      ensures !continueGame <==> AllCleared(old(blocks), |old(blocks)|)
    {
      var start := blocks;
      var v0 := velocity;
      continueGame := false;
      var i := 0;
      while i < |blocks|
        invariant |blocks| == |start| && 0 <= i <= |blocks|
        invariant forall j :: 0 <= j < i ==> blocks[j] == AfterPass(start[j], ball, ballSize)
        invariant forall j :: i <= j < |blocks| ==> blocks[j] == start[j]
        invariant CollideAll(start, i, ball, ballSize, blockSize, v0) == Success(velocity)
        invariant !continueGame <==> AllCleared(start, i)
      {
        ghost var u := velocity;
        assert blocks[i] == start[i];
        if blocks[i].Some? {
          continueGame := true;
          var block := blocks[i].value;
          if Overlaps(ball, ballSize, block) {
            var mask := PossibleCollisionSides(velocity);
            DefaultIsUnreachable(velocity);
            var bounced := BounceOff(mask, ball, block.position);
            assert CollideAll(start, i + 1, ball, ballSize, blockSize, v0)
                == Bounce(SideMask(u), ball, ballSize, block.position, blockSize, u);
            blocks := blocks[i := None];
          }
        }
        i := i + 1;
      }
    }
  }
}
