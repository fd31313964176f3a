/** The player controller: a position and a look direction (yaw, pitch in
    degrees), with the view transform memoised behind a dirty flag. The
    matrix and rotation numerics are supplied as functions fixed at
    construction; only how and when they are used is modelled. */
module PlayerControl {
  import opened Geometry

  /** Height of the eyes above the player's position. */
  const EyeHeight: real := 1.7

  /** Largest magnitude of the pitch, in degrees. */
  const PitchLimit: real := 90.0

  /** The eye position: the position raised by the eye height, and moved in
      no other direction. */
  function EyePosition(position: Vec3): (eye: Vec3)
    ensures eye.y - position.y == EyeHeight
    ensures eye.x == position.x && eye.z == position.z
  {
    Vec3(position.x, position.y + EyeHeight, position.z)
  }

  /** Moving the player moves the eye by the same offset. */
  lemma EyeFollowsPosition(position: Vec3, offset: Vec3)
    ensures EyePosition(Add3(position, offset)) == Add3(EyePosition(position), offset)
  {
  }

  /** Keeps a pitch within [-90, 90]: values inside are kept, values above
      become 90 and values below become -90. */
  function ClampPitch(pitch: real): (r: real)
    ensures -PitchLimit <= r <= PitchLimit
    ensures -PitchLimit <= pitch <= PitchLimit ==> r == pitch
    ensures pitch > PitchLimit ==> r == PitchLimit
    ensures pitch < -PitchLimit ==> r == -PitchLimit
  {
    if pitch > PitchLimit then PitchLimit
    else if pitch < -PitchLimit then -PitchLimit
    else pitch
  }

  /** One `look` call: both angles are offset, then only the pitch is
      clamped; the yaw is left unbounded. */
  function LookStep(dir: Vec2, delta: Vec2): (r: Vec2)
    ensures r.x == dir.x + delta.x
    ensures -PitchLimit <= r.y <= PitchLimit
    ensures -PitchLimit <= dir.y + delta.y <= PitchLimit ==> r.y == dir.y + delta.y
  {
    var moved := Add2(dir, delta);
    Vec2(moved.x, ClampPitch(moved.y))
  }

  /** A sequence of `look` calls, in order. */
  function LookAll(dir: Vec2, deltas: seq<Vec2>): Vec2
    decreases |deltas|
  {
    if deltas == [] then dir else LookStep(LookAll(dir, deltas[..|deltas| - 1]), deltas[|deltas| - 1])
  }

  /** The total yaw offset of a sequence of look deltas. */
  function SumYaw(deltas: seq<Vec2>): real
    decreases |deltas|
  {
    if deltas == [] then 0.0 else SumYaw(deltas[..|deltas| - 1]) + deltas[|deltas| - 1].x
  }

  /** After any non-empty sequence of `look` calls the pitch lies in
      [-90, 90], whatever it started at, and the yaw is the starting yaw plus
      the sum of all yaw offsets: yaw is never clamped or wrapped. */
  lemma {:induction false} LookAllBounds(dir: Vec2, deltas: seq<Vec2>)
    ensures |deltas| > 0 ==> -PitchLimit <= LookAll(dir, deltas).y <= PitchLimit
    ensures LookAll(dir, deltas).x == dir.x + SumYaw(deltas)
  {
    if deltas != [] {
      LookAllBounds(dir, deltas[..|deltas| - 1]);
    }
  }

  /** The pitch clamp is idempotent: looking by a zero offset after any look
      changes nothing. */
  lemma LookZeroIsIdentity(dir: Vec2, delta: Vec2)
    ensures LookStep(LookStep(dir, delta), Zero2) == LookStep(dir, delta)
  {
  }

  class Player {
    /** The view transform for a look direction and an eye position:
        pitch about the x axis, then yaw about the y axis, then translation
        by the negated eye position. */
    const viewOf: (Vec2, Vec3) -> Mat4
    /** Rotation of an offset about the vertical axis by an angle in
        degrees. */
    const rotateYaw: (real, Vec3) -> Vec3

    var position: Vec3
    /** Yaw (`x`) and pitch (`y`), in degrees. */
    var lookDir: Vec2
    var transform: Mat4
    var needsUpdate: bool

    constructor (viewOf: (Vec2, Vec3) -> Mat4, rotateYaw: (real, Vec3) -> Vec3)
      ensures this.viewOf == viewOf && this.rotateYaw == rotateYaw
      ensures position == Zero3 && lookDir == Zero2 && transform == Identity && needsUpdate
    {
      this.viewOf, this.rotateYaw := viewOf, rotateYaw;
      position, lookDir, transform := Zero3, Zero2, Identity;
      needsUpdate := true;
    }

    /** The view transform for the current position and look direction. */
    function CurrentView(): Mat4
      reads this
    {
      viewOf(lookDir, EyePosition(position))
    }

    /** The cache holds the transform of the current state, or is marked
        for recomputation. */
    predicate CacheCoherent()
      reads this
    {
      !needsUpdate ==> transform == CurrentView()
    }

    /** Recomputes the transform only when the dirty flag is set, then
        clears the flag; otherwise returns the cached transform. */
    method GetTransform() returns (t: Mat4)
      modifies this`transform, this`needsUpdate
      ensures old(needsUpdate) ==> t == CurrentView()
      ensures !old(needsUpdate) ==> t == old(transform)
      ensures transform == t && !needsUpdate
      ensures old(CacheCoherent()) ==> t == CurrentView() && CacheCoherent()
    {
      if needsUpdate {
        transform := viewOf(lookDir, EyePosition(position));
        needsUpdate := false;
      }
      t := transform;
    }

    method GetEyePosition() returns (eye: Vec3)
      ensures eye == EyePosition(position)
    {
      eye := Vec3(position.x, position.y + EyeHeight, position.z);
    }

    method SetPosition(p: Vec3)
      modifies this`position, this`needsUpdate
      ensures position == p && needsUpdate && CacheCoherent()
    {
      position := p;
      needsUpdate := true;
    }

    method SetLook(dir: Vec2)
      modifies this`lookDir, this`needsUpdate
      ensures lookDir == dir && needsUpdate && CacheCoherent()
    {
      lookDir := dir;
      needsUpdate := true;
    }

    /** Offsets the look direction and clamps the pitch. The dirty flag is
        left as it was. */
    method Look(delta: Vec2)
      modifies this`lookDir
      ensures lookDir == LookStep(old(lookDir), delta)
    {
      lookDir := Add2(lookDir, delta);
      if lookDir.y > PitchLimit {
        lookDir := lookDir.(y := PitchLimit);
      } else if lookDir.y < -PitchLimit {
        lookDir := lookDir.(y := -PitchLimit);
      }
    }

    /** Moves by an offset given relative to the yaw, through `SetPosition`. */
    method Move(offset: Vec3)
      modifies this`position, this`needsUpdate
      ensures position == Add3(old(position), rotateYaw(-lookDir.x, offset))
      ensures needsUpdate && CacheCoherent()
    {
      SetPosition(Add3(position, rotateYaw(-lookDir.x, offset)));
    }
  }

  /** Two transform queries with no mutator in between return the same
      value, and the second does no recomputation. */
  method TransformCachedTwice(p: Player) returns (first: Mat4, second: Mat4)
    modifies p
    ensures first == second && !p.needsUpdate
    ensures old(p.CacheCoherent()) ==> first == p.CurrentView()
  {
    first := p.GetTransform();
    second := p.GetTransform();
  }

  /** `look` does not invalidate the cache: once the transform has been
      computed, a `look` followed by a query returns the transform of the look
      direction from before the `look`. */
  method LookLeavesCacheStale(p: Player, delta: Vec2) returns (before: Mat4, after: Mat4)
    modifies p
    ensures before == after && !p.needsUpdate
    ensures old(p.CacheCoherent()) ==> after == p.viewOf(old(p.lookDir), EyePosition(p.position))
    ensures p.lookDir == LookStep(old(p.lookDir), delta)
  {
    before := p.GetTransform();
    p.Look(delta);
    after := p.GetTransform();
  }

  /** `setLook` does invalidate it: the next query reflects the new look
      direction. */
  method SetLookRefreshes(p: Player, dir: Vec2) returns (t: Mat4)
    modifies p
    ensures t == p.viewOf(dir, EyePosition(p.position)) && p.lookDir == dir
  {
    p.SetLook(dir);
    t := p.GetTransform();
  }
}
