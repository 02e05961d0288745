/**
 The projectile simulation step of the demo (src/projectile.rs): a projectile
 with a position and a velocity, an environment with gravity and wind, and
 `tick`, which advances the projectile by one step in place. The window,
 event loop and drawing around it are not modelled.
 */
module Projectiles {
  import opened Tuples

  /** The height below which `tick` reflects the vertical velocity. */
  const Floor: real := -600.0

  /** `Environment`: the constant forces added to the velocity on every tick.
      `tick` only borrows it, so it is a value here and cannot change. */
  datatype Environment = Environment(gravity: Tuple, wind: Tuple)

  /** `Projectile`: the two tuples that `tick` overwrites. */
  class Projectile {
    var position: Tuple
    var velocity: Tuple

    constructor (position: Tuple, velocity: Tuple)
      ensures this.position == position && this.velocity == velocity
    {
      this.position := position;
      this.velocity := velocity;
    }
  }

  /** The velocity a tick moves by. Below the floor it is the stored velocity
      bounced: x kept, y reversed, z cleared, rebuilt as a vector (w = 0);
      otherwise the stored velocity as it is. */
  function BouncedVelocity(position: Tuple, velocity: Tuple): Tuple
  {
    if position.y < Floor then Vector(velocity.x, -velocity.y, 0.0) else velocity
  }

  /** True when position is a point and the three other tuples are vectors
      with w = 0, as the demo seeds them. */
  predicate Conventional(position: Tuple, velocity: Tuple, env: Environment)
  {
    IsPoint(position) && velocity.w == 0.0 && env.gravity.w == 0.0 && env.wind.w == 0.0
  }

  /** `tick`: bounce below the floor, move by the velocity, then add gravity
      and wind to the velocity. Only the projectile's two fields change. */
  method Tick(env: Environment, projectile: Projectile)
    modifies projectile
    ensures var v := BouncedVelocity(old(projectile.position), old(projectile.velocity));
      && projectile.position == Add(old(projectile.position), v)
      && projectile.velocity == Add(Add(v, env.gravity), env.wind)
    ensures Conventional(old(projectile.position), old(projectile.velocity), env) ==>
      Conventional(projectile.position, projectile.velocity, env)
  {
    if projectile.position.y < Floor {
      projectile.velocity := Vector(projectile.velocity.x, -projectile.velocity.y, 0.0);
    }
    projectile.position := Add(projectile.position, projectile.velocity);
    projectile.velocity := Add(Add(projectile.velocity, env.gravity), env.wind);
  }

  /** Away from the floor, a tick changes the velocity by exactly gravity plus
      wind, and the position by the old velocity. */
  lemma StepAboveFloor(env: Environment, position: Tuple, velocity: Tuple)
    requires position.y >= Floor
    ensures Sub(Add(Add(BouncedVelocity(position, velocity), env.gravity), env.wind), velocity)
         == Add(env.gravity, env.wind)
    ensures Sub(Add(position, BouncedVelocity(position, velocity)), position) == velocity
  {
  }

  /** The bounce is a reflection: it keeps the speed of a velocity that lies
      in the x-y plane, and bouncing twice from the same position gives that
      velocity back. */
  lemma BounceIsReflection(position: Tuple, velocity: Tuple)
    requires velocity.z == 0.0 && velocity.w == 0.0
    ensures MagnitudeSquared(BouncedVelocity(position, velocity)) == MagnitudeSquared(velocity)
    ensures BouncedVelocity(position, BouncedVelocity(position, velocity)) == velocity
  {
  }

  /** Below the floor the bounce yields a vector whatever the stored w was,
      so the next position keeps the discriminant of the current one. */
  lemma BounceGivesVector(position: Tuple, velocity: Tuple)
    requires position.y < Floor
    ensures BouncedVelocity(position, velocity).w == 0.0
    ensures Add(position, BouncedVelocity(position, velocity)).w == position.w
  {
  }

  /** The demo's seed (a point at height 1 moving diagonally, gravity -0.1 in
      y, wind 0.01 in x) after its first tick. */
  method SeededFirstTick() returns (position: Tuple, velocity: Tuple)
    ensures position == Point(1.0, 2.0, 0.0)
    ensures velocity == Vector(1.01, 0.9, 0.0)
  {
    var env := Environment(Vector(0.0, -0.1, 0.0), Vector(0.01, 0.0, 0.0));
    var p := new Projectile(Point(0.0, 1.0, 0.0), Vector(1.0, 1.0, 0.0));
    Tick(env, p);
    position, velocity := p.position, p.velocity;
  }
}
