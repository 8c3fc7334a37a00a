/**
 * The values the simulator borrows from its game engine and physics library:
 * entity identities, transforms and rigid-body velocities. Floating-point
 * coordinates are modelled as reals.
 */
module Ecs {

  datatype Option<T> = None | Some(value: T)

  /** An entity of the world store; the store hands out fresh ones on spawn. */
  type EntityId = nat

  datatype Vec2 = Vec2(x: real, y: real)

  /** A rigid body's linear velocity and angular velocity. */
  datatype Velocity = Velocity(linvel: Vec2, angvel: real)

  /** The velocity of a body at rest, which is also what an event records for a body without one. */
  const ZeroVelocity: Velocity := Velocity(Vec2(0.0, 0.0), 0.0)

  /** An orientation, kept as an opaque quaternion: nothing here computes with it. */
  datatype Rotation = Quat(x: real, y: real, z: real, w: real)

  /** A position (translation x, y, z) and an orientation. */
  datatype Transform = Transform(x: real, y: real, z: real, rotation: Rotation)
}
