/**
 * The per-tank event queue: an `EventSink` holds the combat events generated
 * for one tank, in generation order, and `GenerateEvent` appends one "hit"
 * record built from a snapshot of the entity of interest.
 */
module Events {
  import opened Ecs

  /** The kind of collider a body carries; an event records it by its variant name. */
  datatype CollisionType = Tank | Radar | Bullet | Wall

  /**
   * The Debug rendering of a collision type: its variant name. Each name
   * belongs to exactly one variant, so the name identifies the type.
   */
  function CollisionTypeName(t: CollisionType): (name: string)
    ensures t == Tank <==> name == "Tank"
    ensures t == Radar <==> name == "Radar"
    ensures t == Bullet <==> name == "Bullet"
    ensures t == Wall <==> name == "Wall"
  {
    match t
    case Tank => "Tank"
    case Radar => "Radar"
    case Bullet => "Bullet"
    case Wall => "Wall"
  }

  /** The transform part of an event: the translation x, y and the rotation the heading is taken from. */
  datatype TransformSnapshot = TransformSnapshot(x: real, y: real, rotation: Rotation)

  /** The `info` of an event. */
  datatype EventInfo = EventInfo(
    collisionType: string,
    entity: EntityId,
    transform: TransformSnapshot,
    velocity: Velocity)

  datatype Event = Event(eventType: string, info: EventInfo)

  /** The record `generate_event` pushes. */
  function HitEvent(entity: EntityId, transform: Transform, velocity: Option<Velocity>,
                    collisionType: CollisionType): (e: Event)
    ensures e.eventType == "hit"
    ensures e.info.collisionType == CollisionTypeName(collisionType)
    ensures e.info.entity == entity
    ensures e.info.transform.x == transform.x && e.info.transform.y == transform.y
    ensures e.info.transform.rotation == transform.rotation
    ensures velocity.None? ==> e.info.velocity == ZeroVelocity
    ensures velocity.Some? ==> e.info.velocity == velocity.value
  {
    var vel := match velocity
      case Some(v) => v
      case None => ZeroVelocity;
    Event("hit", EventInfo(
      CollisionTypeName(collisionType),
      entity,
      TransformSnapshot(transform.x, transform.y, transform.rotation),
      vel))
  }

  /** Supplying no velocity records exactly what supplying the zero velocity records. */
  lemma NoVelocityIsZeroVelocity(entity: EntityId, transform: Transform, collisionType: CollisionType)
    ensures HitEvent(entity, transform, None, collisionType)
         == HitEvent(entity, transform, Some(ZeroVelocity), collisionType)
  {
  }

  /**
   * Different collision types are recorded under different names, so the
   * event tells them apart; the event type is "hit" for all of them.
   */
  lemma HitEventRecordsCollisionType(entity: EntityId, transform: Transform, velocity: Option<Velocity>,
                                     collisionType: CollisionType, other: CollisionType)
    ensures collisionType != other ==>
              HitEvent(entity, transform, velocity, collisionType).info.collisionType
              != HitEvent(entity, transform, velocity, other).info.collisionType
    ensures HitEvent(entity, transform, velocity, collisionType).eventType
         == HitEvent(entity, transform, velocity, other).eventType
  {
  }

  /** A tank's queue of events. */
  class EventSink {
    var queue: seq<Event>

    /** `EventSink::default()`: an empty queue. */
    constructor Default()
      ensures queue == []
    {
      queue := [];
    }
  }

  /** Appends one hit event to the sink; events already queued stay, in order, before it. */
  method GenerateEvent(sink: EventSink, entity: EntityId, transform: Transform,
                       velocity: Option<Velocity>, collisionType: CollisionType)
    modifies sink
    ensures sink.queue == old(sink.queue) + [HitEvent(entity, transform, velocity, collisionType)]
  {
    sink.queue := sink.queue + [HitEvent(entity, transform, velocity, collisionType)];
  }
}
