/**
 * Match setup: for every tank descriptor, in list order, the world store gets
 * a gun, a radar and a tank that owns both, each with its fixed initial state
 * and collision groups, placed side by side along the x axis.
 *
 * The store is a `World` with one map from entity id to the components of
 * that entity and a counter that hands out fresh ids, as spawning does.
 */
module SetupSimTanks {
  import opened Ecs
  import Events

  /** A tank's full health (Health::MAX_HEALTH); its value is not part of this model. */
  const MaxHealth: nat

  /** The rotation by Tank::INITIAL_ROTATION degrees about z that every new body gets; its value is not part of this model. */
  const InitialRotation: Rotation

  // ---------------------------------------------------------------------
  // Collision groups

  /**
   * The categories a CollisionMask constant stands for. The constants'
   * values are not part of this model; they are assumed to be pairwise
   * distinct single bits, so a mask is the set of the categories whose bits
   * it has, NONE is the empty set and `|` is union.
   */
  datatype Category = TankBit | RadarBit | BulletBit | WallBit

  type Mask = set<Category>

  const NONE: Mask := {}
  const TANK: Mask := {TankBit}
  const RADAR: Mask := {RadarBit}
  const BULLET: Mask := {BulletBit}
  const WALL: Mask := {WallBit}

  /** The groups a body is a member of and the groups it accepts contacts with. */
  datatype CollisionGroups = CollisionGroups(memberships: Mask, filters: Mask)

  const GunGroups: CollisionGroups := CollisionGroups(NONE, NONE)
  const RadarGroups: CollisionGroups := CollisionGroups(RADAR, TANK + BULLET + WALL)
  const TankGroups: CollisionGroups := CollisionGroups(TANK, TANK + BULLET + WALL + RADAR)

  /**
   * A gun is in no group and accepts none; a radar accepts tanks, bullets and
   * walls but never what it is itself a member of, so radars never see one
   * another; a tank accepts every category, radars included.
   */
  lemma CollisionGroupsOfKinds()
    ensures GunGroups.memberships == {} && GunGroups.filters == {}
    ensures RadarGroups.memberships !! RadarGroups.filters
    ensures RadarGroups.filters == {TankBit, BulletBit, WallBit}
    ensures TankGroups.memberships == {TankBit}
    ensures forall c: Category :: c in TankGroups.filters
    ensures RadarGroups.memberships <= TankGroups.filters && TankGroups.memberships <= RadarGroups.filters
  {
    forall c: Category ensures c in TankGroups.filters {
      match c
      case TankBit =>
      case RadarBit =>
      case BulletBit =>
      case WallBit =>
    }
  }

  // ---------------------------------------------------------------------
  // Components

  datatype Gun = Gun(locked: bool)

  datatype Radar = Radar(locked: bool)

  /** A tank descriptor: its position in the match's list and the container its agent runs in. */
  datatype TankInfo = TankInfo(index: nat, containerName: string)

  datatype Tank = Tank(info: TankInfo, cooldown: nat, gun: EntityId, radar: EntityId)

  datatype Health = Health(val: nat)

  datatype DamageDealer = DamageDealer(damageDealt: nat)

  /** The transport to a tank's agent: a container on the match network, addressed by name. */
  datatype Client = DockerClient(tankContainerName: string)

  /** A command for a tank; its encoding is not part of this model. */
  type Command = nat

  /** A tank's queue of pending commands. */
  class CommandSource {
    var queue: seq<Command>

    /** `CommandSource::default()`: no pending command. */
    constructor Default()
      ensures queue == []
    {
      queue := [];
    }
  }

  /**
   * The rigid-body part of an entity: its transform, the collision type of its
   * `CCollider` component if the entity has that component, whether it is a
   * sensor, its collision groups, its velocity and whether it reports
   * collision events.
   */
  datatype Body = Body(
    transform: Transform,
    collisionType: Option<Events.CollisionType>,
    sensor: bool,
    groups: CollisionGroups,
    velocity: Velocity,
    reportsCollisions: bool)

  /** The components of one entity of the store. */
  datatype Record =
    | GunRecord(gun: Gun, body: Body)
    | RadarRecord(radar: Radar, body: Body)
    | TankRecord(tank: Tank, health: Health, damage: DamageDealer, commands: CommandSource,
                 events: Events.EventSink, client: Client, body: Body)

  // ---------------------------------------------------------------------
  // Initial entities

  /**
   * The x coordinate of the tank with the given descriptor index; every tank
   * starts at y = 0. Tanks sit 150 apart from x = 10 on, so the index can be
   * read back from the position.
   */
  function SpawnX(index: nat): (x: real)
    ensures x >= 10.0
    ensures (x - 10.0) / 150.0 == index as real
  {
    150.0 * (index as real) + 10.0
  }

  /** Derived from SpawnX: tanks with different indexes start at least 150 apart, in index order. */
  lemma SpawnXSpacing(i: nat, j: nat)
    requires i < j
    ensures SpawnX(j) - SpawnX(i) >= 150.0
  {
  }

  /** The transform every new body gets: at (x, y, 0), turned by the initial rotation. */
  function InitialTransform(x: real, y: real): (t: Transform)
    ensures t.x == x && t.y == y && t.z == 0.0 && t.rotation == InitialRotation
  {
    Transform(x, y, 0.0, InitialRotation)
  }

  /** The gun `create_gun` spawns. */
  function InitialGun(x: real, y: real): (r: Record)
    ensures r.GunRecord? && r.gun.locked
    ensures r.body.transform == InitialTransform(x, y)
    ensures r.body.sensor && r.body.collisionType.None? && !r.body.reportsCollisions
    ensures r.body.groups == GunGroups && r.body.velocity == ZeroVelocity
  {
    GunRecord(Gun(true), Body(InitialTransform(x, y), None, true, GunGroups, ZeroVelocity, false))
  }

  /** The radar `create_radar` spawns. */
  function InitialRadar(x: real, y: real): (r: Record)
    ensures r.RadarRecord? && r.radar.locked
    ensures r.body.transform == InitialTransform(x, y)
    ensures r.body.sensor && r.body.collisionType == Some(Events.Radar) && !r.body.reportsCollisions
    ensures r.body.groups == RadarGroups && r.body.velocity == ZeroVelocity
  {
    RadarRecord(Radar(true), Body(InitialTransform(x, y), Some(Events.Radar), true, RadarGroups, ZeroVelocity, false))
  }

  /** The tank `create_base_tank` spawns, owning the given gun, radar, command queue and event queue. */
  function InitialTank(info: TankInfo, gun: EntityId, radar: EntityId, x: real, y: real, client: Client,
                       commands: CommandSource, events: Events.EventSink): (r: Record)
    ensures r.TankRecord? && r.tank.info == info && r.client == client
    ensures r.tank.gun == gun && r.tank.radar == radar
    ensures r.commands == commands && r.events == events
    ensures r.health.val == MaxHealth && r.tank.cooldown == 0 && r.damage.damageDealt == 0
    ensures r.body.transform == InitialTransform(x, y)
    ensures !r.body.sensor && r.body.collisionType == Some(Events.Tank) && r.body.reportsCollisions
    ensures r.body.groups == TankGroups && r.body.velocity == ZeroVelocity
  {
    TankRecord(Tank(info, 0, gun, radar), Health(MaxHealth), DamageDealer(0), commands, events, client,
               Body(InitialTransform(x, y), Some(Events.Tank), false, TankGroups, ZeroVelocity, true))
  }

  // ---------------------------------------------------------------------
  // Store invariants

  predicate IsTank(m: map<EntityId, Record>, id: EntityId) { id in m && m[id].TankRecord? }
  predicate IsGun(m: map<EntityId, Record>, id: EntityId) { id in m && m[id].GunRecord? }
  predicate IsRadar(m: map<EntityId, Record>, id: EntityId) { id in m && m[id].RadarRecord? }

  /**
   * Every tank owns a gun and a radar that exist in the store, and no two
   * tanks share a gun, a radar, a command queue or an event queue.
   */
  ghost predicate Owned(m: map<EntityId, Record>) {
    && (forall t {:trigger IsTank(m, t)} :: IsTank(m, t) ==>
          IsGun(m, m[t].tank.gun) && IsRadar(m, m[t].tank.radar))
    && (forall t, u {:trigger IsTank(m, t), IsTank(m, u)} :: IsTank(m, t) && IsTank(m, u) && t != u ==>
          && m[t].tank.gun != m[u].tank.gun
          && m[t].tank.radar != m[u].tank.radar
          && m[t].commands != m[u].commands
          && m[t].events != m[u].events)
  }

  /** Every id in the store is below the next id to hand out. */
  ghost predicate IdsBelow(m: map<EntityId, Record>, next: EntityId) {
    forall id :: id in m ==> id < next
  }

  /**
   * Adding a gun, a radar and a tank that owns them, under three fresh ids
   * and with queues no tank of the store uses, keeps ownership one-to-one.
   */
  lemma OwnedAfterSpawn(m: map<EntityId, Record>, next: EntityId, info: TankInfo, x: real, y: real,
                        client: Client, commands: CommandSource, events: Events.EventSink)
    requires Owned(m) && IdsBelow(m, next)
    requires forall t :: IsTank(m, t) ==> m[t].commands != commands && m[t].events != events
    ensures Owned(m[next := InitialGun(x, y)][next + 1 := InitialRadar(x, y)]
                   [next + 2 := InitialTank(info, next, next + 1, x, y, client, commands, events)])
  {
    var m' := m[next := InitialGun(x, y)][next + 1 := InitialRadar(x, y)]
               [next + 2 := InitialTank(info, next, next + 1, x, y, client, commands, events)];
    forall t: EntityId | IsTank(m', t)
      ensures IsGun(m', m'[t].tank.gun) && IsRadar(m', m'[t].tank.radar)
    {
      if t != next + 2 {
        assert IsTank(m, t);
      }
    }
    forall t: EntityId, u: EntityId | IsTank(m', t) && IsTank(m', u) && t != u
      ensures && m'[t].tank.gun != m'[u].tank.gun
              && m'[t].tank.radar != m'[u].tank.radar
              && m'[t].commands != m'[u].commands
              && m'[t].events != m'[u].events
    {
      if t == next + 2 {
        assert IsTank(m, u) && IsGun(m, m[u].tank.gun) && IsRadar(m, m[u].tank.radar);
      } else if u == next + 2 {
        assert IsTank(m, t) && IsGun(m, m[t].tank.gun) && IsRadar(m, m[t].tank.radar);
      } else {
        assert IsTank(m, t) && IsTank(m, u);
      }
    }
  }

  /**
   * Adding an entity that is not a tank under an id the store does not use
   * keeps ownership one-to-one: every tank still finds its gun and radar.
   */
  lemma OwnedAfterAdd(m: map<EntityId, Record>, id: EntityId, r: Record)
    requires Owned(m) && id !in m && !r.TankRecord?
    ensures Owned(m[id := r])
  {
    var m' := m[id := r];
    forall t: EntityId | IsTank(m', t)
      ensures IsGun(m', m'[t].tank.gun) && IsRadar(m', m'[t].tank.radar)
    {
      assert IsTank(m, t);
    }
    forall t: EntityId, u: EntityId | IsTank(m', t) && IsTank(m', u) && t != u
      ensures && m'[t].tank.gun != m'[u].tank.gun
              && m'[t].tank.radar != m'[u].tank.radar
              && m'[t].commands != m'[u].commands
              && m'[t].events != m'[u].events
    {
      assert IsTank(m, t) && IsTank(m, u);
    }
  }

  /** The ids spawned for the descriptor at position i of the list, counting from base. */
  function GunId(base: EntityId, i: nat): EntityId { base + 3 * i }
  function RadarId(base: EntityId, i: nat): EntityId { base + 3 * i + 1 }
  function TankId(base: EntityId, i: nat): EntityId { base + 3 * i + 2 }

  /** Every entity of m is still in m', unchanged. */
  ghost predicate Extends(m: map<EntityId, Record>, m': map<EntityId, Record>) {
    forall id :: id in m ==> id in m' && m'[id] == m[id]
  }

  /**
   * The store holds, for the descriptor at position i, its gun, its radar
   * and a tank that owns exactly those two, all placed at (SpawnX(index), 0),
   * with a client for the descriptor's container.
   */
  ghost predicate SetUp(m: map<EntityId, Record>, base: EntityId, i: nat, info: TankInfo) {
    var g, r, t := GunId(base, i), RadarId(base, i), TankId(base, i);
    var x := SpawnX(info.index);
    && g in m && m[g] == InitialGun(x, 0.0)
    && r in m && m[r] == InitialRadar(x, 0.0)
    && t in m && m[t].TankRecord?
    && m[t] == InitialTank(info, g, r, x, 0.0, DockerClient(info.containerName), m[t].commands, m[t].events)
  }

  /**
   * One turn of the setup loop, on values: spawning the entities of the
   * descriptor at position i under the next three ids keeps every entity
   * already there and every descriptor already set up, and sets up this one.
   */
  lemma SpawnStep(m: map<EntityId, Record>, base: EntityId, i: nat, all: seq<TankInfo>,
                  commands: CommandSource, events: Events.EventSink)
    requires i < |all| && IdsBelow(m, GunId(base, i))
    requires forall j :: 0 <= j < i ==> SetUp(m, base, j, all[j])
    ensures var x := SpawnX(all[i].index);
            var m' := m[GunId(base, i) := InitialGun(x, 0.0)][RadarId(base, i) := InitialRadar(x, 0.0)]
                       [TankId(base, i) := InitialTank(all[i], GunId(base, i), RadarId(base, i), x, 0.0,
                                                       DockerClient(all[i].containerName), commands, events)];
            && Extends(m, m') && IdsBelow(m', GunId(base, i + 1))
            && forall j :: 0 <= j <= i ==> SetUp(m', base, j, all[j])
  {
  }

  // ---------------------------------------------------------------------
  // The world store

  class World {
    var entities: map<EntityId, Record>
    var nextId: EntityId

    ghost predicate Valid()
      reads this
    {
      IdsBelow(entities, nextId) && Owned(entities)
    }

    /** An empty world. */
    constructor ()
      ensures Valid() && entities == map[] && nextId == 0
    {
      entities := map[];
      nextId := 0;
    }

    /** Inserts an entity under a fresh id and returns the id. */
    method Spawn(r: Record) returns (id: EntityId)
      requires IdsBelow(entities, nextId)
      modifies this
      ensures IdsBelow(entities, nextId)
      ensures id == old(nextId) && id !in old(entities) && nextId == old(nextId) + 1
      ensures entities == old(entities)[id := r]
    {
      id := nextId;
      entities := entities[id := r];
      nextId := nextId + 1;
    }

    /** `create_gun`: a locked gun at (x, y). */
    method CreateGun(x: real, y: real) returns (id: EntityId)
      requires Valid()
      modifies this
      ensures Valid()
      ensures id == old(nextId) && id !in old(entities) && nextId == old(nextId) + 1
      ensures entities == old(entities)[id := InitialGun(x, y)]
    {
      OwnedAfterAdd(entities, nextId, InitialGun(x, y));
      id := Spawn(InitialGun(x, y));
    }

    /** `create_radar`: a locked radar at (x, y). */
    method CreateRadar(x: real, y: real) returns (id: EntityId)
      requires Valid()
      modifies this
      ensures Valid()
      ensures id == old(nextId) && id !in old(entities) && nextId == old(nextId) + 1
      ensures entities == old(entities)[id := InitialRadar(x, y)]
    {
      OwnedAfterAdd(entities, nextId, InitialRadar(x, y));
      id := Spawn(InitialRadar(x, y));
    }

    /** `create_base_tank`: a tank at (x, y) owning gun and radar, with new, empty command and event queues. */
    method CreateBaseTank(info: TankInfo, gun: EntityId, radar: EntityId, x: real, y: real, client: Client)
      returns (id: EntityId)
      requires IdsBelow(entities, nextId)
      modifies this
      ensures IdsBelow(entities, nextId)
      ensures id == old(nextId) && id !in old(entities) && nextId == old(nextId) + 1
      ensures id in entities && entities[id].TankRecord?
      ensures fresh(entities[id].commands) && entities[id].commands.queue == []
      ensures fresh(entities[id].events) && entities[id].events.queue == []
      ensures entities == old(entities)[id := InitialTank(info, gun, radar, x, y, client,
                                                          entities[id].commands, entities[id].events)]
    {
      var commands := new CommandSource.Default();
      var events := new Events.EventSink.Default();
      id := Spawn(InitialTank(info, gun, radar, x, y, client, commands, events));
    }

    /**
     * `setup_sim_tanks`: for each descriptor in turn, a gun, a radar and a
     * tank that owns them. Nothing already in the store changes, and the
     * store gains exactly the 3 * |all| new entities.
     */
    method SetupSimTanks(all: seq<TankInfo>)
      requires Valid()
      modifies this
      ensures Valid()
      ensures nextId == old(nextId) + 3 * |all|
      ensures forall id :: id in old(entities) ==> id in entities && entities[id] == old(entities)[id]
      ensures forall id :: id in entities && id !in old(entities) ==> old(nextId) <= id
      ensures forall i :: 0 <= i < |all| ==>
                && SetUp(entities, old(nextId), i, all[i])
                && var tank := entities[TankId(old(nextId), i)];
                && fresh(tank.commands) && tank.commands.queue == []
                && fresh(tank.events) && tank.events.queue == []
    {
      var i := 0;
      while i < |all|
        invariant 0 <= i <= |all|
        invariant Valid()
        invariant nextId == old(nextId) + 3 * i
        invariant Extends(old(entities), entities)
        invariant forall id :: id in entities && id !in old(entities) ==> old(nextId) <= id
        invariant forall j :: 0 <= j < i ==> SetUp(entities, old(nextId), j, all[j])
        invariant forall j :: 0 <= j < i ==>
                    && TankId(old(nextId), j) in entities && entities[TankId(old(nextId), j)].TankRecord?
                    && var tank := entities[TankId(old(nextId), j)];
                    && fresh(tank.commands) && tank.commands.queue == []
                    && fresh(tank.events) && tank.events.queue == []
      {
        ghost var before := entities;
        var info := all[i];
        var x := SpawnX(info.index);
        var y := 0.0;
        var gun := CreateGun(x, y);
        var radar := CreateRadar(x, y);
        var client := DockerClient(info.containerName);
        var tank := CreateBaseTank(info, gun, radar, x, y, client);
        ghost var commands, events := entities[tank].commands, entities[tank].events;
        assert gun == GunId(old(nextId), i) && radar == RadarId(old(nextId), i) && tank == TankId(old(nextId), i);
        assert entities == before[gun := InitialGun(x, y)][radar := InitialRadar(x, y)]
                                 [tank := InitialTank(info, gun, radar, x, y, client, commands, events)];
        OwnedAfterSpawn(before, gun, info, x, y, client, commands, events);
        SpawnStep(before, old(nextId), i, all, commands, events);
        i := i + 1;
      }
    }
  }
}
