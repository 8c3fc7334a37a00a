# code-tanks: event queue, match setup and base-36 URLs in Dafny

This project models three small pieces of the code-tanks battle simulator and its server:

- **The per-tank event queue** (`simulator/src/c_event.rs`). An `EventSink` is an ordered queue of
  `Event` records. `generate_event` pushes one `"hit"` record onto it. The record holds the collision
  type's name, the entity, the transform's x and y and a velocity snapshot. The snapshot is the zero
  velocity when no velocity is given. Here `Events.EventSink` is a class with a `seq<Event>` field.
  `Events.GenerateEvent` appends to it in place, and `Events.HitEvent` is the record it appends.
- **Match setup** (`simulator/src/s_setup_sim_tanks.rs`). The world store is
  `SetupSimTanks.World`: one map from entity id to the entity's components (`Record`), and a counter
  that hands out fresh ids. `create_gun`, `create_radar` and `create_base_tank` each spawn one entity
  with fixed initial components. `setup_sim_tanks` loops over the tank descriptors. For each one it
  spawns a gun, a radar and a tank that owns both, all at x = 150·index + 10, y = 0. The loop is proved
  to keep ownership one-to-one (`Owned`): every tank's gun and radar exist, and no two tanks share a
  gun, a radar, a command queue or an event queue. It also leaves every existing entity unchanged and
  adds exactly the three entities per descriptor, with the ids given by `GunId`, `RadarId` and
  `TankId`.
- **The base-36 encoder** (`server/src/db.rs`). This is the PL/pgSQL function `base36_encode`, plus its
  use for a tank's `url` column: `SUBSTRING(base36_encode(...), 0, 8)`. `Base36.Base36Encode` is the
  conversion loop, whose exit test sits at the bottom. Its specification is `Digits` (the numeral the loop builds) and
  `Value` (reading a numeral back). These two are proved inverse in both directions on canonical
  numerals: nonempty, alphabet-only, and no leading `0` unless the numeral is `"0"`. PostgreSQL's
  `abs` raises "bigint out of range" for the smallest bigint, −2^63. That error path is modelled as
  `Failure(BigintOutOfRange)`.

Modelling choices:

- Collision masks. The values of the `CollisionMask` constants are not part of this model. They are
  assumed to be pairwise-distinct single bits, with `NONE` as no bit. So a mask is modelled as a set
  of `Category` values: `|` is union and "excludes" is disjointness.
- `Health::MAX_HEALTH` and the rotation for `Tank::INITIAL_ROTATION` are constants whose values are
  not part of this model (`MaxHealth`, `InitialRotation`).
- The definition of the `CollisionType` enum is not part of this model. The model assumes the variants
  `Tank` and `Radar`, which the setup code uses, plus `Bullet` and `Wall`. It also assumes that the
  derived `Debug` output of each variant is the variant's name, which is what an event records.
- `CommandSource` is only created empty here. Its command encoding is not part of this model.
- Coordinates and velocities are reals.

Two facts about the code that the model keeps:

- Every event that `generate_event` builds has type `"hit"`, whatever the collision type.
- The gun, like the radar, is a sensor body, and it is in no collision group.

## Model

| member | source | states |
|---|---|---|
| `Events.EventSink.Default` | simulator/src/c_event.rs:13-16 | a new event sink has an empty queue |
| `Events.CollisionTypeName` | simulator/src/c_event.rs:44 | each collision type is recorded under its variant name, and each name belongs to exactly one type, so distinct types get distinct names |
| `Events.HitEvent` | simulator/src/c_event.rs:34-58 | the record's type is "hit"; it records the collision type's name, the entity and the translation x and y; its velocity is the given one, or zero when none is given |
| `Events.GenerateEvent` | simulator/src/c_event.rs:27-60 | the queue grows by exactly one; every earlier event stays in place and in order; the new last event is the hit record of the arguments |
| `Events.NoVelocityIsZeroVelocity` | simulator/src/c_event.rs:34-39 | giving no velocity records exactly what giving the zero velocity records |
| `Events.HitEventRecordsCollisionType` | simulator/src/c_event.rs:42-44 | different collision types are recorded under different names; the event type is "hit" for every collision type |
| `SetupSimTanks.CollisionGroupsOfKinds` | simulator/src/s_setup_sim_tanks.rs:33-148 | a gun has no membership and no filter; a radar is in RADAR and filters TANK, BULLET and WALL, so it excludes its own group; a tank is in TANK and filters every category |
| `SetupSimTanks.CommandSource.Default` | simulator/src/s_setup_sim_tanks.rs:126 | a new command source has no pending command |
| `SetupSimTanks.SpawnX` | simulator/src/s_setup_sim_tanks.rs:194 | a tank starts at x of at least 10, and its descriptor index is (x − 10) / 150 |
| `SetupSimTanks.InitialTransform` | simulator/src/s_setup_sim_tanks.rs:16-17 | a new body is at (x, y, 0) and carries the initial rotation, the same for guns, radars and tanks |
| `SetupSimTanks.InitialGun` | simulator/src/s_setup_sim_tanks.rs:15-47 | a new gun is locked, is a sensor with the initial transform at (x, y), reports no collisions, has the gun collision groups and has zero velocity |
| `SetupSimTanks.InitialRadar` | simulator/src/s_setup_sim_tanks.rs:49-91 | a new radar is locked, is a sensor with a Radar collider and the initial transform at (x, y), reports no collisions, has the radar collision groups and has zero velocity |
| `SetupSimTanks.InitialTank` | simulator/src/s_setup_sim_tanks.rs:93-167 | a new tank has full health, cooldown 0 and damage dealt 0; it refers to the given gun, radar, client and queues; it is a solid body with a Tank collider and the initial transform at (x, y) that reports collisions, has the tank collision groups and has zero velocity |
| `SetupSimTanks.SpawnXSpacing` | simulator/src/s_setup_sim_tanks.rs:194-195 | derived from the placement formula: tanks with larger descriptor indexes start further along x, at least 150 apart |
| `SetupSimTanks.OwnedAfterSpawn` | simulator/src/s_setup_sim_tanks.rs:197-205 | spawning a gun, a radar and a tank that owns them, under fresh ids and with unshared queues, keeps ownership one-to-one |
| `SetupSimTanks.OwnedAfterAdd` | simulator/src/s_setup_sim_tanks.rs:15-91 | adding any entity that is not a tank, such as a new gun or radar, under an unused id keeps ownership one-to-one |
| `SetupSimTanks.SpawnStep` | simulator/src/s_setup_sim_tanks.rs:183-206 | one loop turn keeps every existing entity and every descriptor already set up, and sets up the current descriptor |
| `SetupSimTanks.World.Spawn` | simulator/src/s_setup_sim_tanks.rs:18-46 | spawning inserts the components under a fresh id, returns that id and changes nothing else |
| `SetupSimTanks.World.CreateGun` | simulator/src/s_setup_sim_tanks.rs:15-47 | the store gains exactly one entity, the initial gun at (x, y), under a fresh id; ownership stays one-to-one |
| `SetupSimTanks.World.CreateRadar` | simulator/src/s_setup_sim_tanks.rs:49-91 | the store gains exactly one entity, the initial radar at (x, y), under a fresh id; ownership stays one-to-one |
| `SetupSimTanks.World.CreateBaseTank` | simulator/src/s_setup_sim_tanks.rs:93-167 | the store gains exactly one entity, the initial tank at (x, y), under a fresh id; it owns new, empty command and event queues |
| `SetupSimTanks.World.SetupSimTanks` | simulator/src/s_setup_sim_tanks.rs:180-207 | one gun, one radar and one tank per descriptor, in list order; each tank owns the gun and radar from its own iteration; all three sit at (150·index + 10, 0); the client is for the descriptor's container; the queues are new and empty; existing entities are unchanged; ownership stays one-to-one |
| `Base36.DigitValue` | server/src/db.rs:47 | every alphabet character has a digit value below 36, at its own position in `0-9a-z` |
| `Base36.Digits` | server/src/db.rs:57-65 | the numeral is never empty, uses only `0-9a-z`, and has no leading `0` unless it is `"0"` |
| `Base36.ValueOfDigits` | server/src/db.rs:59-61 | reading the numeral of v back as base-36 digits, most significant first, gives v |
| `Base36.DigitsOfValue` | server/src/db.rs:57-65 | every canonical numeral is the numeral of its own value |
| `Base36.DigitsInjective` | server/src/db.rs:59-61 | different numbers have different numerals |
| `Base36.DigitsLengthBound` | server/src/db.rs:57-65 | a number below 36^k has at most k digits |
| `Base36.BigintDigitsAtMost13` | server/src/db.rs:51-54 | the magnitude of any bigint encodes to at most 13 characters |
| `Base36.BigintAbs` | server/src/db.rs:54 | abs fails exactly on the smallest bigint; otherwise it returns n or −n, and at most the largest bigint |
| `Base36.Encode` | server/src/db.rs:34-70 | `base36_encode(n)` fails exactly on the smallest bigint; otherwise it is a canonical numeral whose value is abs(n) |
| `Base36.Base36Encode` | server/src/db.rs:34-70 | the loop ends; it fails exactly on the smallest bigint; otherwise it returns a canonical numeral whose value is abs(n) |
| `Base36.EncodeIgnoresSign` | server/src/db.rs:54 | n and −n encode alike, and successfully, whenever both are bigints |
| `Base36.EncodeZero` | server/src/db.rs:57-65 | 0 encodes to "0" |
| `Base36.Substring` | server/src/db.rs:217 | a negative count is the only error; the result is at most count characters long and is a contiguous slice of s starting at position max(start, 1); it holds exactly the positions of s from start up to, but not including, start + count |
| `Base36.SubstringFromZero` | server/src/db.rs:217 | `SUBSTRING(s, 0, 8)` is the first seven characters of s, or all of s if it is shorter |
| `Base36.TankUrl` | server/src/db.rs:217 | the url fails only when the hash prefix is the smallest bigint; otherwise it is exactly the first 7 characters of the encoding, or the whole encoding when that is shorter, so 1 to 7 alphabet characters |

## Left out

- Events.HitEvent: the event keeps the transform's rotation itself, not the heading computed from it. The heading is the `atan2` of the rotated unit vector, a floating-point computation.
- JSON serialisation of the event `info`: the model keeps it as a structured record.
- SetupSimTanks.InitialGun, SetupSimTanks.InitialRadar, SetupSimTanks.InitialTank: physics properties are not modelled. This covers collider shapes (the ball radii and the radar triangle), mass, density, damping, restitution, friction, gravity scale and visibility.
- SetupSimTanks.World.Spawn: ids come from a counter, so each spawn gets the next consecutive id, and the entity is in the store as soon as it is spawned. The engine promises only a fresh id: it may reuse freed ids, other startup systems reserve ids too, and the spawn takes effect when the command buffer is flushed. The ids given by `GunId`, `RadarId` and `TankId`, and their order, are facts about this model, not about the engine.
- The collision-filter rule the physics library applies to two bodies' groups is library behaviour. It is not part of this model, so the model states only the groups themselves.
- SetupSimTanks.SpawnX: positions are reals. The source's `f32` arithmetic is exact for the coordinates of small indexes, but its rounding for very large indexes is not modelled.
- The degree-to-radian conversion of the initial rotation is a float computation. The model uses one opaque constant rotation.
- The descriptor fields other than `index` and `container_name` are not modelled. `TankInfo` is cloned into the tank unchanged.
- server/src/db.rs apart from `base36_encode` is not modelled. This covers the connection pool, the `CREATE TABLE` statements and every query function. It also covers the `DIGEST(..., 'sha256')`, hex `ENCODE` and `::bit(64)::bigint` built-ins on line 217: `TankUrl` takes their result, a bigint, as its parameter.
- Base36.Base36Encode: the `RETURNS NULL ON NULL INPUT` behaviour is not modelled, because the model has no SQL NULL.
- The rest of the simulation (command acquisition and application, physics, collision classification, health update, match outcome) is not part of this model. Neither are the builder worker, the desktop launcher, the plugin wiring and the render stage.
