/**
 * The teleport line special: find the destination spot by thing id and/or
 * sector tag, then move the activating entity there and freeze it.
 */
module Teleport {
  import opened Wrappers

  /** Tics an entity stays frozen after teleporting. */
  const TeleportFreezeTicks: int := 18
  /** The thing id and sector tag that mean "none". */
  const NoTid: int := 0
  const NoTag: int := 0

  datatype Vec3D = Vec3D(x: real, y: real, z: real)

  const Zero: Vec3D := Vec3D(0.0, 0.0, 0.0)

  datatype SpecialTickStatus = Continue | Destroy

  /** The entity state the teleport reads and writes. */
  class Entity {
    const thingId: int
    const isTeleportSpot: bool
    const isPlayer: bool
    var position: Vec3D
    var angleRadians: real
    var velocity: Vec3D
    var frozenTics: int
    var pitchRadians: real
    var onGround: bool

    /** Builds an entity for the model's own use; the engine's spawning is not part of this model. */
    constructor(thingId: int, isTeleportSpot: bool, isPlayer: bool, position: Vec3D, angleRadians: real)
      ensures this.thingId == thingId && this.isTeleportSpot == isTeleportSpot && this.isPlayer == isPlayer
      ensures this.position == position && this.angleRadians == angleRadians
      ensures velocity == Zero && frozenTics == 0 && pitchRadians == 0.0 && !onGround
    {
      this.thingId := thingId;
      this.isTeleportSpot := isTeleportSpot;
      this.isPlayer := isPlayer;
      this.position := position;
      this.angleRadians := angleRadians;
      velocity := Zero;
      frozenTics := 0;
      pitchRadians := 0.0;
      onGround := false;
    }
  }

  datatype Sector = Sector(tag: int, entities: seq<Entity>)

  /** The world's sectors and entities, in the order its lookups return them. */
  datatype World = World(sectors: seq<Sector>, entities: seq<Entity>)

  /** `FindBySectorTag`: the sectors carrying `tag`, in order. */
  function SectorsWithTag(sectors: seq<Sector>, tag: int): (r: seq<Sector>)
    ensures forall i :: 0 <= i < |r| ==> r[i] in sectors && r[i].tag == tag
    ensures forall i :: 0 <= i < |sectors| && sectors[i].tag == tag ==> sectors[i] in r
  {
    if sectors == [] then []
    else if sectors[0].tag == tag then [sectors[0]] + SectorsWithTag(sectors[1..], tag)
    else SectorsWithTag(sectors[1..], tag)
  }

  /** The filter keeps the sectors' order: filtering a concatenation filters each part in turn. */
  lemma {:induction false} SectorsWithTagAppend(a: seq<Sector>, b: seq<Sector>, tag: int)
    ensures SectorsWithTag(a + b, tag) == SectorsWithTag(a, tag) + SectorsWithTag(b, tag)
    ensures |a| == 1 ==> SectorsWithTag(a, tag) == (if a[0].tag == tag then a else [])
    decreases |a|
  {
    if a == [] {
      assert a + b == b;
    } else {
      var rest := a[1..];
      assert (a + b)[0] == a[0];
      assert (a + b)[1..] == rest + b;
      SectorsWithTagAppend(rest, b, tag);
      if |a| == 1 {
        assert rest == [];
      }
    }
  }

  /** A sector is found by its tag exactly when it is one of the world's sectors and carries that tag. */
  function FindBySectorTag(w: World, tag: int): (r: seq<Sector>)
    ensures forall i :: 0 <= i < |r| ==> r[i] in w.sectors && r[i].tag == tag
    ensures forall i :: 0 <= i < |w.sectors| && w.sectors[i].tag == tag ==> w.sectors[i] in r
  {
    SectorsWithTag(w.sectors, tag)
  }

  /** `FindByTid`: the entities whose thing id is `tid`, in order. */
  function EntitiesWithTid(entities: seq<Entity>, tid: int): (r: seq<Entity>)
    ensures forall i :: 0 <= i < |r| ==> r[i] in entities && r[i].thingId == tid
    ensures forall i :: 0 <= i < |entities| && entities[i].thingId == tid ==> entities[i] in r
  {
    if entities == [] then []
    else if entities[0].thingId == tid then [entities[0]] + EntitiesWithTid(entities[1..], tid)
    else EntitiesWithTid(entities[1..], tid)
  }

  /** The filter keeps the entities' order: filtering a concatenation filters each part in turn. */
  lemma {:induction false} EntitiesWithTidAppend(a: seq<Entity>, b: seq<Entity>, tid: int)
    ensures EntitiesWithTid(a + b, tid) == EntitiesWithTid(a, tid) + EntitiesWithTid(b, tid)
    ensures |a| == 1 ==> EntitiesWithTid(a, tid) == (if a[0].thingId == tid then a else [])
    decreases |a|
  {
    if a == [] {
      assert a + b == b;
    } else {
      var rest := a[1..];
      assert (a + b)[0] == a[0];
      assert (a + b)[1..] == rest + b;
      EntitiesWithTidAppend(rest, b, tid);
      if |a| == 1 {
        assert rest == [];
      }
    }
  }

  /** An entity is found by its thing id exactly when it is one of the world's entities and has that id. */
  function FindByTid(w: World, tid: int): (r: seq<Entity>)
    ensures forall i :: 0 <= i < |r| ==> r[i] in w.entities && r[i].thingId == tid
    ensures forall i :: 0 <= i < |w.entities| && w.entities[i].thingId == tid ==> w.entities[i] in r
  {
    EntitiesWithTid(w.entities, tid)
  }

  /** A teleport spot, with the required thing id when one is given. */
  predicate IsDestination(e: Entity, tid: Option<int>) {
    e.isTeleportSpot && (tid.None? || e.thingId == tid.value)
  }

  /** `entities[i]` is a destination and none comes before it. */
  predicate FirstAt(entities: seq<Entity>, i: int, tid: Option<int>) {
    0 <= i < |entities| && IsDestination(entities[i], tid)
    && forall k :: 0 <= k < i ==> !IsDestination(entities[k], tid)
  }

  /** The first destination in `entities`. */
  function FirstSpot(entities: seq<Entity>, tid: Option<int>): (r: Option<Entity>)
    ensures r.None? <==> forall i :: 0 <= i < |entities| ==> !IsDestination(entities[i], tid)
    ensures r.Some? ==> exists i :: FirstAt(entities, i, tid) && entities[i] == r.value
  {
    if entities == [] then None
    else if IsDestination(entities[0], tid) then Some(entities[0])
    else
      var r := FirstSpot(entities[1..], tid);
      assert r.None? ==> forall i :: 0 <= i < |entities| ==> !IsDestination(entities[i], tid) by {
        if r.None? {
          forall i | 0 <= i < |entities|
            ensures !IsDestination(entities[i], tid)
          {
            if i > 0 {
              assert entities[i] == entities[1..][i - 1];
            }
          }
        }
      }
      assert r.Some? ==> exists i :: FirstAt(entities, i, tid) && entities[i] == r.value by {
        if r.Some? {
          var i :| FirstAt(entities[1..], i, tid) && entities[1..][i] == r.value;
          assert entities[i + 1] == r.value;
          forall k | 0 <= k < i + 1
            ensures !IsDestination(entities[k], tid)
          {
            if k > 0 {
              assert entities[k] == entities[1..][k - 1];
            }
          }
        }
      }
      r
  }

  /** The entities of `sectors`, sector after sector. */
  function Flatten(sectors: seq<Sector>): seq<Entity> {
    if sectors == [] then [] else sectors[0].entities + Flatten(sectors[1..])
  }

  /** The nested search: sector after sector, entity after entity. */
  function FirstSpotInSectors(sectors: seq<Sector>, tid: Option<int>): (r: Option<Entity>)
    ensures r.Some? ==> IsDestination(r.value, tid)
  {
    if sectors == [] then None
    else
      var here := FirstSpot(sectors[0].entities, tid);
      if here.Some? then here else FirstSpotInSectors(sectors[1..], tid)
  }

  lemma {:induction false} FirstSpotAppend(a: seq<Entity>, b: seq<Entity>, tid: Option<int>)
    ensures FirstSpot(a + b, tid) == if FirstSpot(a, tid).Some? then FirstSpot(a, tid) else FirstSpot(b, tid)
    decreases |a|
  {
    if a != [] {
      assert (a + b)[1..] == a[1..] + b;
      FirstSpotAppend(a[1..], b, tid);
    } else {
      assert a + b == b;
    }
  }

  /** The nested loops find the first destination of all the sectors' entities taken in order. */
  lemma {:induction false} NestedSearchIsFlatSearch(sectors: seq<Sector>, tid: Option<int>)
    ensures FirstSpotInSectors(sectors, tid) == FirstSpot(Flatten(sectors), tid)
    decreases |sectors|
  {
    if sectors != [] {
      NestedSearchIsFlatSearch(sectors[1..], tid);
      FirstSpotAppend(sectors[0].entities, Flatten(sectors[1..]), tid);
    }
  }

  lemma {:induction false} FlattenMembers(sectors: seq<Sector>, e: Entity)
    ensures e in Flatten(sectors) ==> exists i :: 0 <= i < |sectors| && e in sectors[i].entities
    decreases |sectors|
  {
    if sectors != [] && e !in sectors[0].entities {
      FlattenMembers(sectors[1..], e);
      if e in Flatten(sectors) {
        var i :| 0 <= i < |sectors[1..]| && e in sectors[1..][i].entities;
        assert sectors[i + 1] == sectors[1..][i];
      }
    }
  }

  /** `FindTeleportSpot`: the search the line's first two arguments (tid, tag) select. */
  function FindTeleportSpot(w: World, tid: int, tag: int): (r: Option<Entity>)
    ensures r.Some? ==> r.value.isTeleportSpot
  {
    if tid == NoTid && tag == NoTag then None
    else if tid == NoTid then FirstSpotInSectors(FindBySectorTag(w, tag), None)
    else if tag == NoTag then FirstSpot(FindByTid(w, tid), None)
    else FirstSpotInSectors(FindBySectorTag(w, tag), Some(tid))
  }

  /** Searching the entities with a thing id is searching all entities for a spot with that id. */
  lemma {:induction false} TidSearch(entities: seq<Entity>, tid: int)
    ensures FirstSpot(EntitiesWithTid(entities, tid), None) == FirstSpot(entities, Some(tid))
    decreases |entities|
  {
    if entities != [] {
      TidSearch(entities[1..], tid);
    }
  }

  /**
   * Where the destination comes from in each case: nothing without a tid
   * and a tag; with a tag, a spot in a sector with that tag; with a tid, a
   * spot with that thing id; and the first such spot in search order.
   */
  lemma FindTeleportSpotCases(w: World, tid: int, tag: int)
    ensures tid == NoTid && tag == NoTag ==> FindTeleportSpot(w, tid, tag).None?
    ensures tid == NoTid && tag != NoTag ==>
      FindTeleportSpot(w, tid, tag) == FirstSpot(Flatten(FindBySectorTag(w, tag)), None)
    ensures tid != NoTid && tag == NoTag ==>
      FindTeleportSpot(w, tid, tag) == FirstSpot(w.entities, Some(tid))
    ensures tid != NoTid && tag != NoTag ==>
      FindTeleportSpot(w, tid, tag) == FirstSpot(Flatten(FindBySectorTag(w, tag)), Some(tid))
    ensures var r := FindTeleportSpot(w, tid, tag);
      r.Some? && tag != NoTag ==> exists i :: 0 <= i < |w.sectors| && w.sectors[i].tag == tag && r.value in w.sectors[i].entities
    ensures var r := FindTeleportSpot(w, tid, tag);
      r.Some? && tid != NoTid ==> r.value.thingId == tid
    ensures var r := FindTeleportSpot(w, tid, tag);
      r.Some? && tag == NoTag ==> r.value in w.entities
  {
    var tagged := FindBySectorTag(w, tag);
    NestedSearchIsFlatSearch(tagged, None);
    NestedSearchIsFlatSearch(tagged, Some(tid));
    TidSearch(w.entities, tid);
    var r := FindTeleportSpot(w, tid, tag);
    if r.Some? && tag != NoTag {
      FlattenMembers(tagged, r.value);
    }
  }

  /** The special created by activating a teleport line. */
  class TeleportSpecial {
    /** The activating entity. */
    const entity: Entity
    /** The line's first argument. */
    const tid: int
    /** The line's second argument. */
    const tag: int
    const world: World

    constructor(entity: Entity, tid: int, tag: int, world: World)
      ensures this.entity == entity && this.tid == tid && this.tag == tag && this.world == world
    {
      this.entity := entity;
      this.tid := tid;
      this.tag := tag;
      this.world := world;
    }

    /**
     * `Tick`: without a destination nothing changes; otherwise the entity
     * is frozen, stopped, placed at the spot with the spot's angle, and a
     * player looks level. The ground check after relinking is a parameter.
     * Either way the special is done.
     */
    method Tick(onGroundAtDestination: bool) returns (status: SpecialTickStatus)
      modifies entity
      ensures status == Destroy
      ensures FindTeleportSpot(world, tid, tag).None? ==> unchanged(entity)
      ensures FindTeleportSpot(world, tid, tag).Some? ==>
        var spot := FindTeleportSpot(world, tid, tag).value;
        && entity.frozenTics == TeleportFreezeTicks
        && entity.velocity == Zero
        && entity.position == (if spot == entity then old(entity.position) else spot.position)
        && entity.angleRadians == (if spot == entity then old(entity.angleRadians) else spot.angleRadians)
        && entity.pitchRadians == (if entity.isPlayer then 0.0 else old(entity.pitchRadians))
        && entity.onGround == onGroundAtDestination
    {
      var teleportSpot := FindTeleportSpot(world, tid, tag);
      if teleportSpot.None? {
        return Destroy;
      }
      var spot := teleportSpot.value;
      var position := spot.position;
      var angle := spot.angleRadians;
      entity.frozenTics := TeleportFreezeTicks;
      entity.velocity := Zero;
      entity.position := position;
      entity.angleRadians := angle;
      if entity.isPlayer {
        entity.pitchRadians := 0.0;
      }
      entity.onGround := onGroundAtDestination;
      return Destroy;
    }
  }
}
