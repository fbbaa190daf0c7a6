/**
 * The integer parts of the legacy sprite renderer: which of the eight
 * rotation frames a sprite shows, how many sprites have already been drawn
 * at one map position (for the Z-fighting nudge), and the light level each
 * sprite vertex carries.
 */
module EntityRenderer {
  import opened Wrappers
  import opened DotNet

  const UInt32Modulus: int := 0x1_0000_0000
  const UInt32MaxValue: int := 0xFFFF_FFFF

  /** One eighth of the full circle in diamond-angle units (the width of a rotation frame). */
  const RotationSector: int := 0x2000_0000

  /** 180 + 22.5 degrees in diamond-angle units, written as the source computes it. */
  const SpriteFrameRotationAngle: int := 9 * (UInt32MaxValue / 16)

  const FullBright: int := 255

  type UInt32 = n: int | 0 <= n < 0x1_0000_0000
  type Int16 = n: int | -0x8000 <= n < 0x8000

  /** Unsigned 32-bit wrap-around of an integer. */
  function WrapU32(n: int): UInt32 { n % UInt32Modulus }

  /**
   * `CalculateRotation`: `(viewAngle - entityAngle + SpriteFrameRotationAngle) >> 29`
   * evaluated in unchecked 32-bit unsigned arithmetic.
   */
  function CalculateRotation(viewAngle: UInt32, entityAngle: UInt32): (r: nat)
    ensures r < 8
    ensures var shifted := WrapU32(viewAngle - entityAngle + SpriteFrameRotationAngle);
            r * RotationSector <= shifted < (r + 1) * RotationSector
  {
    WrapU32(viewAngle - entityAngle + SpriteFrameRotationAngle) / RotationSector
  }

  /** The offset constant is 0x8FFF_FFF7, just short of 180 + 22.5 degrees. */
  lemma RotationAngleValue()
    ensures SpriteFrameRotationAngle == 0x8FFF_FFF7
    ensures SpriteFrameRotationAngle == 4 * RotationSector + RotationSector / 2 - 9
  {
  }

  /** Adding a constant commutes with the 32-bit wrap-around. */
  lemma WrapAdd(x: int, c: int)
    ensures WrapU32(x + c) == WrapU32(WrapU32(x) + c)
  {
    var q := x / UInt32Modulus;
    assert x == q * UInt32Modulus + WrapU32(x);
    assert x + c == q * UInt32Modulus + (WrapU32(x) + c);
  }

  /** Only the wrapped difference of the two angles matters. */
  lemma RotationDependsOnDifference(v1: UInt32, e1: UInt32, v2: UInt32, e2: UInt32)
    requires WrapU32(v1 - e1) == WrapU32(v2 - e2)
    ensures CalculateRotation(v1, e1) == CalculateRotation(v2, e2)
  {
    WrapAdd(v1 - e1, SpriteFrameRotationAngle);
    WrapAdd(v2 - e2, SpriteFrameRotationAngle);
  }

  /** Looking at an actor's back (equal angles) shows rotation 4. */
  lemma EqualAnglesGiveRotationFour(a: UInt32)
    ensures CalculateRotation(a, a) == 4
  {
  }

  /** Facing an actor head-on (angles half a turn apart) shows rotation 0, its front. */
  lemma OppositeAnglesGiveRotationZero(a: UInt32)
    ensures CalculateRotation(WrapU32(a + 0x8000_0000), a) == 0
  {
    var v := WrapU32(a + 0x8000_0000);
    assert v - a == 0x8000_0000 || v - a == 0x8000_0000 - UInt32Modulus;
  }

  /** What the renderer knows of a sprite's definition: whether it has rotation frames. */
  datatype SpriteDefinition = SpriteDefinition(hasRotations: bool)

  /** Sprites without a definition or without rotations always use rotation 0. */
  function SelectRotation(spriteDef: Option<SpriteDefinition>, viewAngle: UInt32, entityAngle: UInt32): (r: nat)
    ensures r < 8
    ensures (spriteDef.None? || !spriteDef.value.hasRotations) ==> r == 0
    ensures spriteDef.Some? && spriteDef.value.hasRotations ==> r == CalculateRotation(viewAngle, entityAngle)
  {
    if spriteDef.Some? && spriteDef.value.hasRotations then CalculateRotation(viewAngle, entityAngle) else 0
  }

  /**
   * The vertex light level: full bright when the entity or its frame is
   * bright, otherwise the C# integer average of the floor and ceiling
   * transfer-sector light levels.
   */
  function LightLevel(entityBright: bool, frameBright: bool, floorLight: Int16, ceilingLight: Int16): (r: Int16)
    ensures entityBright || frameBright ==> r == FullBright
    ensures !entityBright && !frameBright ==>
              Min(floorLight, ceilingLight) <= r <= Max(floorLight, ceilingLight)
              && -1 <= 2 * r - (floorLight + ceilingLight) <= 1
    ensures !entityBright && !frameBright && floorLight + ceilingLight >= 0 ==> r == (floorLight + ceilingLight) / 2
    ensures !entityBright && !frameBright && floorLight + ceilingLight < 0 ==> r == -((-(floorLight + ceilingLight)) / 2)
  {
    if entityBright || frameBright then FullBright
    else
      TruncDivRemainder(floorLight + ceilingLight, 2);
      TruncDiv(floorLight + ceilingLight, 2)
  }

  function Min(a: int, b: int): int { if a <= b then a else b }
  function Max(a: int, b: int): int { if a <= b then b else a }

  /** A map position as the render-position table compares it (exact X and Y). */
  datatype Position = Position(x: real, y: real)

  /** The integer facts of one `RenderEntity` call; the float geometry is left out. */
  datatype RenderRequest = RenderRequest(
    position: Position,
    spriteDef: Option<SpriteDefinition>,
    viewAngle: UInt32,
    entityAngle: UInt32,
    entityBright: bool,
    frameBright: bool,
    floorLight: Int16,
    ceilingLight: Int16)

  /**
   * The integer content of a pushed vertex: the rotation frame chosen, its
   * light level, and how many nudge steps move it off earlier sprites at
   * the same position.
   */
  datatype SpriteVertex = SpriteVertex(rotation: nat, lightLevel: Int16, nudgeSteps: nat)

  class EntityRenderer {
    var renderPositions: map<Position, int>
    var spriteZCheck: bool
    var vertices: seq<SpriteVertex>

    /** Every position drawn with the Z check on since the last Clear, with multiplicity. */
    ghost var rendered: multiset<Position>

    ghost predicate Valid()
      reads this
    {
      (forall p :: p in renderPositions <==> rendered[p] > 0) &&
      (forall p :: p in renderPositions ==> renderPositions[p] == rendered[p])
    }

    constructor (configZCheck: bool)
      ensures Valid()
      ensures renderPositions == map[] && vertices == [] && spriteZCheck == configZCheck
    {
      renderPositions := map[];
      vertices := [];
      spriteZCheck := configZCheck;
      rendered := multiset{};
    }

    /** `Clear`: empties the position counts and the vertex data, and re-reads the Z-check setting. */
    method Clear(configZCheck: bool)
      modifies this
      ensures Valid()
      ensures renderPositions == map[] && vertices == [] && spriteZCheck == configZCheck
      ensures rendered == multiset{}
    {
      renderPositions := map[];
      vertices := [];
      spriteZCheck := configZCheck;
      rendered := multiset{};
    }

    /**
     * The render-position lookup: how many sprites were drawn at `p`
     * before, and one more from now on.
     */
    method CountPosition(p: Position) returns (earlier: nat)
      requires Valid()
      modifies this
      ensures Valid()
      ensures spriteZCheck == old(spriteZCheck) && vertices == old(vertices)
      ensures earlier == old(rendered)[p]
      ensures rendered == old(rendered) + multiset{p}
      ensures p in renderPositions && renderPositions[p] == old(rendered)[p] + 1
      ensures forall q :: q != p ==>
                (q in renderPositions <==> q in old(renderPositions)) &&
                (q in renderPositions ==> renderPositions[q] == old(renderPositions)[q])
    {
      earlier := 0;
      if p in renderPositions {
        var count := renderPositions[p];
        earlier := count;
        renderPositions := renderPositions[p := count + 1];
      } else {
        renderPositions := renderPositions[p := 1];
      }
      rendered := rendered + multiset{p};
    }

    /** The integer effects of `RenderEntity`: the rotation frame, the position count and the vertex. */
    method RenderEntity(req: RenderRequest)
      requires Valid()
      modifies this
      ensures Valid()
      ensures spriteZCheck == old(spriteZCheck)
      ensures old(spriteZCheck) ==> rendered == old(rendered) + multiset{req.position}
      ensures !old(spriteZCheck) ==> rendered == old(rendered) && renderPositions == old(renderPositions)
      ensures old(spriteZCheck) ==> req.position in renderPositions && renderPositions[req.position] == old(rendered)[req.position] + 1
      ensures old(spriteZCheck) ==> forall p :: p != req.position ==>
                (p in renderPositions <==> p in old(renderPositions)) &&
                (p in renderPositions ==> renderPositions[p] == old(renderPositions)[p])
      ensures vertices == old(vertices) + [SpriteVertex(
                SelectRotation(req.spriteDef, req.viewAngle, req.entityAngle),
                LightLevel(req.entityBright, req.frameBright, req.floorLight, req.ceilingLight),
                if old(spriteZCheck) then old(rendered)[req.position] else 0)]
    {
      var rotation := 0;
      if req.spriteDef.Some? && req.spriteDef.value.hasRotations {
        rotation := CalculateRotation(req.viewAngle, req.entityAngle);
      }

      var nudgeSteps := 0;
      if spriteZCheck {
        nudgeSteps := CountPosition(req.position);
      }

      var lightLevel: Int16 := if req.entityBright || req.frameBright then FullBright
        else TruncDiv(req.floorLight + req.ceilingLight, 2);
      vertices := vertices + [SpriteVertex(rotation, lightLevel, nudgeSteps)];
    }
  }
}
