/**
  The step-3 screen: a six-click build that spawns the blocks of one stage per click onto a
  board. The 3D scene is reduced to the list of blocks added to the block group, and the spawn
  animations registered for them.
*/
module StepThree {

  const TotalStages: int := 6
  /** The board's extent in world units along x and z. */
  const BoardW: real := 28.0
  const BoardD: real := 18.0

  /** One block of a stage, placed in percent of the board: corner (x, z), footprint w by d. */
  datatype Spec = Spec(x: real, z: real, w: real, d: real, h: real, color: int, text: string)

  function Stages(): seq<seq<Spec>> {
    [
      [Spec(3.0, 6.0, 16.0, 5.0, 1.2, 0x22d3ee, "Core 1"),
       Spec(21.0, 6.0, 16.0, 5.0, 1.2, 0x10b981, "Core 2")],
      [Spec(8.0, 23.0, 22.0, 6.0, 1.4, 0x3b82f6, "Core 3"),
       Spec(36.0, 22.0, 20.0, 6.0, 1.0, 0x14b8a6, "Core 4")],
      [Spec(30.0, 40.0, 30.0, 9.0, 1.6, 0x6366f1, "Core 5")],
      [Spec(7.0, 42.0, 18.0, 7.0, 1.0, 0x22c55e, "Core 6"),
       Spec(64.0, 44.0, 20.0, 7.0, 1.2, 0x06b6d4, "Core 7")],
      [Spec(12.0, 62.0, 18.0, 7.0, 1.2, 0x3b82f6, "Core 8"),
       Spec(57.0, 60.0, 16.0, 7.0, 1.2, 0x818cf8, "Core 9")],
      [Spec(28.0, 72.0, 14.0, 6.0, 1.0, 0x10b981, "Core 10"),
       Spec(46.0, 74.0, 14.0, 6.0, 1.0, 0x22d3ee, "Core 11"),
       Spec(63.0, 73.0, 10.0, 5.0, 0.9, 0x6366f1, "Core 12")]
    ]
  }

  // Percent of the board to world units: positions are centred on the board, sizes are not.
  function PctX(p: real): real { p / 100.0 * BoardW - BoardW / 2.0 }
  function PctZ(p: real): real { p / 100.0 * BoardD - BoardD / 2.0 }
  function PctW(p: real): real { p / 100.0 * BoardW }
  function PctD(p: real): real { p / 100.0 * BoardD }

  /** 0% is the board's negative edge, 50% its centre line, 100% its positive edge. */
  lemma PctAnchors()
    ensures PctX(0.0) == -BoardW / 2.0 && PctX(50.0) == 0.0 && PctX(100.0) == BoardW / 2.0
    ensures PctZ(0.0) == -BoardD / 2.0 && PctZ(50.0) == 0.0 && PctZ(100.0) == BoardD / 2.0
    ensures PctW(100.0) == BoardW && PctD(100.0) == BoardD
  {
  }

  /** Sizes are differences of positions: moving `b` percent along the board moves `PctW(b)`. */
  lemma PctAdditive(a: real, b: real)
    ensures PctX(a + b) == PctX(a) + PctW(b)
    ensures PctZ(a + b) == PctZ(a) + PctD(b)
  {
  }

  datatype Vec3 = Vec3(x: real, y: real, z: real)

  /** A spawned block: its mesh position, box size, vertical scale, and the label sprite's
      height above the mesh centre. */
  datatype Block = Block(position: Vec3, size: Vec3, scaleY: real, color: int, text: string, labelY: real)

  /** A registered spawn animation of block number `mesh`, growing it towards `yTarget`. */
  datatype SpawnAnim = SpawnAnim(mesh: nat, durationMs: nat, yTarget: real)

  /** Blocks start flattened on the board and grow for 650 ms. */
  const SpawnStartY: real := 0.01
  const SpawnDurationMs: nat := 650

  /** The block `spawnBlock` adds for `spec`, before its animation has run. */
  function BlockOf(spec: Spec): (b: Block)
    ensures b.position.x - b.size.x / 2.0 == PctX(spec.x)
    ensures b.position.x + b.size.x / 2.0 == PctX(spec.x + spec.w)
    ensures b.position.z - b.size.z / 2.0 == PctZ(spec.z)
    ensures b.position.z + b.size.z / 2.0 == PctZ(spec.z + spec.d)
    ensures b.size.y == spec.h && b.position.y == SpawnStartY && b.scaleY == SpawnStartY
    ensures b.text == spec.text && b.labelY == spec.h / 2.0 + 0.02
  {
    Block(Vec3(PctX(spec.x + spec.w / 2.0), SpawnStartY, PctZ(spec.z + spec.d / 2.0)),
          Vec3(PctW(spec.w), spec.h, PctD(spec.d)),
          SpawnStartY, spec.color, spec.text, spec.h / 2.0 + 0.02)
  }

  function BlocksOf(specs: seq<Spec>): (r: seq<Block>)
    ensures |r| == |specs|
  {
    seq(|specs|, i requires 0 <= i < |specs| => BlockOf(specs[i]))
  }

  /** The animation `spawnBlock` registers for the block at position `mesh`. */
  function AnimOf(mesh: nat, b: Block): SpawnAnim {
    SpawnAnim(mesh, SpawnDurationMs, b.size.y / 2.0)
  }

  /** The animations of a list of freshly spawned blocks, one per block. */
  predicate AnimsMatch(anims: seq<SpawnAnim>, blocks: seq<Block>) {
    |anims| == |blocks| && forall i :: 0 <= i < |anims| ==> anims[i] == AnimOf(i, blocks[i])
  }

  /** The groups one after the other. */
  function Flatten(groups: seq<seq<Spec>>): seq<Spec>
    decreases |groups|
  {
    if groups == [] then [] else Flatten(groups[..|groups| - 1]) + groups[|groups| - 1]
  }

  lemma BlocksOfConcat(a: seq<Spec>, b: seq<Spec>)
    ensures BlocksOf(a + b) == BlocksOf(a) + BlocksOf(b)
  {
  }

  lemma FlattenSnoc(groups: seq<seq<Spec>>, lo: nat, hi: nat)
    requires lo <= hi < |groups|
    ensures Flatten(groups[lo..hi + 1]) == Flatten(groups[lo..hi]) + groups[hi]
  {
    assert groups[lo..hi + 1][..hi - lo] == groups[lo..hi];
  }

  /** The six stages hold 2, 2, 1, 2, 2 and 3 blocks: twelve blocks, "Core 1" to "Core 12" in
      order. */
  lemma CompleteBuild()
    ensures |Stages()| == TotalStages
    ensures |Flatten(Stages())| == 12
    ensures forall i :: 0 <= i < 12 ==> Flatten(Stages())[i].text == "Core " + NumeralOf(i + 1)
  {
    var st := Stages();
    assert st[..6] == st;
    assert Flatten(st[..1]) == st[0];
    assert st[..2][..1] == st[..1];
    assert Flatten(st[..2]) == st[0] + st[1];
    assert st[..3][..2] == st[..2];
    assert Flatten(st[..3]) == st[0] + st[1] + st[2];
    assert st[..4][..3] == st[..3];
    assert Flatten(st[..4]) == st[0] + st[1] + st[2] + st[3];
    assert st[..5][..4] == st[..4];
    assert Flatten(st[..5]) == st[0] + st[1] + st[2] + st[3] + st[4];
    assert st[..5] == st[..6][..5];
    assert Flatten(st) == st[0] + st[1] + st[2] + st[3] + st[4] + st[5];
  }

  /** The decimal numeral of 1 .. 12 as used in the block labels. */
  function NumeralOf(n: nat): string
    requires 1 <= n <= 12
  {
    if n < 10 then [(('0' as int) + n) as char] else "1" + [(('0' as int) + n - 10) as char]
  }

  /** The step-3 component's build state. `attached` says whether the block group exists
      (it is created when the scene mounts and dropped when it unmounts); `attachedAt` is the
      stage at which it was created. */
  class Step3 {
    var stage: int
    var attached: bool
    var blocks: seq<Block>
    var anims: seq<SpawnAnim>
    ghost var attachedAt: int

    /** The group holds the blocks of exactly the stages drawn since it was created, and every
        block has its spawn animation. */
    ghost predicate Valid()
      reads this
    {
      && 0 <= stage <= TotalStages
      && (attached ==> 0 <= attachedAt <= stage && blocks == BlocksOf(Flatten(Stages()[attachedAt..stage])))
      && (!attached ==> blocks == [])
      && AnimsMatch(anims, blocks)
    }

    predicate DrawDone()
      reads this
    {
      stage >= TotalStages
    }

    constructor ()
      ensures Valid() && stage == 0 && !attached && blocks == [] && anims == []
    {
      stage := 0;
      attached := false;
      blocks := [];
      anims := [];
      attachedAt := 0;
    }

    /** The scene's mount effect creates an empty block group. */
    method Mount()
      requires Valid() && !attached
      modifies this
      ensures Valid() && attached && attachedAt == stage
      ensures stage == old(stage) && blocks == [] && anims == []
    {
      attached := true;
      attachedAt := stage;
      blocks := [];
      anims := [];
    }

    /** The effect's cleanup drops the group and the pending animations. */
    method Unmount()
      requires Valid()
      modifies this
      ensures Valid() && !attached
      ensures stage == old(stage) && blocks == [] && anims == []
    {
      attached := false;
      blocks := [];
      anims := [];
    }

    /** Adds the block for `spec` to the group and registers its animation; without a group it
        does nothing. */
    method SpawnBlock(spec: Spec)
      modifies this
      ensures stage == old(stage) && attached == old(attached) && attachedAt == old(attachedAt)
      ensures blocks == old(blocks) + (if attached then [BlockOf(spec)] else [])
      ensures anims == old(anims) + (if attached then [AnimOf(|old(blocks)|, BlockOf(spec))] else [])
    {
      if !attached {
        return;
      }
      var b := BlockOf(spec);
      anims := anims + [SpawnAnim(|blocks|, SpawnDurationMs, spec.h / 2.0)];
      blocks := blocks + [b];
    }

    /** Spawns the blocks of `specs` one after the other. */
    method SpawnStage(specs: seq<Spec>)
      requires AnimsMatch(anims, blocks)
      modifies this
      ensures stage == old(stage) && attached == old(attached) && attachedAt == old(attachedAt)
      ensures blocks == old(blocks) + (if attached then BlocksOf(specs) else [])
      ensures AnimsMatch(anims, blocks)
    {
      ghost var before := blocks;
      for i := 0 to |specs|
        invariant stage == old(stage) && attached == old(attached) && attachedAt == old(attachedAt)
        invariant blocks == before + (if attached then BlocksOf(specs[..i]) else [])
        invariant AnimsMatch(anims, blocks)
      {
        assert specs[..i + 1] == specs[..i] + [specs[i]];
        BlocksOfConcat(specs[..i], [specs[i]]);
        SpawnBlock(specs[i]);
      }
      assert specs[..|specs|] == specs;
    }

    /** The draw button: advance one stage and spawn that stage's blocks, in order. */
    method HandleDraw()
      requires Valid()
      modifies this
      ensures Valid()
      ensures old(DrawDone()) ==> stage == old(stage) && blocks == old(blocks) && anims == old(anims)
      ensures !old(DrawDone()) ==> stage == old(stage) + 1
      ensures !old(DrawDone()) ==>
        blocks == old(blocks) + (if attached then BlocksOf(Stages()[old(stage)]) else [])
      ensures attached == old(attached)
    {
      if stage >= TotalStages {
        return;
      }
      var next := stage + 1;
      stage := next;
      var specs := Stages()[next - 1];
      SpawnStage(specs);
      if attached {
        FlattenSnoc(Stages(), attachedAt, next - 1);
        BlocksOfConcat(Flatten(Stages()[attachedAt..next - 1]), specs);
      }
    }
  }

  /** The build from a group created on a fresh screen: after all six clicks twelve blocks
      stand on the board, "Core 1" to "Core 12". */
  lemma FullBuildBlocks(b: Step3)
    requires b.Valid() && b.attached && b.attachedAt == 0 && b.DrawDone()
    ensures |b.blocks| == 12 && |b.anims| == 12
    ensures forall i :: 0 <= i < 12 ==> b.blocks[i].text == "Core " + NumeralOf(i + 1)
  {
    CompleteBuild();
    assert Stages()[0..6] == Stages();
  }
}
