/**
 * Block sounds (src/audio/blockSounds.ts): each block id belongs to a sound
 * group, and each group has four break, four place and four step clips, given
 * as paths under the sound directory.
 */
module BlockSounds {

  datatype SoundGroup = GrassSounds | DirtSounds | StoneSounds | SandSounds | WoodSounds | LeavesSounds

  /** The kind of event a clip is played for. */
  datatype SoundKind = Break | Place | Step

  /** `BASE` */
  const Base: string := "/assets/sounds/"

  /** `groupForBlock(id)`: 5 (wood) and 7 (planks) share the wood clips; unknown ids sound like stone. */
  function GroupForBlock(id: int): SoundGroup
  {
    if id == 1 then GrassSounds
    else if id == 2 then DirtSounds
    else if id == 3 then StoneSounds
    else if id == 4 then SandSounds
    else if id == 5 || id == 7 then WoodSounds
    else if id == 6 then LeavesSounds
    else StoneSounds
  }

  /** `BREAK[group]` */
  function BreakPaths(g: SoundGroup): seq<string>
  {
    match g
    case GrassSounds => ["block/grass/break1.ogg", "block/grass/break2.ogg", "block/grass/break3.ogg", "block/grass/break4.ogg"]
    case DirtSounds => ["block/gravel/break1.ogg", "block/gravel/break2.ogg", "block/gravel/break3.ogg", "block/gravel/break4.ogg"]
    case StoneSounds => ["block/stone/break1.ogg", "block/stone/break2.ogg", "block/stone/break3.ogg", "block/stone/break4.ogg"]
    case SandSounds => ["block/sand/break1.ogg", "block/sand/break2.ogg", "block/sand/break3.ogg", "block/sand/break4.ogg"]
    case WoodSounds => ["block/wood/break1.ogg", "block/wood/break2.ogg", "block/wood/break3.ogg", "block/wood/break4.ogg"]
    case LeavesSounds => ["block/grass/break1.ogg", "block/grass/break2.ogg", "block/grass/break3.ogg", "block/grass/break4.ogg"]
  }

  /** `PLACE[group]` */
  function PlacePaths(g: SoundGroup): seq<string>
  {
    match g
    case GrassSounds => ["block/grass/place1.ogg", "block/grass/place2.ogg", "block/grass/place3.ogg", "block/grass/place4.ogg"]
    case DirtSounds => ["block/gravel/place1.ogg", "block/gravel/place2.ogg", "block/gravel/place3.ogg", "block/gravel/place4.ogg"]
    case StoneSounds => ["block/stone/place1.ogg", "block/stone/place2.ogg", "block/stone/place3.ogg", "block/stone/place4.ogg"]
    case SandSounds => ["block/sand/place1.ogg", "block/sand/place2.ogg", "block/sand/place3.ogg", "block/sand/place4.ogg"]
    case WoodSounds => ["block/wood/place1.ogg", "block/wood/place2.ogg", "block/wood/place3.ogg", "block/wood/place4.ogg"]
    case LeavesSounds => ["block/grass/place1.ogg", "block/grass/place2.ogg", "block/grass/place3.ogg", "block/grass/place4.ogg"]
  }

  /** `STEP[group]` */
  function StepPaths(g: SoundGroup): seq<string>
  {
    match g
    case GrassSounds => ["block/grass/step1.ogg", "block/grass/step2.ogg", "block/grass/step3.ogg", "block/grass/step4.ogg"]
    case DirtSounds => ["block/gravel/step1.ogg", "block/gravel/step2.ogg", "block/gravel/step3.ogg", "block/gravel/step4.ogg"]
    case StoneSounds => ["block/stone/step1.ogg", "block/stone/step2.ogg", "block/stone/step3.ogg", "block/stone/step4.ogg"]
    case SandSounds => ["block/sand/step1.ogg", "block/sand/step2.ogg", "block/sand/step3.ogg", "block/sand/step4.ogg"]
    case WoodSounds => ["block/wood/step1.ogg", "block/wood/step2.ogg", "block/wood/step3.ogg", "block/wood/step4.ogg"]
    case LeavesSounds => ["block/grass/step1.ogg", "block/grass/step2.ogg", "block/grass/step3.ogg", "block/grass/step4.ogg"]
  }

  /** The table of one kind of event. */
  function Paths(kind: SoundKind, g: SoundGroup): seq<string>
  {
    match kind
    case Break => BreakPaths(g)
    case Place => PlacePaths(g)
    case Step => StepPaths(g)
  }

  /** `toUrls(paths)`: every path prefixed with the sound directory, in order. */
  function ToUrls(paths: seq<string>): (urls: seq<string>)
    ensures |urls| == |paths|
    ensures forall i :: 0 <= i < |paths| ==> urls[i] == Base + paths[i]
  {
    if paths == [] then [] else [Base + paths[0]] + ToUrls(paths[1..])
  }

  /** `breakSoundUrls(id)` */
  function BreakSoundUrls(id: int): seq<string>
  {
    ToUrls(BreakPaths(GroupForBlock(id)))
  }

  /** `placeSoundUrls(id)` */
  function PlaceSoundUrls(id: int): seq<string>
  {
    ToUrls(PlacePaths(GroupForBlock(id)))
  }

  /** `stepSoundUrls(id)` */
  function StepSoundUrls(id: int): seq<string>
  {
    ToUrls(StepPaths(GroupForBlock(id)))
  }

  /** The url list for an event of the given kind. */
  function SoundUrls(kind: SoundKind, id: int): seq<string>
  {
    match kind
    case Break => BreakSoundUrls(id)
    case Place => PlaceSoundUrls(id)
    case Step => StepSoundUrls(id)
  }

  /** Leaves play the grass clips for every kind of event. */
  lemma LeavesSoundLikeGrass(kind: SoundKind)
    ensures Paths(kind, LeavesSounds) == Paths(kind, GrassSounds)
  {
  }

  /** The clip directory of the dirt group is `gravel`, for every kind of event. */
  lemma DirtSoundsLikeGravel(kind: SoundKind, i: int)
    requires 0 <= i < 4
    ensures |Paths(kind, DirtSounds)[i]| > 13 && Paths(kind, DirtSounds)[i][..13] == "block/gravel/"
  {
  }

  /** Every table row holds four clips. */
  lemma FourPaths(kind: SoundKind, g: SoundGroup)
    ensures |Paths(kind, g)| == 4
  {
  }

  /** The group of each block id, as the switch lists them. */
  lemma GroupsOfBlocks(id: int)
    ensures id == 1 ==> GroupForBlock(id) == GrassSounds
    ensures id == 2 ==> GroupForBlock(id) == DirtSounds
    ensures id == 4 ==> GroupForBlock(id) == SandSounds
    ensures id == 6 ==> GroupForBlock(id) == LeavesSounds
    ensures (id == 5 || id == 7) <==> GroupForBlock(id) == WoodSounds
    ensures GroupForBlock(id) == StoneSounds <==> !(1 <= id <= 7) || id == 3
  {
  }

  /** Every event gives exactly four urls, each the sound directory followed by the group's clip path. */
  lemma FourUrlsUnderBase(kind: SoundKind, id: int)
    ensures |SoundUrls(kind, id)| == 4
    ensures forall i :: 0 <= i < 4 ==>
      SoundUrls(kind, id)[i] == Base + Paths(kind, GroupForBlock(id))[i]
    ensures forall i :: 0 <= i < 4 ==> SoundUrls(kind, id)[i][..|Base|] == Base
  {
    var paths := Paths(kind, GroupForBlock(id));
    var urls := SoundUrls(kind, id);
    FourPaths(kind, GroupForBlock(id));
    assert urls == ToUrls(paths);
    forall i | 0 <= i < 4
      ensures urls[i][..|Base|] == Base
    {
      assert urls[i] == Base + paths[i];
      PrefixOfConcat(Base, paths[i]);
    }
  }

  lemma PrefixOfConcat(a: string, b: string)
    ensures (a + b)[..|a|] == a
  {
  }

  /** Blocks in the same group sound the same: wood and planks share every list, unknown ids sound like stone. */
  lemma SameGroupSameUrls(kind: SoundKind, a: int, b: int)
    requires GroupForBlock(a) == GroupForBlock(b)
    ensures SoundUrls(kind, a) == SoundUrls(kind, b)
  {
  }

  lemma WoodAndPlanksShareUrls(kind: SoundKind)
    ensures SoundUrls(kind, 5) == SoundUrls(kind, 7)
    ensures forall id :: !(1 <= id <= 7) ==> SoundUrls(kind, id) == SoundUrls(kind, 3)
  {
    SameGroupSameUrls(kind, 5, 7);
    forall id | !(1 <= id <= 7)
      ensures SoundUrls(kind, id) == SoundUrls(kind, 3)
    {
      SameGroupSameUrls(kind, id, 3);
    }
  }
}
