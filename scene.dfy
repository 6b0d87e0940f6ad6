/**
 * The runtime scene of the web player: the entity arena, animation playback
 * states, skeletons, and the mapping that builds them from an already parsed
 * bundle.
 *
 * Indices into the arena are `nat` (usize); all cross references (parent,
 * animation target, bone, skeleton owner) are plain indices that the
 * per-frame systems bounds-check where they use them.
 */
module Scene {
  import opened Wrappers
  import opened Geometry

  /** Local transform of an entity; `dirty` is set by animation and cleared by the transform pass. */
  datatype TransformState = TransformState(position: Vec3, rotation: Quat, scale: Vec3, dirty: bool)

  datatype Entity = Entity(
    id: nat,
    parentIndex: Option<nat>,
    transform: TransformState,
    worldTransform: Mat4,
    meshIndex: Option<nat>,
    materialIndex: Option<nat>,
    mask: nat)

  datatype TargetProperty = Position | Rotation | Scale

  /** CubicSpline is declared by the bundle format; the sampler treats it as Linear. */
  datatype InterpolationMode = Step | Linear | CubicSpline

  /**
   * One animated property of one entity. `values` is flat: 3 numbers per key
   * for Position and Scale, 4 per key (w, x, y, z) for Rotation.
   */
  datatype AnimationChannel = AnimationChannel(
    targetEntityIndex: nat,
    targetProperty: TargetProperty,
    interpolation: InterpolationMode,
    times: seq<real>,
    values: seq<real>)

  datatype AnimationClip = AnimationClip(name: string, duration: real, channels: seq<AnimationChannel>)

  /** Playback state; `activeClip` is an i32 and may be negative or out of range. */
  datatype AnimationState = AnimationState(
    clips: seq<AnimationClip>,
    activeClip: int,
    currentTime: real,
    playing: bool,
    looping: bool,
    speed: real)

  /** One inverse bind matrix and one output bone matrix per bone, matched by position. */
  datatype SkeletonData = SkeletonData(
    entityIndex: nat,
    boneEntityIndices: seq<nat>,
    inverseBindMatrices: seq<Mat4>,
    boneMatrices: seq<Mat4>)

  type byte = x: int | 0 <= x < 256

  datatype MeshData = MeshData(
    positions: seq<real>,
    normals: seq<real>,
    uvs: seq<real>,
    indices: seq<nat>,
    boneWeights: Option<seq<real>>,
    boneIndices: Option<seq<nat>>)

  datatype TextureData = TextureData(width: nat, height: nat, channels: nat, compression: nat, data: seq<byte>)

  /** The per-frame systems mutate the entity, animation and skeleton vectors of this object in place. */
  class LoadedScene {
    var entities: seq<Entity>
    var meshes: seq<MeshData>
    var textures: seq<TextureData>
    var animations: seq<AnimationState>
    var skeletons: seq<SkeletonData>

    constructor (entities: seq<Entity>, meshes: seq<MeshData>, textures: seq<TextureData>,
                 animations: seq<AnimationState>, skeletons: seq<SkeletonData>)
      ensures this.entities == entities && this.meshes == meshes && this.textures == textures
      ensures this.animations == animations && this.skeletons == skeletons
    {
      this.entities := entities;
      this.meshes := meshes;
      this.textures := textures;
      this.animations := animations;
      this.skeletons := skeletons;
    }

    function NumEntities(): (n: nat)
      reads this
      ensures n == |entities|
    {
      |entities|
    }

    function NumMeshes(): (n: nat)
      reads this
      ensures n == |meshes|
    {
      |meshes|
    }

    function NumTextures(): (n: nat)
      reads this
      ensures n == |textures|
    {
      |textures|
    }
  }

  // ----- The parsed bundle, as handed over by the bundle parser -----

  type Floats3 = s: seq<real> | |s| == 3 witness [0.0, 0.0, 0.0]
  type Floats4 = s: seq<real> | |s| == 4 witness [0.0, 0.0, 0.0, 0.0]

  /** A stored transform: rotation in storage order [w, x, y, z]. */
  datatype StoredTransform = StoredTransform(position: Floats3, rotation: Floats4, scale: Floats3)

  /** A stored animation state; its clips map field for field onto `AnimationClip`. */
  datatype StoredAnimation = StoredAnimation(
    clips: seq<AnimationClip>,
    activeClip: int,
    playing: bool,
    looping: bool,
    speed: real)

  /** The per-entity tables are parallel vectors indexed by entity position. */
  datatype ParsedScene = ParsedScene(
    entityIds: seq<nat>,
    parentIndices: seq<Option<nat>>,
    transforms: seq<StoredTransform>,
    meshIndices: seq<Option<nat>>,
    materialIndices: seq<Option<nat>>,
    componentMasks: seq<nat>,
    meshes: seq<MeshData>,
    textures: seq<TextureData>,
    animations: seq<StoredAnimation>)

  /** Every per-entity table has a row for each entity id (the loader indexes them all by `i`). */
  predicate TablesCoverEntities(p: ParsedScene)
  {
    var n := |p.entityIds|;
    |p.parentIndices| >= n && |p.transforms| >= n && |p.meshIndices| >= n
    && |p.materialIndices| >= n && |p.componentMasks| >= n
  }

  function Vec3Of(a: Floats3): Vec3 { Vec3(a[0], a[1], a[2]) }

  /** A stored rotation [w, x, y, z] as a quaternion. */
  function RotationOf(r: Floats4): (q: Quat)
    ensures q.w == r[0] && q.x == r[1] && q.y == r[2] && q.z == r[3]
  {
    Quat(r[1], r[2], r[3], r[0])
  }

  /** The storage order of a quaternion, the inverse of `RotationOf`. */
  function StoredRotation(q: Quat): Floats4
  {
    [q.w, q.x, q.y, q.z]
  }

  lemma RotationRoundTrip(r: Floats4, q: Quat)
    ensures StoredRotation(RotationOf(r)) == r
    ensures RotationOf(StoredRotation(q)) == q
  {
  }

  /** The entity built for row `i` of the parsed tables. */
  function LoadEntity(p: ParsedScene, i: nat): (e: Entity)
    requires TablesCoverEntities(p) && i < |p.entityIds|
    ensures e.id == p.entityIds[i] && e.parentIndex == p.parentIndices[i]
    ensures e.meshIndex == p.meshIndices[i] && e.materialIndex == p.materialIndices[i]
    ensures e.mask == p.componentMasks[i]
    ensures e.transform.position == Vec3Of(p.transforms[i].position) && e.transform.scale == Vec3Of(p.transforms[i].scale)
    ensures StoredRotation(e.transform.rotation) == p.transforms[i].rotation
    ensures e.transform.dirty && e.worldTransform == Identity
  {
    var t := p.transforms[i];
    Entity(
      p.entityIds[i],
      p.parentIndices[i],
      TransformState(Vec3Of(t.position), RotationOf(t.rotation), Vec3Of(t.scale), true),
      Identity,
      p.meshIndices[i],
      p.materialIndices[i],
      p.componentMasks[i])
  }

  /** The playback state built for a stored animation: the clock starts at zero. */
  function LoadAnimation(a: StoredAnimation): (s: AnimationState)
    ensures s.currentTime == 0.0
    ensures s.clips == a.clips && s.activeClip == a.activeClip
    ensures s.playing == a.playing && s.looping == a.looping && s.speed == a.speed
  {
    AnimationState(a.clips, a.activeClip, 0.0, a.playing, a.looping, a.speed)
  }

  /** The entity vector, built by pushing one entity per id. */
  method BuildEntities(p: ParsedScene) returns (entities: seq<Entity>)
    requires TablesCoverEntities(p)
    ensures |entities| == |p.entityIds|
    ensures forall i :: 0 <= i < |entities| ==>
      && entities[i].id == p.entityIds[i]
      && entities[i].parentIndex == p.parentIndices[i]
      && entities[i].transform.dirty
      && entities[i].worldTransform == Identity
      && StoredRotation(entities[i].transform.rotation) == p.transforms[i].rotation
    ensures forall i :: 0 <= i < |entities| ==> entities[i] == LoadEntity(p, i)
  {
    entities := [];
    var i := 0;
    while i < |p.entityIds|
      invariant 0 <= i <= |p.entityIds|
      invariant |entities| == i
      invariant forall k :: 0 <= k < i ==> entities[k] == LoadEntity(p, k)
    {
      entities := entities + [LoadEntity(p, i)];
      i := i + 1;
    }
  }

  /**
   * Builds the runtime scene from the parser's result. A parse error is
   * returned unchanged; skeletons are never loaded.
   */
  method FromOrsb(parsed: Result<ParsedScene, string>) returns (r: Result<LoadedScene, string>)
    requires parsed.Ok? ==> TablesCoverEntities(parsed.value)
    ensures parsed.Err? ==> r.Err? && r.error == parsed.error
    ensures parsed.Ok? ==> r.Ok? && fresh(r.value)
    ensures parsed.Ok? ==>
      var p := parsed.value;
      && |r.value.entities| == |p.entityIds|
      && (forall i :: 0 <= i < |p.entityIds| ==> r.value.entities[i] == LoadEntity(p, i))
      && r.value.meshes == p.meshes
      && r.value.textures == p.textures
      && |r.value.animations| == |p.animations|
      && (forall i :: 0 <= i < |p.animations| ==> r.value.animations[i] == LoadAnimation(p.animations[i]))
      && r.value.skeletons == []
  {
    if parsed.Err? {
      return Err(parsed.error);
    }
    var p := parsed.value;
    var entities := BuildEntities(p);
    var animations := seq(|p.animations|, i requires 0 <= i < |p.animations| => LoadAnimation(p.animations[i]));
    var scene := new LoadedScene(entities, p.meshes, p.textures, animations, []);
    r := Ok(scene);
  }
}
