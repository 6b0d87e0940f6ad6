/**
 * The skinning pass: for every skeleton whose owner entity exists, recompute
 * its bone palette as inverse(mesh world) * bone world * inverse bind, for at
 * most `MaxBones` bones, with the identity for a bone index outside the arena.
 */
module Skinning {
  import opened Geometry
  import opened Scene
  import opened Vectors

  /** The shader's bone palette size. */
  const MaxBones: nat := 128

  /** The number of bones processed: the skeleton's bone count, capped at `MaxBones`. */
  function BoneCount(sk: SkeletonData): (n: nat)
    ensures n <= MaxBones && n <= |sk.boneEntityIndices|
    ensures n == MaxBones || n == |sk.boneEntityIndices|
  {
    if |sk.boneEntityIndices| < MaxBones then |sk.boneEntityIndices| else MaxBones
  }

  /**
   * The pass indexes the inverse bind matrices by bone position for every
   * processed bone whose entity exists (an index past their end aborts the
   * frame), so those must be covered; bones outside the arena read nothing.
   */
  predicate SkeletonReady(sk: SkeletonData, entityCount: nat)
  {
    sk.entityIndex < entityCount ==>
      forall i :: 0 <= i < BoneCount(sk) && sk.boneEntityIndices[i] < entityCount ==>
        i < |sk.inverseBindMatrices|
  }

  /** Bone `i`'s skinning matrix, relative to the mesh's own world matrix. */
  function BoneMatrix(es: seq<Entity>, sk: SkeletonData, i: nat): (m: Mat4)
    requires sk.entityIndex < |es| && SkeletonReady(sk, |es|) && i < BoneCount(sk)
    ensures sk.boneEntityIndices[i] >= |es| ==> m == Identity
    ensures sk.boneEntityIndices[i] < |es| ==>
      m.Mul? && m.rhs == sk.inverseBindMatrices[i]
      && m.lhs == Mul(Inverse(es[sk.entityIndex].worldTransform), es[sk.boneEntityIndices[i]].worldTransform)
  {
    var bone := sk.boneEntityIndices[i];
    if bone >= |es| then Identity
    else Mul(Mul(Inverse(es[sk.entityIndex].worldTransform), es[bone].worldTransform), sk.inverseBindMatrices[i])
  }

  /** The skeleton after the pass: its palette replaced when its owner exists, untouched otherwise. */
  function SkinSkeleton(es: seq<Entity>, sk: SkeletonData): (r: SkeletonData)
    requires SkeletonReady(sk, |es|)
    ensures r.entityIndex == sk.entityIndex && r.boneEntityIndices == sk.boneEntityIndices
    ensures r.inverseBindMatrices == sk.inverseBindMatrices
    ensures sk.entityIndex >= |es| ==> r == sk
    ensures sk.entityIndex < |es| ==> |r.boneMatrices| == BoneCount(sk) <= MaxBones
    ensures sk.entityIndex < |es| ==>
      forall i :: 0 <= i < BoneCount(sk) ==> r.boneMatrices[i] == BoneMatrix(es, sk, i)
  {
    if sk.entityIndex >= |es| then sk
    else sk.(boneMatrices := seq(BoneCount(sk), i requires 0 <= i < BoneCount(sk) => BoneMatrix(es, sk, i)))
  }

  /** The new palette does not depend on the old one: skinning twice gives the same skeleton. */
  lemma SkinSkeletonIdempotent(es: seq<Entity>, sk: SkeletonData)
    requires SkeletonReady(sk, |es|)
    ensures SkeletonReady(SkinSkeleton(es, sk), |es|)
    ensures SkinSkeleton(es, SkinSkeleton(es, sk)) == SkinSkeleton(es, sk)
  {
    var r := SkinSkeleton(es, sk);
    if sk.entityIndex < |es| {
      assert BoneCount(r) == BoneCount(sk);
      var r2 := SkinSkeleton(es, r);
      assert r2.boneMatrices == r.boneMatrices;
    }
  }

  /** Bones past the first `MaxBones` play no part: only the capped prefix of bone indices matters. */
  lemma SkinSkeletonIgnoresExtraBones(es: seq<Entity>, sk: SkeletonData, extra: seq<nat>)
    requires SkeletonReady(sk, |es|) && |sk.boneEntityIndices| >= MaxBones
    ensures SkeletonReady(sk.(boneEntityIndices := sk.boneEntityIndices + extra), |es|)
    ensures SkinSkeleton(es, sk.(boneEntityIndices := sk.boneEntityIndices + extra)).boneMatrices
         == SkinSkeleton(es, sk).boneMatrices
  {
    var sk' := sk.(boneEntityIndices := sk.boneEntityIndices + extra);
    assert BoneCount(sk') == BoneCount(sk);
    assert forall i :: 0 <= i < BoneCount(sk) ==> sk'.boneEntityIndices[i] == sk.boneEntityIndices[i];
  }

  predicate SkeletonsReady(sks: seq<SkeletonData>, entityCount: nat)
  {
    forall j :: 0 <= j < |sks| ==> SkeletonReady(sks[j], entityCount)
  }

  /** The body of the pass for skeleton `j`: resize the palette, then fill it bone by bone. */
  method SkinOne(scene: LoadedScene, j: nat)
    requires j < |scene.skeletons| && SkeletonReady(scene.skeletons[j], |scene.entities|)
    modifies scene`skeletons
    ensures scene.skeletons == old(scene.skeletons)[j := SkinSkeleton(scene.entities, old(scene.skeletons[j]))]
  {
    var entityIdx := scene.skeletons[j].entityIndex;
    if entityIdx >= |scene.entities| {
      return;
    }
    var meshWorld := scene.entities[entityIdx].worldTransform;
    var invMeshWorld := Inverse(meshWorld);

    var sk := scene.skeletons[j];
    var boneCount := if |sk.boneEntityIndices| < MaxBones then |sk.boneEntityIndices| else MaxBones;
    sk := sk.(boneMatrices := Resize(sk.boneMatrices, boneCount, Identity));
    scene.skeletons := scene.skeletons[j := sk];

    ghost var target := SkinSkeleton(scene.entities, old(scene.skeletons[j]));
    for i := 0 to boneCount
      invariant |scene.skeletons| == |old(scene.skeletons)|
      invariant forall k :: 0 <= k < |scene.skeletons| && k != j ==> scene.skeletons[k] == old(scene.skeletons[k])
      invariant scene.skeletons[j] == old(scene.skeletons[j]).(boneMatrices := scene.skeletons[j].boneMatrices)
      invariant |scene.skeletons[j].boneMatrices| == boneCount
      invariant forall k :: 0 <= k < i ==> scene.skeletons[j].boneMatrices[k] == target.boneMatrices[k]
    {
      var boneEntityIdx := scene.skeletons[j].boneEntityIndices[i];
      var cur := scene.skeletons[j];
      if boneEntityIdx >= |scene.entities| {
        scene.skeletons := scene.skeletons[j := cur.(boneMatrices := cur.boneMatrices[i := Identity])];
        continue;
      }
      var boneWorld := scene.entities[boneEntityIdx].worldTransform;
      var invBind := scene.skeletons[j].inverseBindMatrices[i];
      scene.skeletons := scene.skeletons[j := cur.(boneMatrices := cur.boneMatrices[i := Mul(Mul(invMeshWorld, boneWorld), invBind)])];
    }
    assert scene.skeletons[j].boneMatrices == target.boneMatrices;
  }

  /** The skinning pass over every skeleton of the scene. */
  method UpdateSkinnedMeshes(scene: LoadedScene)
    requires SkeletonsReady(scene.skeletons, |scene.entities|)
    modifies scene`skeletons
    ensures |scene.skeletons| == |old(scene.skeletons)|
    ensures forall j :: 0 <= j < |scene.skeletons| ==>
      scene.skeletons[j] == SkinSkeleton(scene.entities, old(scene.skeletons[j]))
  {
    for j := 0 to |scene.skeletons|
      invariant |scene.skeletons| == |old(scene.skeletons)|
      invariant forall k :: 0 <= k < j ==> scene.skeletons[k] == SkinSkeleton(scene.entities, old(scene.skeletons[k]))
      invariant forall k :: j <= k < |scene.skeletons| ==> scene.skeletons[k] == old(scene.skeletons[k])
    {
      SkinOne(scene, j);
    }
  }
}
