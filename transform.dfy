/**
 * The world-transform pass: one sweep over the entity arena in index order,
 * writing `parent world * local` (or `local` for a root) into each entity and
 * clearing its dirty flag.
 *
 * The sweep reads a parent's world matrix as it is at that moment, so a
 * parent stored after its child contributes the previous frame's matrix.
 * `ResolvePrefix` states this exactly; `WorldOf` is the hierarchy's intended
 * meaning, and the two agree when every parent precedes its children.
 */
module Transform {
  import opened Wrappers
  import opened Geometry
  import opened Scene

  /** The local matrix of a transform: scale, then rotation, then translation by the position. */
  function ComposeLocalTransform(t: TransformState): (m: Mat4)
    ensures m.FromScaleRotationTranslation?
    ensures m.scale == t.scale && m.rotation == t.rotation && m.translation == t.position
  {
    FromScaleRotationTranslation(t.scale, t.rotation, t.position)
  }

  /** The world matrix of entity `i` given the world matrix its parent has when `i` is processed. */
  function WorldGiven(es: seq<Entity>, i: nat, parentWorld: Mat4): Mat4
    requires i < |es|
  {
    var local := ComposeLocalTransform(es[i].transform);
    match es[i].parentIndex
    case Some(p) => if p < |es| then Mul(parentWorld, local) else local
    case None => local
  }

  /** The index of entity `i`'s parent when it names an entity of the arena. */
  predicate HasParent(es: seq<Entity>, i: nat)
    requires i < |es|
  {
    es[i].parentIndex.Some? && es[i].parentIndex.value < |es|
  }

  /** One iteration of the sweep, for entity `i`. */
  function ResolveStep(es: seq<Entity>, i: nat): seq<Entity>
    requires i < |es|
  {
    var parentWorld := if HasParent(es, i) then es[es[i].parentIndex.value].worldTransform else Identity;
    var world := WorldGiven(es, i, parentWorld);
    es[i := es[i].(worldTransform := world, transform := es[i].transform.(dirty := false))]
  }

  /**
   * The arena after the first `k` iterations of the sweep. Entities from `k`
   * on are untouched; entity j < k keeps everything but its world matrix and
   * dirty flag, and its world matrix is computed from its parent's NEW world
   * when the parent comes before it and from the parent's ORIGINAL world
   * otherwise (itself included).
   */
  function ResolvePrefix(es: seq<Entity>, k: nat): (r: seq<Entity>)
    requires k <= |es|
    ensures |r| == |es|
    ensures forall j :: k <= j < |es| ==> r[j] == es[j]
    ensures forall j :: 0 <= j < k ==>
      r[j] == es[j].(worldTransform := r[j].worldTransform, transform := es[j].transform.(dirty := false))
    ensures forall j :: 0 <= j < k && !HasParent(es, j) ==>
      r[j].worldTransform == ComposeLocalTransform(es[j].transform)
    ensures forall j :: 0 <= j < k && HasParent(es, j) ==>
      var p := es[j].parentIndex.value;
      r[j].worldTransform == Mul(if p < j then r[p].worldTransform else es[p].worldTransform,
                                 ComposeLocalTransform(es[j].transform))
    decreases k
  {
    if k == 0 then es else ResolveStep(ResolvePrefix(es, k - 1), k - 1)
  }

  /** The arena after the whole sweep. */
  function ComputeWorlds(es: seq<Entity>): (r: seq<Entity>)
    ensures |r| == |es|
    ensures forall j :: 0 <= j < |es| ==> !r[j].transform.dirty
  {
    ResolvePrefix(es, |es|)
  }

  /** Every in-range parent is stored before its child (the bundle's depth-first order). */
  ghost predicate ParentsFirst(es: seq<Entity>)
  {
    forall i :: 0 <= i < |es| && HasParent(es, i) ==> es[i].parentIndex.value < i
  }

  /** The intended world matrix: the product of local matrices along the parent chain. */
  function WorldOf(es: seq<Entity>, i: nat): Mat4
    requires ParentsFirst(es) && i < |es|
    decreases i
  {
    var local := ComposeLocalTransform(es[i].transform);
    if HasParent(es, i) then Mul(WorldOf(es, es[i].parentIndex.value), local) else local
  }

  /** With parents first, the sweep computes the product along every parent chain. */
  lemma {:induction false} ComputeWorldsFollowsHierarchy(es: seq<Entity>, i: nat)
    requires ParentsFirst(es) && i < |es|
    ensures ComputeWorlds(es)[i].worldTransform == WorldOf(es, i)
    decreases i
  {
    if HasParent(es, i) {
      ComputeWorldsFollowsHierarchy(es, es[i].parentIndex.value);
    }
  }

  /** The sweep changes only world matrices and dirty flags, so the hierarchy's meaning is unchanged by it. */
  lemma {:induction false} WorldOfIgnoresWorlds(es: seq<Entity>, i: nat)
    requires ParentsFirst(es) && i < |es|
    ensures ParentsFirst(ComputeWorlds(es))
    ensures WorldOf(ComputeWorlds(es), i) == WorldOf(es, i)
    decreases i
  {
    var r := ComputeWorlds(es);
    assert forall j :: 0 <= j < |es| ==> r[j].parentIndex == es[j].parentIndex && r[j].transform.position == es[j].transform.position;
    assert forall j :: 0 <= j < |es| ==> HasParent(r, j) == HasParent(es, j);
    if HasParent(es, i) {
      WorldOfIgnoresWorlds(es, es[i].parentIndex.value);
    }
  }

  /** With parents first, running the pass a second time changes nothing. */
  lemma ComputeWorldsIdempotent(es: seq<Entity>)
    requires ParentsFirst(es)
    ensures ComputeWorlds(ComputeWorlds(es)) == ComputeWorlds(es)
  {
    var r := ComputeWorlds(es);
    var r2 := ComputeWorlds(r);
    forall i | 0 <= i < |es|
      ensures r2[i] == r[i]
    {
      WorldOfIgnoresWorlds(es, i);
      ComputeWorldsFollowsHierarchy(es, i);
      ComputeWorldsFollowsHierarchy(r, i);
    }
  }

  /**
   * A child stored before its parent reads the parent's world matrix from
   * before the pass: the two-entity arena [child, parent] composes the
   * child's local matrix with the parent's stale world.
   */
  lemma StaleParentExample(child: Entity, parent: Entity)
    requires child.parentIndex == Some(1) && parent.parentIndex.None?
    ensures ComputeWorlds([child, parent])[0].worldTransform
         == Mul(parent.worldTransform, ComposeLocalTransform(child.transform))
    ensures ComputeWorlds([child, parent])[1].worldTransform == ComposeLocalTransform(parent.transform)
  {
    assert HasParent([child, parent], 0);
  }

  /** A three-level chain stored parents first composes root * middle * leaf. */
  lemma ThreeLevelChain(a: Entity, b: Entity, c: Entity)
    requires a.parentIndex.None? && b.parentIndex == Some(0) && c.parentIndex == Some(1)
    ensures ComputeWorlds([a, b, c])[2].worldTransform
         == Mul(Mul(ComposeLocalTransform(a.transform), ComposeLocalTransform(b.transform)),
                ComposeLocalTransform(c.transform))
  {
    var es := [a, b, c];
    assert HasParent(es, 1) && HasParent(es, 2) && !HasParent(es, 0);
  }

  /** The world-transform pass over the scene's entity arena. */
  method ComputeWorldTransforms(scene: LoadedScene)
    modifies scene`entities
    ensures scene.entities == ComputeWorlds(old(scene.entities))
  {
    var n := |scene.entities|;
    ghost var es0 := scene.entities;
    for i := 0 to n
      invariant |scene.entities| == n
      invariant scene.entities == ResolvePrefix(es0, i)
    {
      var local := ComposeLocalTransform(scene.entities[i].transform);
      var world := match scene.entities[i].parentIndex {
        case Some(parentIdx) =>
          if parentIdx < n then Mul(scene.entities[parentIdx].worldTransform, local) else local
        case None => local
      };
      var e := scene.entities[i];
      scene.entities := scene.entities[i := e.(worldTransform := world, transform := e.transform.(dirty := false))];
    }
  }
}
