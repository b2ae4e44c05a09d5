/**
 * The despawner below the play field: whatever falls into it is destroyed
 * together with its parent, so a barrier piece takes its whole barrier (and
 * any player parked in it) with it, while a root object goes alone.
 */
module Despawning {
  import opened Wrappers
  import opened SceneGraph

  /**
   * The object a falling `entering` object makes the despawner destroy: its
   * parent, or itself at the root. Either way it is an object of the scene
   * whose subtree holds `entering`.
   */
  function DespawnTarget(w: World, entering: Id): (t: Id)
    requires Linked(w) && entering in w
    ensures t in w && entering in Subtree(w, t)
    ensures t == entering || Some(t) == w[entering].parent
  {
    if w[entering].parent.Some? then
      var p := w[entering].parent.value;
      assert ParentLists(w, entering, p);
      assert p in Subtree(w, p);
      p
    else entering
  }

  /**
   * `entering` touches the despawner while the body it is attached to moves
   * with vertical velocity `velocityY`. Only a falling body counts, and the
   * entering object's tag plays no part.
   */
  method OnTriggerEnter(scene: Scene, entering: Id, velocityY: real)
    requires scene.Valid() && entering in scene.entities
    modifies scene
    ensures scene.Valid()
    ensures velocityY >= 0.0 ==> scene.entities == old(scene.entities)
    ensures velocityY < 0.0 ==> scene.entities == Removed(old(scene.entities), DespawnTarget(old(scene.entities), entering))
  {
    if velocityY < 0.0 {
      var parent := scene.entities[entering].parent;
      if parent.Some? {
        scene.Destroy(parent.value);
      } else {
        scene.Destroy(entering);
      }
    }
  }

  /**
   * A despawn removes exactly the subtree of one object of the scene, and the
   * entering object is inside it: it is always gone afterwards, and every
   * object outside that subtree survives.
   */
  lemma {:induction false} DespawnOutcome(w: World, entering: Id)
    requires Linked(w) && entering in w
    ensures var t := DespawnTarget(w, entering);
      && t in w
      && (t != entering ==> Some(t) == w[entering].parent)
      && entering in Subtree(w, t)
      && entering !in Removed(w, t)
      && forall x :: x in Removed(w, t) <==> x in w && x !in Subtree(w, t)
  {
    var t := DespawnTarget(w, entering);
    if t != entering {
      assert ParentLists(w, entering, t);
      assert t in Subtree(w, t);
    }
  }
}
