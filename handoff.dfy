/**
 * What entering a keyhole's "Respawn" trigger does to the scene, in both
 * revisions of the player script: the keyhole's first child is enabled and
 * renamed "Player", the keyhole drops all its children, and the entering
 * player is parked as the keyhole's child with its script disabled.
 */
module Handoff {
  import opened Wrappers
  import opened SceneGraph

  /** The tag of the trigger below the play field. */
  const DespawnerTag := "Despawner"
  /** The tag of a keyhole's trigger. */
  const RespawnTag := "Respawn"

  /** The name a player object gets when it becomes the controlled one. */
  const CurrentName := "Player"

  /** The handoff can run: the keyhole has a first child and that child is a player. */
  predicate CanHandOff(w: World, keyhole: Id)
  {
    keyhole in w && |w[keyhole].children| > 0 && IsPlayer(w, w[keyhole].children[0])
  }

  /**
   * The scene after the keyhole branch run by `me`: the keyhole's first child
   * is enabled and renamed, the keyhole drops its children, and `me` becomes
   * its only child, disabled. No object appears or disappears.
   */
  function HandedOff(w: World, me: Id, keyhole: Id): (r: World)
    requires CanHandOff(w, keyhole) && me in w && me != keyhole
    ensures r.Keys == w.Keys
    ensures r[keyhole].children == [me] && r[me].parent == Some(keyhole) && !r[me].enabled
  {
    var next := w[keyhole].children[0];
    var w1 := w[next := w[next].(enabled := true, name := CurrentName)];
    var w2 := Detached(w1, keyhole);
    var w3 := Reparented(w2, me, keyhole);
    w3[me := w3[me].(enabled := false)]
  }

  /** Every player object is enabled exactly when it is the one in the current-player slot. */
  ghost predicate OneActive(w: World, slot: Option<Id>)
  {
    forall x :: IsPlayer(w, x) ==> (w[x].enabled <==> slot == Some(x))
  }

  /** The shape of the scene after a handoff. */
  lemma {:induction false} HandoffOutcome(w: World, me: Id, keyhole: Id)
    requires Linked(w) && CanHandOff(w, keyhole) && me in w && me != keyhole
    ensures var r := HandedOff(w, me, keyhole); var next := w[keyhole].children[0];
      && r.Keys == w.Keys
      && Linked(r)
      && r[keyhole].children == [me]
      && r[me].parent == Some(keyhole) && !r[me].enabled
      && (next != me ==> r[next].enabled && r[next].parent == None && r[next].name == CurrentName)
      && (forall c :: c in w[keyhole].children && c != me ==> r[c].parent == None)
      && (forall x :: x in w ==> r[x].kind == w[x].kind)
      && (forall x :: x in w && x != me && x != next ==> r[x].enabled == w[x].enabled)
  {
    var next := w[keyhole].children[0];
    var w1 := w[next := w[next].(enabled := true, name := CurrentName)];
    StoreLinked(w, next, w1[next]);
    DetachedLinked(w1, keyhole);
    DetachedFacts(w1, keyhole);
    var w2 := Detached(w1, keyhole);
    ReparentedLinked(w2, me, keyhole);
    ReparentedFacts(w2, me, keyhole);
    var w3 := Reparented(w2, me, keyhole);
    StoreLinked(w3, me, w3[me].(enabled := false));
    forall c | c in w[keyhole].children && c != me
      ensures w3[c].parent == None
    {
      assert w1[c].parent == Some(keyhole);
    }
  }

  /**
   * When the controlled player hands over to another player, the slot moves
   * to that player and it is again the only enabled one.
   */
  lemma HandoffKeepsOneActive(w: World, me: Id, keyhole: Id)
    requires Linked(w) && CanHandOff(w, keyhole) && me in w && me != keyhole
    requires OneActive(w, Some(me)) && w[keyhole].children[0] != me
    ensures OneActive(HandedOff(w, me, keyhole), Some(w[keyhole].children[0]))
  {
    HandoffOutcome(w, me, keyhole);
  }

  /**
   * A player whose own keyhole's first child is itself (the parked or the
   * embedded player entering the trigger again) ends disabled and parked,
   * and nobody is enabled by the handoff.
   */
  lemma SelfHandoffActivatesNobody(w: World, me: Id, keyhole: Id)
    requires Linked(w) && CanHandOff(w, keyhole) && me != keyhole
    requires w[keyhole].children[0] == me
    ensures var r := HandedOff(w, me, keyhole);
      && !r[me].enabled && r[keyhole].children == [me]
      && forall x :: x in w && x != me ==> r[x].enabled == w[x].enabled
  {
    HandoffOutcome(w, me, keyhole);
  }

  /**
   * The keyhole branch has no enabled check: a disabled player that is not the
   * current one, entering a keyhole whose first child is another player,
   * enables that child while the current player stays enabled, so two players
   * end up enabled and the invariant is broken for either slot value.
   */
  lemma StrayHandoffLeavesTwoActive(w: World, me: Id, keyhole: Id, cur: Id)
    requires Linked(w) && CanHandOff(w, keyhole) && me in w && me != keyhole
    requires OneActive(w, Some(cur)) && IsPlayer(w, cur)
    requires cur != me && cur != w[keyhole].children[0] && w[keyhole].children[0] != me
    ensures var r := HandedOff(w, me, keyhole); var next := w[keyhole].children[0];
      && IsPlayer(r, cur) && r[cur].enabled && IsPlayer(r, next) && r[next].enabled
      && !OneActive(r, Some(next)) && !OneActive(r, Some(cur))
  {
    HandoffOutcome(w, me, keyhole);
  }
}
