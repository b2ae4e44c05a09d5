/**
 * The barrier component of the second revision: a barrier object that
 * records its keyhole shape, its slot index and its resident player. A new
 * barrier is keyed to the current player's shape; attaching a player parks it
 * in the slot.
 */
module Barriers {
  import opened Wrappers
  import opened Shapes
  import opened Layout
  import opened SceneGraph
  import opened BarrierManagement
  import opened Players

  /**
   * A fresh copy of the barrier template under `spawnPoint`: untyped, slot 0,
   * no resident. Its name and local coordinates stand in for prefab data
   * that is not modelled.
   */
  function TemplateClone(tag: string, spawnPoint: Id): (e: Entity)
    ensures e.kind == BarrierBody(UNINITIALIZED, 0, None)
    ensures e.parent == Some(spawnPoint) && e.children == []
  {
    Entity(BarrierBody(UNINITIALIZED, 0, None), tag, "Barrier Template(Clone)", true, Some(spawnPoint), [],
           Vec3(0.0, 0.0, 0.0), Vec3(1.0, 1.0, 1.0), Vec2(0.0, 0.0))
  }

  /** The barrier object `b` with `p` recorded as its resident. */
  function WithResident(w: World, b: Id, p: Id): World
    requires b in w && w[b].kind.BarrierBody?
  {
    w[b := w[b].(kind := w[b].kind.(resident := Some(p)))]
  }

  /** The player `p` parked in `slot`: its last child, at the riding position, full scale. */
  function ParkedIn(w: World, p: Id, slot: Id): World
    requires p in w && slot in w && p != slot
  {
    var r := Reparented(w, p, slot);
    r[p := r[p].(localPosition := RidePosition, localScale := UnitScale)]
  }

  /** The factory half of the barrier component, with the barrier manager's shared settings. */
  class BarrierFactory {
    const scene: Scene
    /** The barrier manager's `ComponentCount`: pieces per barrier. */
    const componentCount: int
    /** The barrier manager's `PieceScale`. */
    const pieceScale: real
    const tags: PrefabTags

    constructor (scene: Scene, componentCount: int, pieceScale: real, tags: PrefabTags)
      ensures this.scene == scene && this.componentCount == componentCount
      ensures this.pieceScale == pieceScale && this.tags == tags
    {
      this.scene := scene;
      this.componentCount := componentCount;
      this.pieceScale := pieceScale;
      this.tags := tags;
    }

    /**
     * `w` is `w0` plus a barrier under `spawnPoint` keyed to shape `t` with
     * slot `slot`: `componentCount` pieces, the one at `slot` the keyhole for
     * `t`, the rest default pieces; nothing else changed.
     */
    ghost predicate Created(w0: World, w: World, barrier: Id, pieces: seq<Id>, spawnPoint: Id, t: Shape, slot: int)
    {
      && barrier !in w0 && |pieces| == componentCount
      && (forall i :: 0 <= i < |pieces| ==> pieces[i] !in w0 && pieces[i] != barrier)
      && (forall i, j :: 0 <= i < j < |pieces| ==> pieces[i] != pieces[j])
      && (forall x :: x in w <==> x in w0 || x == barrier || x in pieces)
      && w[barrier] == TemplateClone(tags.barrier, spawnPoint).(kind := BarrierBody(t, slot, None), children := pieces)
      && spawnPoint in w0 && spawnPoint in w
      && w[spawnPoint] == w0[spawnPoint].(children := w0[spawnPoint].children + [barrier])
      && (forall i :: 0 <= i < |pieces| ==> w[pieces[i]] == PieceClone(PieceAt(slot, t, i), tags, barrier, pieceScale))
      && (forall x :: x in w0 && x != spawnPoint ==> w[x] == w0[x])
    }

    /**
     * Creates a barrier under `spawnPoint` keyed to the current player's
     * shape, with `slotDraw` (the random draw) as its slot. With no current
     * player the shape lookup fails: the template copy stays, untyped and
     * without pieces.
     */
    method CreateNewBarrier(players: PlayerRegistry, spawnPoint: Id, slotDraw: int)
      returns (barrier: Id, ghost pieces: seq<Id>)
      requires scene.Valid() && spawnPoint in scene.entities
      requires KeyholeDraw(componentCount, slotDraw)
      requires players.current.Some? ==> IsPlayer(scene.entities, players.current.value)
      modifies scene
      ensures scene.Valid()
      ensures players.current.None? ==>
                barrier !in old(scene.entities) && pieces == [] &&
                scene.entities == Added(old(scene.entities), barrier, TemplateClone(tags.barrier, spawnPoint))
      ensures players.current.Some? ==>
                Created(old(scene.entities), scene.entities, barrier, pieces, spawnPoint,
                        old(scene.entities)[players.current.value].kind.shape, slotDraw)
    {
      ghost var w0 := scene.entities;
      pieces := [];
      barrier := scene.Instantiate(TemplateClone(tags.barrier, spawnPoint));
      AddedFacts(w0, barrier, TemplateClone(tags.barrier, spawnPoint));
      if players.current.None? {
        return;
      }
      var t := scene.entities[players.current.value].kind.shape;
      var b := scene.entities[barrier];
      scene.Store(barrier, b.(kind := b.kind.(barrierType := t)));
      b := scene.entities[barrier];
      scene.Store(barrier, b.(kind := b.kind.(slotIndex := slotDraw)));
      ghost var w1 := scene.entities;
      pieces := BuildPieces(scene, barrier, componentCount, slotDraw, t, tags, pieceScale);
      assert forall x :: x in w0 && x != spawnPoint ==> w1[x] == w0[x];
    }

    /**
     * A created barrier reads left to right as `Row` says: exactly one keyhole,
     * for its shape, at its slot; an untyped barrier has none.
     */
    lemma CreatedLayout(w0: World, w: World, barrier: Id, pieces: seq<Id>, spawnPoint: Id, t: Shape, slot: int)
      requires Created(w0, w, barrier, pieces, spawnPoint, t, slot) && 0 <= slot < componentCount
      ensures w[barrier].kind == BarrierBody(t, slot, None) && w[barrier].children == pieces
      ensures forall i :: 0 <= i < |pieces| ==> w[pieces[i]].kind == Piece(Row(componentCount, slot, t)[i])
      ensures KeyholeCount(Row(componentCount, slot, t)) == if t == UNINITIALIZED then 0 else 1
      ensures t == UNINITIALIZED ==> forall i :: 0 <= i < |pieces| ==> w[pieces[i]].kind == Piece(DefaultPiece)
      ensures t != UNINITIALIZED ==> w[pieces[slot]].kind == Piece(Keyhole(t))
    {
      ExactlyOneKeyhole(componentCount, slot, t);
    }
  }

  /**
   * `AttachPlayer` on the barrier object `barrier`: records `player` as its
   * resident, then parks the player in the piece at the slot index. A slot
   * index outside the barrier's children makes the lookup fail after the
   * resident is recorded; a slot that is the player itself is left alone.
   */
  method AttachPlayer(scene: Scene, barrier: Id, player: Id)
    requires scene.Valid() && barrier in scene.entities && scene.entities[barrier].kind.BarrierBody?
    requires IsPlayer(scene.entities, player)
    modifies scene
    ensures scene.Valid()
    ensures var w1 := WithResident(old(scene.entities), barrier, player);
      var k := old(scene.entities)[barrier].kind.slotIndex;
      var kids := old(scene.entities)[barrier].children;
      if 0 <= k < |kids| && kids[k] != player then scene.entities == ParkedIn(w1, player, kids[k])
      else scene.entities == w1
  {
    var b := scene.entities[barrier];
    scene.Store(barrier, b.(kind := b.kind.(resident := Some(player))));
    var k := b.kind.slotIndex;
    if 0 <= k < |b.children| && b.children[k] != player {
      var slot := b.children[k];
      scene.SetParent(player, slot);
      scene.Store(player, scene.entities[player].(localPosition := RidePosition, localScale := UnitScale));
    }
  }

  /**
   * After an attach the barrier keeps its shape and slot and has the player
   * as resident, and a player attached to an in-range slot is that piece's
   * child at the riding position with full scale.
   */
  lemma {:induction false} AttachOutcome(w: World, barrier: Id, player: Id)
    requires Linked(w) && barrier in w && w[barrier].kind.BarrierBody? && IsPlayer(w, player)
    requires var k := w[barrier].kind.slotIndex; 0 <= k < |w[barrier].children| && w[barrier].children[k] != player
    ensures var slot := w[barrier].children[w[barrier].kind.slotIndex];
      var r := ParkedIn(WithResident(w, barrier, player), player, slot);
      && r.Keys == w.Keys
      && r[barrier].kind == w[barrier].kind.(resident := Some(player))
      && r[barrier].kind.barrierType == w[barrier].kind.barrierType
      && r[barrier].kind.slotIndex == w[barrier].kind.slotIndex
      && r[player].parent == Some(slot)
      && r[player].localPosition == RidePosition && r[player].localScale == UnitScale
      && r[slot].children[|r[slot].children| - 1] == player
      && (forall x :: x in w && x != barrier ==> r[x].kind == w[x].kind && r[x].enabled == w[x].enabled)
  {
    var slot := w[barrier].children[w[barrier].kind.slotIndex];
    var w1 := WithResident(w, barrier, player);
    ReparentedFacts(w1, player, slot);
    assert slot in w;
  }
}
