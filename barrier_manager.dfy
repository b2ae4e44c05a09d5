/**
 * The spawn scheduler: a countdown that, when it runs out, builds a barrier of
 * `pieceCount` pieces under the barrier container with one keyhole for the
 * required shape, redraws the required shape, and parks a new passive player
 * of that new shape inside the keyhole; both then fall at the same speed.
 */
module BarrierManagement {
  import opened Wrappers
  import opened Shapes
  import opened Layout
  import opened SceneGraph
  import opened GameManagement
  import Handoff

  const Untagged := "Untagged"

  /** The tags the barrier prefab and the piece prefabs carry. */
  datatype PrefabTags = PrefabTags(barrier: string, defaultPiece: string, keyhole: string)

  function PieceName(k: PieceKind): string
  {
    match k
    case Keyhole(CIRCLE) => "Barrier Component (Circle)(Clone)"
    case Keyhole(TRIANGLE) => "Barrier Component (Triangle)(Clone)"
    case Keyhole(SQUARE) => "Barrier Component (Square)(Clone)"
    case _ => "Barrier Component(Clone)"
  }

  /**
   * A fresh copy of the barrier prefab, the last child of the container. Its
   * name and local coordinates stand in for prefab data that is not modelled.
   */
  function BarrierClone(tags: PrefabTags, container: Id): (e: Entity)
    ensures e.parent == Some(container) && e.children == []
  {
    Entity(PieceContainer, tags.barrier, "Barrier Template(Clone)", true, Some(container), [],
           Vec3(0.0, 0.0, 0.0), Vec3(1.0, 1.0, 1.0), Vec2(0.0, 0.0))
  }

  /**
   * A fresh piece of kind `k` under `barrier`, rescaled to `scale` so that
   * pieces tile the lane. Its name, tag and local position stand in for
   * prefab data that is not modelled.
   */
  function PieceClone(k: PieceKind, tags: PrefabTags, barrier: Id, scale: real): (e: Entity)
    ensures e.kind == Piece(k) && e.parent == Some(barrier) && e.children == []
    ensures e.localScale == Vec3(scale, scale, 1.0)
  {
    Entity(Piece(k), if k.Keyhole? then tags.keyhole else tags.defaultPiece, PieceName(k), true,
           Some(barrier), [], Vec3(0.0, 0.0, 0.0), Vec3(scale, scale, 1.0), Vec2(0.0, 0.0))
  }

  /** Where a new player rides inside its keyhole, in the keyhole's frame. */
  const RidePosition := Vec3(0.0, 1.5, 1.0)
  const UnitScale := Vec3(1.0, 1.0, 1.0)

  /**
   * `OnEnable`: every child of the container (as listed when the loop starts)
   * whose tag is "Untagged" is destroyed, in order.
   */
  function ClearUntagged(w: World, kids: seq<Id>): (r: World)
    ensures r.Keys <= w.Keys
    ensures forall x :: x in kids && x in w && w[x].tag == Untagged ==> x !in r
    decreases |kids|
  {
    if kids == [] then w
    else ClearUntagged(if kids[0] in w && w[kids[0]].tag == Untagged then Removed(w, kids[0]) else w, kids[1..])
  }

  /** `x` lies in the subtree of none of the untagged objects among `kids`. */
  ghost predicate Spared(w: World, kids: seq<Id>, x: Id)
  {
    forall i :: 0 <= i < |kids| && kids[i] in w && w[kids[i]].tag == Untagged ==> x !in Subtree(w, kids[i])
  }

  /** Clearing only removes objects, and the survivors keep every field but their child lists. */
  lemma {:induction false} ClearUntaggedShrinks(w: World, kids: seq<Id>)
    ensures ClearUntagged(w, kids).Keys <= w.Keys
    ensures forall x :: x in ClearUntagged(w, kids) ==>
              ClearUntagged(w, kids)[x] == w[x].(children := ClearUntagged(w, kids)[x].children)
    decreases |kids|
  {
    if kids != [] {
      var w1 := if kids[0] in w && w[kids[0]].tag == Untagged then Removed(w, kids[0]) else w;
      ClearUntaggedShrinks(w1, kids[1..]);
    }
  }

  lemma {:induction false} ClearUntaggedLinked(w: World, kids: seq<Id>)
    requires Linked(w)
    ensures Linked(ClearUntagged(w, kids))
    decreases |kids|
  {
    if kids != [] {
      var w1 := if kids[0] in w && w[kids[0]].tag == Untagged then Removed(w, kids[0]) else w;
      if kids[0] in w && w[kids[0]].tag == Untagged {
        RemovedLinked(w, kids[0]);
      }
      ClearUntaggedLinked(w1, kids[1..]);
    }
  }

  /** Every listed child tagged "Untagged" is gone afterwards. */
  lemma {:induction false} UntaggedDestroyed(w: World, kids: seq<Id>, i: int)
    requires 0 <= i < |kids| && kids[i] in w && w[kids[i]].tag == Untagged
    ensures kids[i] !in ClearUntagged(w, kids)
    decreases |kids|
  {
    var w1 := if kids[0] in w && w[kids[0]].tag == Untagged then Removed(w, kids[0]) else w;
    if i == 0 {
      ClearUntaggedShrinks(w1, kids[1..]);
    } else if kids[i] in w1 {
      UntaggedDestroyed(w1, kids[1..], i - 1);
    } else {
      ClearUntaggedShrinks(w1, kids[1..]);
    }
  }

  /**
   * Every object outside the subtrees of the untagged children survives, with
   * all its fields but its child list unchanged.
   */
  lemma {:induction false} SparedSurvives(w: World, kids: seq<Id>, x: Id)
    requires x in w && Spared(w, kids, x)
    ensures x in ClearUntagged(w, kids)
    ensures ClearUntagged(w, kids)[x] == w[x].(children := ClearUntagged(w, kids)[x].children)
    decreases |kids|
  {
    ClearUntaggedShrinks(w, kids);
    if kids != [] {
      var hit := kids[0] in w && w[kids[0]].tag == Untagged;
      var w1 := if hit then Removed(w, kids[0]) else w;
      if hit {
        assert x !in Subtree(w, kids[0]);
        RemovedKeeps(w, kids[0], x);
      }
      assert x in w1;
      forall i | 0 <= i < |kids[1..]| && kids[1..][i] in w1 && w1[kids[1..][i]].tag == Untagged
        ensures x !in Subtree(w1, kids[1..][i])
      {
        assert kids[1..][i] == kids[i + 1];
        if hit {
          RemovedKeeps(w, kids[0], kids[i + 1]);
          SubtreeShrinks(w, w1, kids[i + 1]);
        }
      }
      SparedSurvives(w1, kids[1..], x);
    }
  }

  /** An object without a parent lies in no other object's subtree. */
  lemma RootOutsideSubtree(w: World, x: Id, r: Id)
    requires x in w && w[x].parent == None && x != r
    ensures x !in Subtree(w, r)
  {
    if r in w {
      var t := Subtree(w, r) - {x};
      ClosureLeast(w, {r}, t);
    }
  }

  /** An object other than `r` whose parent lies outside the subtree of `r` lies outside it too. */
  lemma ChildOutsideSubtree(w: World, x: Id, r: Id)
    requires x in w && x != r && w[x].parent.Some?
    requires w[x].parent.value !in Subtree(w, r)
    ensures x !in Subtree(w, r)
  {
    if r in w {
      var t := Subtree(w, r) - {x};
      ClosureLeast(w, {r}, t);
    }
  }

  /**
   * Clearing the children of the container keeps every child whose tag is
   * not "Untagged", with all its fields but its child list unchanged, as long
   * as the container lies in none of its children's subtrees.
   */
  lemma TaggedChildrenSurvive(w: World, container: Id, i: int)
    requires Linked(w) && container in w
    requires forall j :: 0 <= j < |w[container].children| ==> container !in Subtree(w, w[container].children[j])
    requires 0 <= i < |w[container].children| && w[w[container].children[i]].tag != Untagged
    ensures var kids := w[container].children;
      kids[i] in ClearUntagged(w, kids) &&
      ClearUntagged(w, kids)[kids[i]] == w[kids[i]].(children := ClearUntagged(w, kids)[kids[i]].children)
  {
    var kids := w[container].children;
    var x := kids[i];
    assert Spared(w, kids, x) by {
      forall j | 0 <= j < |kids| && kids[j] in w && w[kids[j]].tag == Untagged
        ensures x !in Subtree(w, kids[j])
      {
        assert w[x].parent == Some(container);
        ChildOutsideSubtree(w, x, kids[j]);
      }
    }
    SparedSurvives(w, kids, x);
  }

  /** One step of a barrier's piece loop: a new piece of kind `kind`, last under `barrier`. */
  method AddPiece(scene: Scene, barrier: Id, kind: PieceKind, tags: PrefabTags, scale: real) returns (piece: Id)
    requires scene.Valid() && barrier in scene.entities
    modifies scene
    ensures scene.Valid()
    ensures piece !in old(scene.entities) && scene.entities.Keys == old(scene.entities).Keys + {piece}
    ensures scene.entities[piece] == PieceClone(kind, tags, barrier, scale)
    ensures scene.entities[barrier] == old(scene.entities)[barrier].(children := old(scene.entities)[barrier].children + [piece])
    ensures forall x :: x in old(scene.entities) && x != barrier ==> scene.entities[x] == old(scene.entities)[x]
  {
    ghost var before := scene.entities;
    piece := scene.Instantiate(PieceClone(kind, tags, barrier, scale));
    AddedFacts(before, piece, PieceClone(kind, tags, barrier, scale));
  }

  /**
   * A barrier's piece loop: `count` pieces under the empty `barrier`, the
   * one at `keyholeIndex` the keyhole for `required`, laid out as `Row` says.
   */
  method BuildPieces(scene: Scene, barrier: Id, count: int, keyholeIndex: int, required: Shape, tags: PrefabTags, scale: real)
    returns (ghost pieces: seq<Id>)
    requires scene.Valid() && barrier in scene.entities && scene.entities[barrier].children == []
    requires count >= 0
    modifies scene
    ensures scene.Valid()
    ensures |pieces| == count
    ensures forall i :: 0 <= i < |pieces| ==> pieces[i] !in old(scene.entities) && pieces[i] in scene.entities
    ensures forall i :: 0 <= i < |pieces| ==>
              scene.entities[pieces[i]] == PieceClone(PieceAt(keyholeIndex, required, i), tags, barrier, scale)
    ensures forall i, j :: 0 <= i < j < |pieces| ==> pieces[i] != pieces[j]
    ensures barrier in scene.entities
    ensures scene.entities[barrier] == old(scene.entities)[barrier].(children := pieces)
    ensures forall x :: x in old(scene.entities) && x != barrier ==> x in scene.entities && scene.entities[x] == old(scene.entities)[x]
    ensures forall x :: x in scene.entities ==> x in old(scene.entities) || x in pieces
  {
    pieces := [];
    for c := 0 to count
      invariant scene.Valid() && barrier in scene.entities
      invariant |pieces| == c
      invariant forall i :: 0 <= i < c ==> pieces[i] !in old(scene.entities) && pieces[i] in scene.entities
      invariant forall i :: 0 <= i < c ==>
                  scene.entities[pieces[i]] == PieceClone(PieceAt(keyholeIndex, required, i), tags, barrier, scale)
      invariant forall i, j :: 0 <= i < j < c ==> pieces[i] != pieces[j]
      invariant scene.entities[barrier] == old(scene.entities)[barrier].(children := pieces)
      invariant forall x :: x in old(scene.entities) && x != barrier ==> x in scene.entities && scene.entities[x] == old(scene.entities)[x]
      invariant forall x :: x in scene.entities ==> x in old(scene.entities) || x in pieces
    {
      var kind := if c == keyholeIndex then KeyholeKind(required) else DefaultPiece;
      assert kind == PieceAt(keyholeIndex, required, c);
      var piece := AddPiece(scene, barrier, kind, tags, scale);
      pieces := pieces + [piece];
    }
  }

  class BarrierManager {
    const scene: Scene
    /** The empty object under which all barriers are spawned. */
    const container: Id
    const pieceCount: int
    /** Seconds between spawns; the timer is reset to this. */
    const spawnSpeed: real
    /** The falling speed of barriers and of the players that ride in them. */
    const movementSpeed: real
    /** The scale that makes `pieceCount` pieces tile the lane. */
    const pieceScale: real
    const tags: PrefabTags
    /** The shape the keyhole of the next barrier must have. */
    var mustInclude: Shape
    var spawnTimer: real

    ghost predicate Valid()
      reads this, scene
    {
      && scene.Valid()
      && container in scene.entities && scene.entities[container].parent == None
      && pieceCount >= 4
      && mustInclude != UNINITIALIZED
    }

    constructor (scene: Scene, container: Id, pieceCount: int, spawnSpeed: real,
                 movementSpeed: real, pieceScale: real, tags: PrefabTags)
      requires pieceCount >= 4
      requires scene.Valid() && container in scene.entities && scene.entities[container].parent == None
      ensures Valid()
      ensures this.scene == scene && this.container == container && this.pieceCount == pieceCount
      ensures this.spawnSpeed == spawnSpeed && this.movementSpeed == movementSpeed
      ensures this.pieceScale == pieceScale && this.tags == tags
      ensures mustInclude == CIRCLE && spawnTimer == 0.0
    {
      this.scene := scene;
      this.container := container;
      this.pieceCount := pieceCount;
      this.spawnSpeed := spawnSpeed;
      this.movementSpeed := movementSpeed;
      this.pieceScale := pieceScale;
      this.tags := tags;
      mustInclude := CIRCLE;
      spawnTimer := 0.0;
    }

    /** Clears the barriers left over from the last game: the container's untagged children. */
    method OnEnable()
      requires Valid()
      modifies scene
      ensures Valid()
      ensures scene.entities == ClearUntagged(old(scene.entities), old(scene.entities)[container].children)
    {
      var kids := scene.entities[container].children;
      ghost var w0 := scene.entities;
      for c := 0 to |kids|
        invariant scene.Valid()
        invariant ClearUntagged(w0, kids) == ClearUntagged(scene.entities, kids[c..])
      {
        assert kids[c..][1..] == kids[c + 1..];
        if kids[c] in scene.entities && scene.entities[kids[c]].tag == Untagged {
          scene.Destroy(kids[c]);
        }
      }
      assert Spared(w0, kids, container) by {
        forall i | 0 <= i < |kids| && kids[i] in w0 && w0[kids[i]].tag == Untagged
          ensures container !in Subtree(w0, kids[i])
        {
          assert w0[kids[i]].parent == Some(container);
          RootOutsideSubtree(w0, container, kids[i]);
        }
      }
      SparedSurvives(w0, kids, container);
    }

    /** The falling velocity given to a new barrier and to the player riding in it. */
    function Fall(): Vec2
    {
      Vec2(0.0, -movementSpeed)
    }

    /**
     * The scene `w` is `w0` plus one spawned barrier: the barrier under the
     * container with `pieceCount` pieces, the one at `keyholeIndex` the keyhole
     * for `keyholeShape` holding a new, disabled player of `playerShape` at the
     * riding position, barrier and player falling together; nothing else changed.
     */
    ghost predicate Spawned(w0: World, w: World, barrier: Id, pieces: seq<Id>, player: Id,
                            keyholeIndex: int, keyholeShape: Shape, playerShape: Shape, playerTag: string)
    {
      && barrier !in w0 && player !in w0 && barrier != player
      && |pieces| == pieceCount && 0 <= keyholeIndex < pieceCount
      && (forall i :: 0 <= i < |pieces| ==> pieces[i] !in w0 && pieces[i] != barrier && pieces[i] != player)
      && (forall i, j :: 0 <= i < j < |pieces| ==> pieces[i] != pieces[j])
      && (forall x :: x in w <==> x in w0 || x == barrier || x == player || x in pieces)
      && w[barrier] == BarrierClone(tags, container).(children := pieces, velocity := Fall())
      && container in w0 && container in w
      && w[container] == w0[container].(children := w0[container].children + [barrier])
      && (forall i :: 0 <= i < |pieces| && i != keyholeIndex ==>
            w[pieces[i]] == PieceClone(PieceAt(keyholeIndex, keyholeShape, i), tags, barrier, pieceScale))
      && w[pieces[keyholeIndex]] == PieceClone(KeyholeKind(keyholeShape), tags, barrier, pieceScale).(children := [player])
      && w[player] == PlayerClone(playerShape, playerShape, playerTag).(parent := Some(pieces[keyholeIndex]),
                        localPosition := RidePosition, localScale := UnitScale, enabled := false, velocity := Fall())
      && (forall x :: x in w0 && x != container ==> w[x] == w0[x])
    }

    /** Parents a new root player into a keyhole at the riding position, full scale, with its script disabled. */
    method ParkPlayer(player: Id, slot: Id)
      requires scene.Valid() && player in scene.entities && slot in scene.entities && player != slot
      requires scene.entities[player].parent == None
      modifies scene
      ensures scene.Valid()
      ensures scene.entities.Keys == old(scene.entities).Keys
      ensures scene.entities[player] == old(scene.entities)[player].(parent := Some(slot),
                localPosition := RidePosition, localScale := UnitScale, enabled := false)
      ensures scene.entities[slot] == old(scene.entities)[slot].(children := old(scene.entities)[slot].children + [player])
      ensures forall x :: x in old(scene.entities) && x != player && x != slot ==> scene.entities[x] == old(scene.entities)[x]
    {
      scene.SetParent(player, slot);
      scene.Store(player, scene.entities[player].(localPosition := RidePosition, localScale := UnitScale));
      scene.Store(player, scene.entities[player].(enabled := false));
    }

    /** The first half of a spawn: a new barrier under the container, with its pieces. */
    method BuildBarrier(keyholeIndex: int, required: Shape) returns (barrier: Id, ghost pieces: seq<Id>)
      requires scene.Valid() && container in scene.entities && pieceCount >= 0
      modifies scene
      ensures scene.Valid()
      ensures barrier !in old(scene.entities) && barrier in scene.entities
      ensures |pieces| == pieceCount
      ensures forall i :: 0 <= i < |pieces| ==> pieces[i] !in old(scene.entities) && pieces[i] != barrier && pieces[i] in scene.entities
      ensures forall i :: 0 <= i < |pieces| ==>
                scene.entities[pieces[i]] == PieceClone(PieceAt(keyholeIndex, required, i), tags, barrier, pieceScale)
      ensures forall i, j :: 0 <= i < j < |pieces| ==> pieces[i] != pieces[j]
      ensures scene.entities[barrier] == BarrierClone(tags, container).(children := pieces)
      ensures container in scene.entities
      ensures scene.entities[container] == old(scene.entities)[container].(children := old(scene.entities)[container].children + [barrier])
      ensures forall x :: x in old(scene.entities) && x != container ==> x in scene.entities && scene.entities[x] == old(scene.entities)[x]
      ensures forall x :: x in scene.entities ==> x in old(scene.entities) || x == barrier || x in pieces
    {
      ghost var w0 := scene.entities;
      barrier := scene.Instantiate(BarrierClone(tags, container));
      AddedFacts(w0, barrier, BarrierClone(tags, container));
      pieces := BuildPieces(scene, barrier, pieceCount, keyholeIndex, required, tags, pieceScale);
    }

    /** The second half of a spawn: a new player of `shape`, parked in `slot`, falling. */
    method SpawnRider(gm: GameManager, slot: Id, shape: Shape) returns (player: Id)
      requires scene.Valid() && gm.scene == scene && slot in scene.entities
      modifies gm, scene
      ensures scene.Valid()
      ensures player !in old(scene.entities) && scene.entities.Keys == old(scene.entities).Keys + {player}
      ensures scene.entities[player] == PlayerClone(shape, PrefabShape(shape), gm.playerTag).(parent := Some(slot),
                localPosition := RidePosition, localScale := UnitScale, enabled := false, velocity := Fall())
      ensures scene.entities[slot] == old(scene.entities)[slot].(children := old(scene.entities)[slot].children + [player])
      ensures forall x :: x in old(scene.entities) && x != slot ==> scene.entities[x] == old(scene.entities)[x]
      ensures gm.gameState == old(gm.gameState) && gm.mPlayer == old(gm.mPlayer) && gm.instance == old(gm.instance)
      ensures gm.uiCalls == old(gm.uiCalls) && gm.currentScore == old(gm.currentScore) && gm.highScore == old(gm.highScore)
    {
      ghost var w0 := scene.entities;
      player := gm.SpawnNewPlayer(shape, false);
      AddedFacts(w0, player, PlayerClone(shape, PrefabShape(shape), gm.playerTag));
      ParkPlayer(player, slot);
      scene.Store(player, scene.entities[player].(velocity := Fall()));
    }

    /**
     * Spawns a barrier and the next player, but only in game: the keyhole is
     * for the current required shape, then the required shape is redrawn and
     * the new player has the new one. `keyholeIndex` and `shapeDraw` are the
     * two random draws.
     */
    method SpawnBarrierAndNextPlayer(gm: GameManager, keyholeIndex: int, shapeDraw: int)
      returns (ghost barrier: Id, ghost pieces: seq<Id>, ghost player: Id)
      requires Valid() && gm.scene == scene
      requires KeyholeDraw(pieceCount, keyholeIndex) && 0 <= shapeDraw < 3
      modifies this, gm, scene
      ensures Valid()
      ensures spawnTimer == old(spawnTimer)
      ensures gm.gameState == old(gm.gameState) && gm.mPlayer == old(gm.mPlayer) && gm.instance == old(gm.instance)
      ensures gm.uiCalls == old(gm.uiCalls) && gm.currentScore == old(gm.currentScore) && gm.highScore == old(gm.highScore)
      ensures old(gm.gameState) != IN_GAME ==> scene.entities == old(scene.entities) && mustInclude == old(mustInclude)
      ensures old(gm.gameState) == IN_GAME ==> mustInclude == ShapeOf(shapeDraw)
      ensures old(gm.gameState) == IN_GAME ==>
        Spawned(old(scene.entities), scene.entities, barrier, pieces, player, keyholeIndex, old(mustInclude), mustInclude, gm.playerTag)
    {
      barrier, pieces, player := 0, [], 0;
      if gm.gameState == IN_GAME {
        ghost var w0 := scene.entities;
        var newBarrier;
        newBarrier, pieces := BuildBarrier(keyholeIndex, mustInclude);
        ghost var w2 := scene.entities;
        ghost var required := mustInclude;
        mustInclude := ShapeOf(shapeDraw);
        var slot := scene.entities[newBarrier].children[keyholeIndex];
        var newPlayer := SpawnRider(gm, slot, mustInclude);
        ghost var w3 := scene.entities;
        scene.Store(newBarrier, scene.entities[newBarrier].(velocity := Fall()));
        barrier, player := newBarrier, newPlayer;
        SpawnSteps(w0, w2, w3, scene.entities, newBarrier, pieces, newPlayer, keyholeIndex, required, mustInclude, gm.playerTag);
      }
    }

    /**
     * One frame of the scheduler: a spawn attempt when the countdown has gone
     * negative, which also resets it to `spawnSpeed`; otherwise the countdown
     * goes down by the frame time. The countdown runs in every game state.
     */
    method Update(gm: GameManager, deltaTime: real, keyholeIndex: int, shapeDraw: int)
      returns (spawnAttempted: bool, ghost barrier: Id, ghost pieces: seq<Id>, ghost player: Id)
      requires Valid() && gm.scene == scene
      requires KeyholeDraw(pieceCount, keyholeIndex) && 0 <= shapeDraw < 3
      modifies this, gm, scene
      ensures Valid()
      ensures spawnAttempted <==> old(spawnTimer) < 0.0
      ensures spawnAttempted ==> spawnTimer == spawnSpeed
      ensures !spawnAttempted ==> spawnTimer == old(spawnTimer) - deltaTime
      ensures gm.gameState == old(gm.gameState) && gm.mPlayer == old(gm.mPlayer) && gm.instance == old(gm.instance)
      ensures gm.uiCalls == old(gm.uiCalls) && gm.currentScore == old(gm.currentScore) && gm.highScore == old(gm.highScore)
      ensures !(spawnAttempted && old(gm.gameState) == IN_GAME) ==>
                scene.entities == old(scene.entities) && mustInclude == old(mustInclude)
      ensures spawnAttempted && old(gm.gameState) == IN_GAME ==>
                mustInclude == ShapeOf(shapeDraw) &&
                Spawned(old(scene.entities), scene.entities, barrier, pieces, player, keyholeIndex, old(mustInclude), mustInclude, gm.playerTag)
    {
      barrier, pieces, player := 0, [], 0;
      spawnAttempted := spawnTimer < 0.0;
      if spawnAttempted {
        spawnTimer := spawnSpeed;
        barrier, pieces, player := SpawnBarrierAndNextPlayer(gm, keyholeIndex, shapeDraw);
      } else {
        spawnTimer := spawnTimer - deltaTime;
      }
    }

    /** The two halves of a spawn, each as its method states it, compose into `Spawned`. */
    lemma SpawnSteps(w0: World, w2: World, w3: World, w: World,
                     barrier: Id, pieces: seq<Id>, player: Id,
                     keyholeIndex: int, keyholeShape: Shape, playerShape: Shape, playerTag: string)
      requires container in w0 && barrier !in w0 && 0 <= keyholeIndex < pieceCount
      requires |pieces| == pieceCount
      requires forall i :: 0 <= i < |pieces| ==> pieces[i] !in w0 && pieces[i] != barrier && pieces[i] in w2
      requires forall i :: 0 <= i < |pieces| ==>
                 w2[pieces[i]] == PieceClone(PieceAt(keyholeIndex, keyholeShape, i), tags, barrier, pieceScale)
      requires forall i, j :: 0 <= i < j < |pieces| ==> pieces[i] != pieces[j]
      requires barrier in w2 && w2[barrier] == BarrierClone(tags, container).(children := pieces)
      requires container in w2 && w2[container] == w0[container].(children := w0[container].children + [barrier])
      requires forall x :: x in w0 && x != container ==> x in w2 && w2[x] == w0[x]
      requires forall x :: x in w2 ==> x in w0 || x == barrier || x in pieces
      requires player !in w2 && w3.Keys == w2.Keys + {player}
      requires playerShape != UNINITIALIZED
      requires w3[player] == PlayerClone(playerShape, PrefabShape(playerShape), playerTag).(parent := Some(pieces[keyholeIndex]),
                 localPosition := RidePosition, localScale := UnitScale, enabled := false, velocity := Fall())
      requires w3[pieces[keyholeIndex]] == w2[pieces[keyholeIndex]].(children := w2[pieces[keyholeIndex]].children + [player])
      requires forall x :: x in w2 && x != pieces[keyholeIndex] ==> w3[x] == w2[x]
      requires w == w3[barrier := w3[barrier].(velocity := Fall())]
      ensures Spawned(w0, w, barrier, pieces, player, keyholeIndex, keyholeShape, playerShape, playerTag)
    {
      assert PieceAt(keyholeIndex, keyholeShape, keyholeIndex) == KeyholeKind(keyholeShape);
      assert player != barrier;
      forall i | 0 <= i < |pieces|
        ensures pieces[i] != player
      {
      }
    }

    /**
     * A spawned barrier's pieces, read left to right, are the layout `Row`
     * describes; so it has exactly one keyhole, for the keyhole shape, and
     * the player riding in it has the player shape.
     */
    lemma SpawnedLayout(w0: World, w: World, barrier: Id, pieces: seq<Id>, player: Id,
                        keyholeIndex: int, keyholeShape: Shape, playerShape: Shape, playerTag: string)
      requires Spawned(w0, w, barrier, pieces, player, keyholeIndex, keyholeShape, playerShape, playerTag)
      ensures forall i :: 0 <= i < |pieces| ==> w[pieces[i]].kind == Piece(Row(pieceCount, keyholeIndex, keyholeShape)[i])
      ensures KeyholeCount(Row(pieceCount, keyholeIndex, keyholeShape)) == if keyholeShape == UNINITIALIZED then 0 else 1
      ensures w[pieces[keyholeIndex]].kind == Piece(KeyholeKind(keyholeShape))
      ensures w[player].kind.PlayerBody? && w[player].kind.shape == playerShape && w[player].kind.newPlayer
      ensures w[player].parent == Some(pieces[keyholeIndex]) && w[pieces[keyholeIndex]].children == [player]
    {
      ExactlyOneKeyhole(pieceCount, keyholeIndex, keyholeShape);
    }

    /**
     * The shape chain: the player that rides in one spawned barrier is still
     * unchanged after the next spawn, and its shape is that next barrier's
     * keyhole shape.
     */
    lemma SpawnChain(w0: World, w1: World, w2: World, b1: Id, ps1: seq<Id>, p1: Id, k1: int,
                     b2: Id, ps2: seq<Id>, p2: Id, k2: int, a: Shape, s: Shape, c: Shape, playerTag: string)
      requires Spawned(w0, w1, b1, ps1, p1, k1, a, s, playerTag)
      requires Spawned(w1, w2, b2, ps2, p2, k2, s, c, playerTag)
      requires s != UNINITIALIZED
      ensures p1 in w2 && w2[p1] == w1[p1]
      ensures w2[p1].kind.PlayerBody? && w2[ps2[k2]].kind == Piece(Keyhole(w2[p1].kind.shape))
    {
      assert p1 in w1;
    }

    /**
     * A spawn keeps the current-player invariant: the new player rides
     * disabled, and no other player object changes, so the player in the
     * current-player slot is still the only enabled one.
     */
    lemma {:induction false} SpawnKeepsOneActive(w0: World, w: World, barrier: Id, pieces: seq<Id>, player: Id,
                                                 keyholeIndex: int, keyholeShape: Shape, playerShape: Shape,
                                                 playerTag: string, slot: Option<Id>)
      requires Spawned(w0, w, barrier, pieces, player, keyholeIndex, keyholeShape, playerShape, playerTag)
      requires Handoff.OneActive(w0, slot) && (slot.Some? ==> slot.value in w0)
      ensures Handoff.OneActive(w, slot)
    {
      forall x | IsPlayer(w, x)
        ensures w[x].enabled <==> slot == Some(x)
      {
        if x == container {
          assert w[x].kind == w0[x].kind && w[x].enabled == w0[x].enabled;
        } else if x in w0 {
          assert w[x] == w0[x];
        }
      }
    }

  /**
     * The head of the chain: the first player of a game, spawned for the
     * required shape, has the shape of the first barrier's keyhole.
     */
    lemma FirstPlayerChain(w0: World, w1: World, w2: World, p: Id, b: Id, ps: seq<Id>, p2: Id, k: int,
                           m: Shape, c: Shape, playerTag: string)
      requires container in w0 && p !in w0 && m != UNINITIALIZED
      requires w1 == Added(w0, p, PlayerClone(m, PrefabShape(m), playerTag).(name := "Player"))
      requires Spawned(w1, w2, b, ps, p2, k, m, c, playerTag)
      ensures p in w2 && w2[p].kind.PlayerBody? && w2[ps[k]].kind == Piece(Keyhole(w2[p].kind.shape))
    {
      assert p in w1 && p != container;
    }
  }
}
