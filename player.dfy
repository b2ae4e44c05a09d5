/**
 * The player component of the second revision: the static current-player
 * slot and the factory for player objects, steering gated on being the
 * current player, and the same two triggers as the first revision's player
 * script, with the current-player slot kept here instead of in the session
 * controller.
 */
module Players {
  import opened Wrappers
  import opened Shapes
  import opened SceneGraph
  import opened Steering
  import opened GameManagement
  import opened Handoff

  /**
   * A fresh copy of the player prefab for `required` (the circle one when no
   * case matches) under the initial spawn point, before its shape is set.
   * Its name and local coordinates stand in for prefab data that is not
   * modelled.
   */
  function PrefabPlayer(required: Shape, tag: string, spawn: Id): (e: Entity)
    ensures e.kind.PlayerBody? && e.kind.newPlayer && e.enabled
    ensures e.parent == Some(spawn) && e.children == []
  {
    PlayerClone(required, PrefabShape(required), tag).(parent := Some(spawn))
  }

  /** The player object `p` with the horizontal part of its movement intent set to `vx`. */
  function Steered(w: World, p: Id, vx: real): World
    requires IsPlayer(w, p)
  {
    w[p := w[p].(kind := w[p].kind.(move := w[p].kind.move.(x := vx)))]
  }

  /** The static part of the player component, over the scene it lives in. */
  class PlayerRegistry {
    const scene: Scene
    /** The tag the player prefabs carry. */
    const playerTag: string
    /** The session controller's initial spawn point, the parent of every new player. */
    const initialSpawn: Id
    /** The static `Player.Current`: the player object the user controls. */
    var current: Option<Id>

    constructor (scene: Scene, playerTag: string, initialSpawn: Id)
      ensures this.scene == scene && this.playerTag == playerTag && this.initialSpawn == initialSpawn
      ensures current == None
    {
      this.scene := scene;
      this.playerTag := playerTag;
      this.initialSpawn := initialSpawn;
      current := None;
    }

    /** Makes `p` the current player and renames it "Player". */
    method SetCurrentPlayer(p: Id)
      requires scene.Valid() && p in scene.entities
      modifies this, scene
      ensures scene.Valid()
      ensures current == Some(p)
      ensures scene.entities == old(scene.entities)[p := old(scene.entities)[p].(name := CurrentName)]
    {
      current := Some(p);
      scene.Store(p, scene.entities[p].(name := CurrentName));
    }

    /**
     * Instantiates the player prefab for `required` under the initial spawn
     * point and records `required` as its shape, whichever prefab was used.
     * Only a first player becomes the current one (and is renamed).
     */
    method CreateNewPlayer(required: Shape, isFirstPlayer: bool) returns (id: Id)
      requires scene.Valid() && initialSpawn in scene.entities
      modifies this, scene
      ensures scene.Valid()
      ensures id !in old(scene.entities)
      ensures var e := PrefabPlayer(required, playerTag, initialSpawn).(kind := PlayerBody(required, true, Vec2(0.0, 0.0)));
        scene.entities == Added(old(scene.entities), id, if isFirstPlayer then e.(name := CurrentName) else e)
      ensures current == if isFirstPlayer then Some(id) else old(current)
    {
      var prefab := PrefabPlayer(required, playerTag, initialSpawn);
      id := scene.Instantiate(prefab);
      scene.Store(id, scene.entities[id].(kind := scene.entities[id].kind.(shape := required)));
      if isFirstPlayer {
        SetCurrentPlayer(id);
      }
    }

    /**
     * `Update` of the player `me`: only an enabled current player reads the
     * input, and it only sets the horizontal part of its movement intent
     * (this revision no longer writes the body's velocity).
     */
    method Update(me: Id, input: Input, posX: real)
      requires scene.Valid() && IsPlayer(scene.entities, me)
      modifies scene
      ensures scene.Valid()
      ensures !(old(scene.entities)[me].enabled && current == Some(me)) ==> scene.entities == old(scene.entities)
      ensures old(scene.entities)[me].enabled && current == Some(me) ==>
                scene.entities == Steered(old(scene.entities), me, SteeredX(old(scene.entities)[me].kind.move.x, input, posX))
    {
      var e := scene.entities[me];
      if e.enabled && current == Some(me) {
        var vx := SteerHorizontal(e.kind.move.x, input, posX);
        scene.Store(me, e.(kind := e.kind.(move := e.kind.move.(x := vx))));
      }
    }

    /** Touching a barrier lowers the player's new-player flag for good; nothing else changes. */
    method OnCollisionEnter(me: Id)
      requires scene.Valid() && IsPlayer(scene.entities, me)
      modifies scene
      ensures scene.Valid()
      ensures scene.entities == old(scene.entities)[me := old(scene.entities)[me].(kind := old(scene.entities)[me].kind.(newPlayer := false))]
    {
      var e := scene.entities[me];
      scene.Store(me, e.(kind := e.kind.(newPlayer := false)));
    }

    /**
     * The player `me` enters the trigger `other`: a despawner ends the game
     * for an enabled player only; a keyhole whose first child carries a player
     * component hands control to that child, and without one the handler
     * stops at that lookup with nothing changed; any other tag is ignored.
     */
    method OnTriggerEnter(gm: GameManager, me: Id, other: Id)
      requires scene.Valid() && gm.scene == scene
      requires IsPlayer(scene.entities, me) && other in scene.entities && other != me
      modifies this, gm, scene
      ensures scene.Valid()
      ensures gm.mPlayer == old(gm.mPlayer) && gm.instance == old(gm.instance)
      ensures gm.currentScore == old(gm.currentScore) && gm.highScore == old(gm.highScore)
      ensures var t := old(scene.entities)[other].tag;
        t == DespawnerTag ==>
          && scene.entities == old(scene.entities) && current == old(current)
          && (old(scene.entities)[me].enabled ==> gm.gameState == GAME_OVER && gm.uiCalls == old(gm.uiCalls) + [ShowGameOverScreen])
          && (!old(scene.entities)[me].enabled ==> gm.gameState == old(gm.gameState) && gm.uiCalls == old(gm.uiCalls))
      ensures var t := old(scene.entities)[other].tag;
        t == RespawnTag && CanHandOff(old(scene.entities), other) ==>
          && scene.entities == HandedOff(old(scene.entities), me, other)
          && current == Some(old(scene.entities)[other].children[0])
          && gm.gameState == old(gm.gameState) && gm.uiCalls == old(gm.uiCalls)
      ensures var t := old(scene.entities)[other].tag;
        (t != DespawnerTag && (t != RespawnTag || !CanHandOff(old(scene.entities), other))) ==>
          && scene.entities == old(scene.entities) && current == old(current)
          && gm.gameState == old(gm.gameState) && gm.uiCalls == old(gm.uiCalls)
    {
      var tag := scene.entities[other].tag;
      if tag == DespawnerTag {
        if scene.entities[me].enabled {
          gm.GameOver(true);
        }
      } else if tag == RespawnTag {
        if CanHandOff(scene.entities, other) {
          HandOff(me, other);
        }
      }
    }

    /** The keyhole branch once its first child is known to carry a player component. */
    method HandOff(me: Id, keyhole: Id)
      requires scene.Valid() && CanHandOff(scene.entities, keyhole) && me in scene.entities && me != keyhole
      modifies this, scene
      ensures scene.Valid()
      ensures scene.entities == HandedOff(old(scene.entities), me, keyhole)
      ensures current == Some(old(scene.entities)[keyhole].children[0])
    {
      ghost var w := scene.entities;
      var next := scene.entities[keyhole].children[0];
      scene.Store(next, scene.entities[next].(enabled := true));
      SetCurrentPlayer(next);
      assert scene.entities == w[next := w[next].(enabled := true, name := CurrentName)];
      scene.DetachChildren(keyhole);
      scene.SetParent(me, keyhole);
      scene.Store(me, scene.entities[me].(enabled := false));
    }
  }
}
