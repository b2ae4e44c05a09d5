/**
 * The control script on a player object (first revision): steering while
 * enabled, the new-player flag, and the two triggers: the despawner, which
 * ends the game for the controlled player, and a keyhole, which hands control
 * to the player waiting in it.
 */
module PlayerScripts {
  import opened Wrappers
  import opened SceneGraph
  import opened Steering
  import opened GameManagement
  import opened Handoff

  /** The player object `p` with its movement intent and body velocity both set to `m`. */
  function Moved(w: World, p: Id, m: Vec2): World
    requires IsPlayer(w, p)
  {
    w[p := w[p].(kind := w[p].kind.(move := m), velocity := m)]
  }

  /**
   * `Update` of the script on `me`, at world position (`posX`, `posY`). A
   * disabled script gets no update; an enabled one computes its movement
   * intent from the input and the new-player flag and writes it to the body.
   */
  method Update(scene: Scene, me: Id, input: Input, posX: real, posY: real)
    requires scene.Valid() && IsPlayer(scene.entities, me)
    modifies scene
    ensures scene.Valid()
    ensures !old(scene.entities)[me].enabled ==> scene.entities == old(scene.entities)
    ensures old(scene.entities)[me].enabled ==>
              var k := old(scene.entities)[me].kind;
              scene.entities == Moved(old(scene.entities), me, Vec2(SteeredX(k.move.x, input, posX), LiftY(k.newPlayer, posY)))
  {
    var e := scene.entities[me];
    if e.enabled {
      var vx := SteerHorizontal(e.kind.move.x, input, posX);
      var m := Vec2(vx, LiftY(e.kind.newPlayer, posY));
      scene.Store(me, e.(kind := e.kind.(move := m), velocity := m));
    }
  }

  /** Once the flag is down, an update keeps the player's vertical velocity at zero. */
  lemma LandedUpdateHoldsHeight(w: World, me: Id, input: Input, posX: real, posY: real)
    requires IsPlayer(w, me) && !w[me].kind.newPlayer
    ensures var m := Vec2(SteeredX(w[me].kind.move.x, input, posX), LiftY(w[me].kind.newPlayer, posY));
      Moved(w, me, m)[me].velocity.y == 0.0 && !Moved(w, me, m)[me].kind.newPlayer
  {
  }

  /** Touching a barrier lowers the new-player flag for good; nothing else changes. */
  method OnCollisionEnter(scene: Scene, me: Id)
    requires scene.Valid() && IsPlayer(scene.entities, me)
    modifies scene
    ensures scene.Valid()
    ensures scene.entities == old(scene.entities)[me := old(scene.entities)[me].(kind := old(scene.entities)[me].kind.(newPlayer := false))]
  {
    var e := scene.entities[me];
    scene.Store(me, e.(kind := e.kind.(newPlayer := false)));
  }

  /**
   * The player `me` enters the trigger `other`. A despawner ends the game
   * only for an enabled script. A keyhole hands over whatever the enabled
   * state: it needs a first child carrying a player script, and without one
   * the handler stops at that lookup with nothing changed. Any other tag is
   * ignored.
   */
  method OnTriggerEnter(gm: GameManager, me: Id, other: Id)
    requires gm.scene.Valid() && IsPlayer(gm.scene.entities, me) && other in gm.scene.entities && other != me
    modifies gm, gm.scene
    ensures gm.scene.Valid()
    ensures gm.instance == old(gm.instance) && gm.currentScore == old(gm.currentScore) && gm.highScore == old(gm.highScore)
    ensures var t := old(gm.scene.entities)[other].tag;
      t == DespawnerTag ==>
        && gm.scene.entities == old(gm.scene.entities) && gm.mPlayer == old(gm.mPlayer)
        && (old(gm.scene.entities)[me].enabled ==> gm.gameState == GAME_OVER && gm.uiCalls == old(gm.uiCalls) + [ShowGameOverScreen])
        && (!old(gm.scene.entities)[me].enabled ==> gm.gameState == old(gm.gameState) && gm.uiCalls == old(gm.uiCalls))
    ensures var t := old(gm.scene.entities)[other].tag;
      t == RespawnTag && CanHandOff(old(gm.scene.entities), other) ==>
        && gm.scene.entities == HandedOff(old(gm.scene.entities), me, other)
        && gm.mPlayer == Some(old(gm.scene.entities)[other].children[0])
        && gm.gameState == old(gm.gameState) && gm.uiCalls == old(gm.uiCalls)
    ensures var t := old(gm.scene.entities)[other].tag;
      (t != DespawnerTag && (t != RespawnTag || !CanHandOff(old(gm.scene.entities), other))) ==>
        && gm.scene.entities == old(gm.scene.entities) && gm.mPlayer == old(gm.mPlayer)
        && gm.gameState == old(gm.gameState) && gm.uiCalls == old(gm.uiCalls)
  {
    var scene := gm.scene;
    var tag := scene.entities[other].tag;
    if tag == DespawnerTag {
      if scene.entities[me].enabled {
        gm.GameOver(true);
      }
    } else if tag == RespawnTag {
      if CanHandOff(scene.entities, other) {
        HandOff(gm, me, other);
      }
    }
  }

  /** The keyhole branch once its first child is known to carry a player script. */
  method HandOff(gm: GameManager, me: Id, keyhole: Id)
    requires gm.scene.Valid() && CanHandOff(gm.scene.entities, keyhole) && me in gm.scene.entities && me != keyhole
    modifies gm, gm.scene
    ensures gm.scene.Valid()
    ensures gm.scene.entities == HandedOff(old(gm.scene.entities), me, keyhole)
    ensures gm.mPlayer == Some(old(gm.scene.entities)[keyhole].children[0])
    ensures gm.gameState == old(gm.gameState) && gm.uiCalls == old(gm.uiCalls) && gm.instance == old(gm.instance)
    ensures gm.currentScore == old(gm.currentScore) && gm.highScore == old(gm.highScore)
  {
    var scene := gm.scene;
    ghost var w := scene.entities;
    var next := scene.entities[keyhole].children[0];
    scene.Store(next, scene.entities[next].(enabled := true));
    gm.SetNewPlayer(next);
    assert scene.entities == w[next := w[next].(enabled := true, name := CurrentName)];
    scene.DetachChildren(keyhole);
    scene.SetParent(me, keyhole);
    scene.Store(me, scene.entities[me].(enabled := false));
  }
}
