/**
 * The session controller: the singleton slot, the game state machine, the
 * current-player slot `mPlayer`, the scores, and the calls it makes on the
 * user interface (recorded in order, since the interface itself only plays
 * animations).
 */
module GameManagement {
  import opened Wrappers
  import opened Shapes
  import opened SceneGraph
  import Handoff

  datatype GameState = MENU | IN_GAME | GAME_OVER

  datatype UiCall = ShowMainMenu | HideMainMenu | ShowGameOverScreen | HideGameOverScreen

  /** The name of the player prefab for a shape. */
  function PlayerPrefabName(s: Shape): string
  {
    match s
    case TRIANGLE => "Player (Triangle)"
    case SQUARE => "Player (Square)"
    case _ => "Player (Circle)"
  }

  /**
   * A fresh copy of the player prefab chosen for `required` (the circle one when
   * no case matches), with `shape` as the shape it records, at the scene root.
   * Its name and local coordinates stand in for prefab data that is not
   * modelled; a first player is moved to the spawn point, whose world
   * position is left out.
   */
  function PlayerClone(required: Shape, shape: Shape, tag: string): (e: Entity)
    ensures e.kind.PlayerBody? && e.enabled && e.parent == None && e.children == []
  {
    Entity(PlayerBody(shape, true, Vec2(0.0, 0.0)), tag, PlayerPrefabName(PrefabShape(required)) + "(Clone)",
           true, None, [], Vec3(0.0, 0.0, 0.0), Vec3(1.0, 1.0, 1.0), Vec2(0.0, 0.0))
  }

  /**
   * A new game establishes the current-player invariant: when no player object
   * is enabled, adding the first player (enabled, and put in the slot) leaves
   * exactly that player enabled.
   */
  lemma {:induction false} FirstPlayerActive(w: World, p: Id, m: Shape, playerTag: string)
    requires p !in w && Handoff.OneActive(w, None)
    ensures Handoff.OneActive(Added(w, p, PlayerClone(m, PrefabShape(m), playerTag).(name := Handoff.CurrentName)), Some(p))
  {
    var e := PlayerClone(m, PrefabShape(m), playerTag).(name := Handoff.CurrentName);
    var r := Added(w, p, e);
    AddedFacts(w, p, e);
    forall x | IsPlayer(r, x)
      ensures r[x].enabled <==> Some(p) == Some(x)
    {
      if x != p {
        assert r[x] == w[x] && IsPlayer(w, x);
      }
    }
  }

  /**
   * A new game does not touch the players already in the scene: a leftover
   * player that is still enabled (a game over raised while it was not falling
   * leaves it in place) stays enabled beside the new first player, so exactly
   * one enabled player no longer holds.
   */
  lemma LeftoverStaysActive(w: World, p: Id, m: Shape, playerTag: string, leftover: Id)
    requires p !in w && IsPlayer(w, leftover) && w[leftover].enabled
    ensures var r := Added(w, p, PlayerClone(m, PrefabShape(m), playerTag).(name := Handoff.CurrentName));
      && IsPlayer(r, leftover) && r[leftover].enabled && IsPlayer(r, p) && r[p].enabled
      && !Handoff.OneActive(r, Some(p))
  {
    AddedFacts(w, p, PlayerClone(m, PrefabShape(m), playerTag).(name := Handoff.CurrentName));
  }

  class GameManager {
    const scene: Scene
    /** The tag the player prefabs carry. */
    const playerTag: string
    /** The static `GameManager.Instance`: the scene object of the manager that won `Awake`. */
    var instance: Option<Id>
    var gameState: GameState
    var mPlayer: Option<Id>
    var currentScore: int
    var highScore: int
    var uiCalls: seq<UiCall>

    constructor (scene: Scene, playerTag: string)
      ensures this.scene == scene && this.playerTag == playerTag
      ensures instance == None && mPlayer == None && uiCalls == []
      ensures gameState == IN_GAME
      ensures currentScore == 0 && highScore == 0
    {
      this.scene := scene;
      this.playerTag := playerTag;
      instance := None;
      gameState := IN_GAME;
      mPlayer := None;
      currentScore := 0;
      highScore := 0;
      uiCalls := [];
    }

    /**
     * `Awake` of the manager object `me`: the first one claims the singleton
     * slot; a later, different one destroys itself and leaves the slot alone.
     */
    method Awake(me: Id)
      requires scene.Valid()
      modifies this, scene
      ensures scene.Valid()
      ensures old(instance) == None ==> instance == Some(me) && scene.entities == old(scene.entities)
      ensures old(instance) == Some(me) ==> instance == old(instance) && scene.entities == old(scene.entities)
      ensures old(instance).Some? && old(instance) != Some(me) ==>
                instance == old(instance) && scene.entities == Removed(old(scene.entities), me)
      ensures gameState == old(gameState) && mPlayer == old(mPlayer) && uiCalls == old(uiCalls)
      ensures currentScore == old(currentScore) && highScore == old(highScore)
    {
      if instance == None {
        instance := Some(me);
      } else if instance != Some(me) {
        scene.Destroy(me);
      }
    }

    /** Makes `p` the current player and renames it "Player". */
    method SetNewPlayer(p: Id)
      requires scene.Valid() && p in scene.entities
      modifies this, scene
      ensures scene.Valid()
      ensures mPlayer == Some(p)
      ensures scene.entities == old(scene.entities)[p := old(scene.entities)[p].(name := Handoff.CurrentName)]
      ensures gameState == old(gameState) && instance == old(instance) && uiCalls == old(uiCalls)
      ensures currentScore == old(currentScore) && highScore == old(highScore)
    {
      mPlayer := Some(p);
      scene.Store(p, scene.entities[p].(name := Handoff.CurrentName));
    }

    /**
     * Instantiates the player prefab for `required` at the scene root. Only a
     * first player becomes the current one (and is renamed).
     */
    method SpawnNewPlayer(required: Shape, isAFirstPlayer: bool) returns (id: Id)
      requires scene.Valid()
      modifies this, scene
      ensures scene.Valid()
      ensures id !in old(scene.entities)
      ensures var e := PlayerClone(required, PrefabShape(required), playerTag);
        scene.entities == Added(old(scene.entities), id, if isAFirstPlayer then e.(name := Handoff.CurrentName) else e)
      ensures mPlayer == if isAFirstPlayer then Some(id) else old(mPlayer)
      ensures gameState == old(gameState) && instance == old(instance) && uiCalls == old(uiCalls)
      ensures currentScore == old(currentScore) && highScore == old(highScore)
    {
      id := scene.Instantiate(PlayerClone(required, PrefabShape(required), playerTag));
      if isAFirstPlayer {
        SetNewPlayer(id);
      }
    }

    /**
     * Starts a session: hides the main menu, spawns the first player with the
     * barrier manager's current required shape, and enters IN_GAME. The scores
     * are not touched.
     */
    method NewGame(mustInclude: Shape)
      requires scene.Valid()
      modifies this, scene
      ensures scene.Valid()
      ensures gameState == IN_GAME
      ensures uiCalls == old(uiCalls) + [HideMainMenu]
      ensures mPlayer.Some? && mPlayer.value !in old(scene.entities)
      ensures scene.entities == Added(old(scene.entities), mPlayer.value,
                PlayerClone(mustInclude, PrefabShape(mustInclude), playerTag).(name := Handoff.CurrentName))
      ensures instance == old(instance)
      ensures currentScore == old(currentScore) && highScore == old(highScore)
    {
      uiCalls := uiCalls + [HideMainMenu];
      var first := SpawnNewPlayer(mustInclude, true);
      gameState := IN_GAME;
    }

    /**
     * Ends a session: always GAME_OVER; a game over raised by play shows the
     * game-over screen, one asked for from that screen returns to the main menu.
     */
    method GameOver(isScriptGameOver: bool)
      modifies this
      ensures gameState == GAME_OVER
      ensures uiCalls == old(uiCalls) + if isScriptGameOver then [ShowGameOverScreen]
                                         else [HideGameOverScreen, ShowMainMenu]
      ensures mPlayer == old(mPlayer) && instance == old(instance)
      ensures currentScore == old(currentScore) && highScore == old(highScore)
    {
      gameState := GAME_OVER;
      if isScriptGameOver {
        uiCalls := uiCalls + [ShowGameOverScreen];
      } else {
        uiCalls := uiCalls + [HideGameOverScreen];
        uiCalls := uiCalls + [ShowMainMenu];
      }
    }
  }
}
