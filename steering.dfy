/**
 * The movement intent a player script computes each frame. Input devices are
 * reduced to the keyboard axis and the world x of the first touch.
 */
module Steering {
  import opened Wrappers

  const PlayerSpeed: real := 10.0
  const DefaultHeight: real := -4.0
  const VerticalResistance: real := 0.1

  datatype Input = Input(axis: real, touchX: Option<real>)

  /** The horizontal velocity: touch input wins over the keyboard, and with neither the previous value stays. */
  function SteeredX(previous: real, input: Input, posX: real): real
  {
    if input.touchX.Some? then (input.touchX.value - posX) * PlayerSpeed
    else if input.axis != 0.0 then input.axis * PlayerSpeed
    else previous
  }

  /** The frame's horizontal velocity, computed as the player script overwrites it step by step. */
  method SteerHorizontal(previous: real, input: Input, posX: real) returns (vx: real)
    ensures vx == SteeredX(previous, input, posX)
    ensures input.touchX.Some? ==> vx == (input.touchX.value - posX) * PlayerSpeed
    ensures input.touchX.None? && input.axis != 0.0 ==> vx == input.axis * PlayerSpeed
    ensures input.touchX.None? && input.axis == 0.0 ==> vx == previous
  {
    vx := previous;
    if input.axis != 0.0 {
      vx := input.axis * PlayerSpeed;
    }
    if input.touchX.Some? {
      vx := (input.touchX.value - posX) * PlayerSpeed;
    }
  }

  /**
   * The vertical velocity: a new player is pulled toward the default height
   * (upward from below it, downward from above it); once it has touched a
   * barrier the vertical velocity is zero.
   */
  function LiftY(newPlayer: bool, posY: real): (vy: real)
    ensures !newPlayer ==> vy == 0.0
    ensures newPlayer ==> (vy > 0.0 <==> posY < DefaultHeight) && (vy == 0.0 <==> posY == DefaultHeight)
  {
    if newPlayer then (DefaultHeight - posY) * VerticalResistance * PlayerSpeed else 0.0
  }
}
