/**
 * The animation-parameter library the handler calls (rvl-node-animations).
 * Its internals are not part of this model. Its functions are pure and
 * deterministic, so each result is represented by the call that produced it:
 * a term recording the function and its literal arguments. Equal calls give
 * equal terms, which is all the handler relies on.
 */
module RvlAnimations {

  /** One animation layer, as returned by one library call. */
  datatype Wave =
    | MovingWave(arguments: seq<int>)
    | ColorCycleWave(arguments: seq<int>)

  /** The composed layers sent to the display, as returned by `createWaveParameters`. */
  datatype WaveParameters = WaveParameters(waves: seq<Wave>)

  /** `createMovingWave(a, b, c, d)`. */
  function CreateMovingWave(a: int, b: int, c: int, d: int): Wave {
    MovingWave([a, b, c, d])
  }

  /** `createColorCycleWave(a, b)`. */
  function CreateColorCycleWave(a: int, b: int): Wave {
    ColorCycleWave([a, b])
  }

  /** `createWaveParameters(...waves)`: the layers in the order given. */
  function CreateWaveParameters(waves: seq<Wave>): WaveParameters {
    WaveParameters(waves)
  }
}
