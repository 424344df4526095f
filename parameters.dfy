/** The five parameter groups one generation pass consumes. Unsigned integer fields
    are `nat` (their values never exceed `u32` in the operations modelled here);
    float fields are `real`. */
module Parameters {

  datatype GeneralParams = GeneralParams(seed: nat, maxDepth: nat)

  datatype TrunkParams = TrunkParams(
    height: real,
    buttressing: real,
    splitHeight: real,
    segmentLength: real,
    size: real,
    ringSpread: real,
    segmentLengthVariation: real)

  datatype BranchingParams = BranchingParams(
    angleMin: real,
    angleMax: real,
    bendAngleMin: real,
    bendAngleMax: real,
    frequencyMin: nat,
    frequencyMax: nat,
    radiusTaper: real,
    azimuthVariation: real,
    maxReach: real)

  datatype RootParams = RootParams(
    enable: bool,
    depth: real,
    spread: real,
    density: nat,
    segmentLength: real)

  datatype TwigParams = TwigParams(
    enable: bool,
    density: real,
    scale: real,
    angleVariation: real)

  datatype TreeParameters = TreeParameters(
    general: GeneralParams,
    trunk: TrunkParams,
    branching: BranchingParams,
    roots: RootParams,
    twigs: TwigParams)

  /** What the random draws of one pass need in order not to panic on an empty
      range. The only range that can be empty is the twig-scale range
      `[s/2, 3s/2]` (for a negative scale), and it is drawn from only when some
      ring passes the twig gate, which needs a positive density. */
  predicate DrawableRanges(p: TwigParams)
  {
    !p.enable || p.density <= 0.0 || p.scale >= 0.0
  }
}
