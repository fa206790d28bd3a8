/**
 * The control parameter mapper (`updateParams`): the three slider values
 * become the live tunables that every particle reads during a frame.
 * The sketch keeps these in module-level variables; here they are one record.
 */
module Controls {
  import opened P5Math

  /** The values read from the four sliders in one frame. */
  datatype Sliders = Sliders(num: int, equity: real, climate: real, surveil: real)

  /**
   * The sketch's globals `equity`, `climate`, `surveil`, `m`, `n`, `v`, `N`
   * and `uniColor`.
   */
  datatype Tunables = Tunables(
    equity: real, climate: real, surveil: real,
    m: real, n: real, v: real,
    count: int, uniColor: real)

  /** The value the sketch gives `climate` before the first frame. */
  const InitialClimate: real := 5.0

  /**
   * The globals before the first call of `updateParams`. Only `climate` has a
   * value in the sketch; the others are undefined and stand here as zero. The
   * frame driver always refreshes them before a particle reads them.
   */
  const Initial: Tunables := Tunables(0.0, InitialClimate, 0.0, 0.0, 0.0, 0.0, 0, 0.0)

  /** True when a control value lies in the sliders' nominal range [1, 10]. */
  predicate InControlRange(c: real) {
    1.0 <= c <= 10.0
  }

  /** `updateParams`: store the slider values and derive m, n, v and uniColor. */
  function UpdateParams(s: Sliders): Tunables
  {
    Tunables(
      s.equity, s.climate, s.surveil,
      Remap(s.equity, 1.0, 10.0, 1.0, 40.0),
      Remap(s.surveil, 1.0, 10.0, 1.0, 40.0),
      Remap(s.climate, 1.0, 10.0, 0.05, 0.001),
      s.num,
      Remap(s.climate, 1.0, 10.0, 0.0, 260.0))
  }

  /**
   * For controls in [1, 10]: m and n lie in [1, 40], v in [0.001, 0.05] and
   * uniColor in [0, 260]; the controls themselves are stored unchanged.
   */
  lemma TunablesInRange(s: Sliders)
    requires InControlRange(s.equity) && InControlRange(s.climate) && InControlRange(s.surveil)
    ensures var t := UpdateParams(s);
      && 1.0 <= t.m <= 40.0 && 1.0 <= t.n <= 40.0
      && 0.001 <= t.v <= 0.05
      && 0.0 <= t.uniColor <= 260.0
      && t.equity == s.equity && t.climate == s.climate && t.surveil == s.surveil
      && t.count == s.num
  {
  }

  /**
   * The walk gain v falls strictly as climate rises (a warmer climate calms
   * the field) while the target hue rises strictly.
   */
  lemma ClimateOrdersGainAndHue(s1: Sliders, s2: Sliders)
    requires s1.climate < s2.climate
    ensures UpdateParams(s1).v > UpdateParams(s2).v
    ensures UpdateParams(s1).uniColor < UpdateParams(s2).uniColor
  {
  }

  /**
   * Each derived tunable determines its control: remapping it back with the
   * inverse bounds returns the slider value.
   */
  lemma TunablesRecoverControls(s: Sliders)
    ensures var t := UpdateParams(s);
      && Remap(t.m, 1.0, 40.0, 1.0, 10.0) == s.equity
      && Remap(t.n, 1.0, 40.0, 1.0, 10.0) == s.surveil
      && Remap(t.v, 0.05, 0.001, 1.0, 10.0) == s.climate
      && Remap(t.uniColor, 0.0, 260.0, 1.0, 10.0) == s.climate
  {
    RemapRoundTrip(s.equity, 1.0, 10.0, 1.0, 40.0);
    RemapRoundTrip(s.surveil, 1.0, 10.0, 1.0, 40.0);
    RemapRoundTrip(s.climate, 1.0, 10.0, 0.05, 0.001);
    RemapRoundTrip(s.climate, 1.0, 10.0, 0.0, 260.0);
  }
}
