/**
 * The state of one particle as a value, and what the constructor, `move`,
 * `updateOffsets` and `show` make of it. The class `Particles.Particle`
 * updates its fields in place and is proved against these functions.
 */
module ParticleSpec {
  import opened Wrappers
  import opened P5Math
  import opened Field
  import opened Controls
  import opened Stroke

  /** The particle canvas, `settings.particlesCanvasSize`. */
  const Width: real := 640.0
  const Height: real := 500.0

  /** The smallest walk amplitude, `minWalk`. */
  const MinWalk: real := 0.002

  /** The largest hue, `maxColor`. */
  const MaxColor: real := 260.0

  /** Age decays only while it is above this floor. */
  const AgeFloor: real := -10.0

  /** A particle whose age is at or below this is dead. */
  const DeathAge: real := -5.0

  /** The colour `[h, s, b, alpha]` a particle strokes with. */
  datatype Hsba = Hsba(h: real, s: real, b: real, alpha: real)

  /** The fields of a `Particle`. */
  datatype PState = PState(
    x: real, y: real, prevX: real, prevY: real,
    amplitude: real, age: real,
    h: real, colorDif: real, s: real, b: real, color: Hsba,
    stroke: real,
    xOff: real, yOff: real, xPrevOff: real, yPrevOff: real)

  /** The six unit draws the constructor takes from p5's generator. */
  datatype SpawnDraw = SpawnDraw(x: real, y: real, age: real, hue: real, sat: real, bright: real)
  {
    predicate Valid() {
      IsUnit(x) && IsUnit(y) && IsUnit(age) && IsUnit(hue) && IsUnit(sat) && IsUnit(bright)
    }
  }

  /** The two unit draws one random-walk step takes. */
  datatype WalkDraw = WalkDraw(dx: real, dy: real)
  {
    predicate Valid() {
      IsUnit(dx) && IsUnit(dy)
    }
  }

  /** One mark drawn on the canvas. */
  datatype Mark = Point(x: real, y: real) | Line(x1: real, y1: real, x2: real, y2: real)

  /** What one call of `show` draws: stroke weight, stroke colour and four marks. */
  datatype DrawCall = DrawCall(weight: Option<int>, color: Hsba, marks: seq<Mark>)

  predicate InUnitSquare(x: real, y: real) {
    0.0 <= x <= 1.0 && 0.0 <= y <= 1.0
  }

  /**
   * What every particle satisfies between calls: current and previous
   * position in the unit square, stroke in [0, 1], and screen offsets that
   * are the positions scaled to half the canvas.
   */
  predicate WellFormed(p: PState) {
    && InUnitSquare(p.x, p.y)
    && InUnitSquare(p.prevX, p.prevY)
    && 0.0 <= p.stroke <= 1.0
    && p.xOff == (Width / 2.0) * p.x && p.yOff == (Height / 2.0) * p.y
    && p.xPrevOff == (Width / 2.0) * p.prevX && p.yPrevOff == (Height / 2.0) * p.prevY
  }

  predicate Alive(p: PState) {
    !(p.age <= DeathAge)
  }

  /** The edge handling of `updateOffsets`: the nearest point of [0, 1]. */
  function Clamp01(v: real): (r: real)
    ensures r == Max(0.0, Min(v, 1.0))
  {
    if v <= 0.0 then 0.0 else if v >= 1.0 then 1.0 else v
  }

  /**
   * `updateOffsets`: clamp the position into the unit square and convert
   * current and previous positions to screen offsets; nothing else changes.
   */
  function Offsets(p: PState): (q: PState)
    ensures InUnitSquare(q.x, q.y)
    ensures InUnitSquare(p.x, p.y) ==> q.x == p.x && q.y == p.y
    ensures q.xOff == (Width / 2.0) * q.x && q.yOff == (Height / 2.0) * q.y
    ensures 0.0 <= q.xOff <= Width / 2.0 && 0.0 <= q.yOff <= Height / 2.0
    ensures q.xPrevOff == (Width / 2.0) * p.prevX && q.yPrevOff == (Height / 2.0) * p.prevY
    ensures q.(x := p.x, y := p.y, xOff := p.xOff, yOff := p.yOff,
               xPrevOff := p.xPrevOff, yPrevOff := p.yPrevOff) == p
  {
    var x := Clamp01(p.x);
    var y := Clamp01(p.y);
    p.(x := x, y := y,
       xOff := (Width / 2.0) * x, yOff := (Height / 2.0) * y,
       xPrevOff := (Width / 2.0) * p.prevX, yPrevOff := (Height / 2.0) * p.prevY)
  }

  /** Clamping twice is clamping once. */
  lemma OffsetsIdempotent(p: PState)
    ensures Offsets(Offsets(p)) == Offsets(p)
  {
  }

  /** The hue a new particle is drawn around: `map(climate, 1, 10, 0, maxColor)`. */
  function CurrentHue(climate: real): real {
    Remap(climate, 1.0, 10.0, 0.0, MaxColor)
  }

  /**
   * The constructor: a position in the unit square, an age in [1000, 5000],
   * a hue within 5 of the climate hue, saturation and brightness in
   * [75, 100], and a stroke that falls linearly from 1 at age 1000 to 0 at
   * age 5000.
   */
  function Spawn(climate: real, d: SpawnDraw): (p: PState)
    requires d.Valid()
    ensures WellFormed(p)
    ensures p.prevX == p.x && p.prevY == p.y
    ensures 1000.0 <= p.age <= 5000.0
    ensures p.stroke == (5000.0 - p.age) / 4000.0
    ensures Between(p.h, Abs(CurrentHue(climate) - 5.0), Abs(CurrentHue(climate) + 5.0))
    ensures p.colorDif == CurrentHue(climate) - p.h
    ensures 75.0 <= p.s <= 100.0 && 75.0 <= p.b <= 100.0
    ensures p.color == Hsba(p.h, p.s, p.b, 100.0)
  {
    var x := Random(0.0, 1.0, d.x);
    var y := Random(0.0, 1.0, d.y);
    var age := Random(1000.0, 5000.0, d.age);
    var currentHue := CurrentHue(climate);
    var h := Random(Abs(currentHue - 5.0), Abs(currentHue + 5.0), d.hue);
    var s := Random(75.0, 100.0, d.sat);
    var b := Random(75.0, 100.0, d.bright);
    var stroke := Remap(age, 5000.0, 1000.0, 0.0, 1.0);
    Offsets(PState(x, y, x, y, 0.0, age, h, currentHue - h, s, b, Hsba(h, s, b, 100.0),
                   stroke, 0.0, 0.0, 0.0, 0.0))
  }

  /**
   * The walk amplitude for field value `eq`: `v * |eq|`, floored at
   * `minWalk` so that no particle freezes.
   */
  function Amplitude(v: real, eq: real): (amp: real)
    ensures amp == Max(v * Abs(eq), MinWalk)
  {
    if v * Abs(eq) <= MinWalk then MinWalk else v * Abs(eq)
  }

  /** The field value at the particle, with wave numbers growing away from the origin. */
  function FieldAt(t: Tunables, sin: real -> real, x: real, y: real): real {
    var mMap := Remap(Abs((Width / 4.0) * x), 0.0, Width / 2.0, 1.0, t.m);
    var nMap := Remap(Abs((Width / 4.0) * y), 0.0, Width / 2.0, 1.0, t.n);
    Chladni(sin, x, y, WaveA, WaveB, mMap, nMap)
  }

  /** The age after one step: it falls by stroke * equity, but only above the floor. */
  function DecayedAge(age: real, stroke: real, equity: real): real {
    if age > AgeFloor then age - 1.0 * stroke * equity else age
  }

  /**
   * `move` up to its call of `updateOffsets`: the previous position is
   * recorded, each coordinate moves by a draw of `random(-amp, amp)`, and
   * the age decays; no other field changes.
   */
  function Walk(p: PState, t: Tunables, sin: real -> real, w: WalkDraw): (q: PState)
    requires w.Valid()
    ensures q.amplitude >= MinWalk
    ensures q.prevX == p.x && q.prevY == p.y
    ensures Abs(q.x - p.x) <= q.amplitude && Abs(q.y - p.y) <= q.amplitude
    ensures q.age == DecayedAge(p.age, p.stroke, t.equity)
    ensures q.(x := p.x, y := p.y, prevX := p.prevX, prevY := p.prevY,
               amplitude := p.amplitude, age := p.age) == p
  {
    var amp := Amplitude(t.v, FieldAt(t, sin, p.x, p.y));
    p.(prevX := p.x, prevY := p.y, amplitude := amp,
       x := p.x + Random(-amp, amp, w.dx),
       y := p.y + Random(-amp, amp, w.dy),
       age := DecayedAge(p.age, p.stroke, t.equity))
  }

  /** `move`: one walk step followed by `updateOffsets`. */
  function Moved(p: PState, t: Tunables, sin: real -> real, w: WalkDraw): PState
    requires w.Valid()
  {
    Offsets(Walk(p, t, sin, w))
  }

  /**
   * After `move` the particle is in the unit square, remembers where it was,
   * has moved by at most its amplitude (clamping only shortens the step),
   * and its age decayed as `DecayedAge` says; stroke and colour are untouched.
   */
  lemma MoveContract(p: PState, t: Tunables, sin: real -> real, w: WalkDraw)
    requires w.Valid() && InUnitSquare(p.x, p.y)
    ensures var q := Moved(p, t, sin, w);
      && InUnitSquare(q.x, q.y)
      && q.prevX == p.x && q.prevY == p.y
      && q.amplitude >= MinWalk
      && Abs(q.x - p.x) <= q.amplitude && Abs(q.y - p.y) <= q.amplitude
      && q.age == DecayedAge(p.age, p.stroke, t.equity)
      && q.stroke == p.stroke
      && q.h == p.h && q.colorDif == p.colorDif && q.s == p.s && q.b == p.b && q.color == p.color
  {
  }

  /**
   * With a sine bounded by one and a non-negative gain, the amplitude is at
   * most max(2v, minWalk): the field value lies in [-2, 2].
   */
  lemma AmplitudeBounded(p: PState, t: Tunables, sin: real -> real, w: WalkDraw)
    requires w.Valid() && UnitSine(sin) && t.v >= 0.0
    ensures Moved(p, t, sin, w).amplitude <= Max(2.0 * t.v, MinWalk)
  {
    var mMap := Remap(Abs((Width / 4.0) * p.x), 0.0, Width / 2.0, 1.0, t.m);
    var nMap := Remap(Abs((Width / 4.0) * p.y), 0.0, Width / 2.0, 1.0, t.n);
    ChladniBounded(sin, p.x, p.y, WaveA, WaveB, mMap, nMap);
    var eq := FieldAt(t, sin, p.x, p.y);
    AmplitudeAtMostTwiceGain(t.v, eq);
    assert Moved(p, t, sin, w).amplitude == Walk(p, t, sin, w).amplitude == Amplitude(t.v, eq);
  }

  lemma AmplitudeAtMostTwiceGain(v: real, eq: real)
    requires v >= 0.0 && -2.0 <= eq <= 2.0
    ensures Amplitude(v, eq) <= Max(2.0 * v, MinWalk)
  {
    var a := Abs(eq);
    assert v * a <= v * 2.0 by {
      assert v * (2.0 - a) >= 0.0;
    }
  }

  /**
   * Age never increases while stroke and equity are non-negative, and
   * decay stops at the floor: an age above it stays above
   * floor - stroke * equity.
   */
  lemma AgeDecays(age: real, stroke: real, equity: real)
    requires stroke >= 0.0 && equity >= 0.0
    ensures DecayedAge(age, stroke, equity) <= age
    ensures age > AgeFloor ==> DecayedAge(age, stroke, equity) == age - stroke * equity
    ensures age <= AgeFloor ==> DecayedAge(age, stroke, equity) == age
  {
    assert stroke * equity >= 0.0;
  }

  /** Clamp a hue into [0, maxColor]. */
  function ClampHue(v: real): (r: real)
    ensures 0.0 <= r <= MaxColor
    ensures 0.0 <= v <= MaxColor ==> r == v
  {
    if v > MaxColor then MaxColor else if v < 0.0 then 0.0 else v
  }

  /**
   * The hue update of `show`. The first adjustment runs only when the hue is
   * above the target; the second sits in a block after an empty `else if`
   * and so runs every time, on the hue the first one left.
   */
  function UpdatedHue(h: real, uniColor: real, colorChange: real): (r: real)
    ensures 0.0 <= r <= MaxColor
  {
    var h1 := if h > uniColor then ClampHue(Abs(h - Abs(uniColor - h) + colorChange)) else h;
    ClampHue(Abs(h1 + Abs(uniColor - h1) + colorChange))
  }

  /** With no colour change the hue lands exactly on a target inside [0, maxColor]. */
  lemma HueReachesTarget(h: real, uniColor: real)
    requires 0.0 <= uniColor <= MaxColor
    ensures UpdatedHue(h, uniColor, 0.0) == uniColor
  {
  }

  /**
   * Because the second adjustment runs unconditionally, a non-negative
   * colour change reaches a hue above the target three times and a hue at
   * or below it once. A negative change (a particle spawned above the
   * climate hue) is folded back by the absolute values, so every hue lands
   * on target plus the change, once.
   */
  lemma HueChangeMultiplicity(h: real, uniColor: real, c: real)
    ensures 0.0 <= uniColor && 0.0 <= c && uniColor + c <= MaxColor && h <= uniColor ==>
      UpdatedHue(h, uniColor, c) == uniColor + c
    ensures 0.0 <= uniColor && 0.0 <= c && uniColor + 3.0 * c <= MaxColor && h > uniColor ==>
      UpdatedHue(h, uniColor, c) == uniColor + 3.0 * c
    ensures c < 0.0 && 0.0 <= uniColor + c && uniColor <= MaxColor ==>
      UpdatedHue(h, uniColor, c) == uniColor + c
  {
  }

  /** A particle whose hue is drawn above the climate hue has a negative colour offset. */
  lemma NegativeColorDifOccurs()
    ensures Spawn(5.0, SpawnDraw(0.5, 0.5, 0.5, 1.0, 0.5, 0.5)).colorDif < 0.0
  {
  }

  /**
   * The colour change per frame: the particle's own hue offset, scaled by
   * 10 at surveillance 1 down to 1 at surveillance 10.
   */
  function ColorChange(colorDif: real, surveil: real): real {
    colorDif * Remap(surveil, 1.0, 10.0, 10.0, 1.0)
  }

  /** The hue block of `show`: only the hue changes, and it ends in [0, maxColor]. */
  function Hued(p: PState, uniColor: real, colorChange: real): (q: PState)
    ensures 0.0 <= q.h <= MaxColor
    ensures q.(h := p.h) == p
  {
    p.(h := UpdatedHue(p.h, uniColor, colorChange))
  }

  /**
   * Saturation follows age (0 at age 0, 100 at age 500) and the colour is
   * rebuilt from hue, saturation and brightness; nothing else changes.
   */
  function Saturated(p: PState): (q: PState)
    ensures q.s == p.age / 5.0
    ensures q.color == Hsba(p.h, q.s, p.b, 100.0)
    ensures q.(s := p.s, color := p.color) == p
  {
    var s := Remap(p.age, 0.0, 500.0, 0.0, 100.0);
    p.(s := s, color := Hsba(p.h, s, p.b, 100.0))
  }

  /**
   * `show`'s state change: the hue drifts toward `uniColor` and is clamped
   * to [0, maxColor], saturation follows age, and the colour is rebuilt;
   * position, age and stroke are untouched.
   */
  function Shown(p: PState, t: Tunables): (q: PState)
    ensures 0.0 <= q.h <= MaxColor
    ensures q.s == p.age / 5.0
    ensures q.color == Hsba(q.h, q.s, p.b, 100.0)
    ensures q.(h := p.h, s := p.s, color := p.color) == p
  {
    Saturated(Hued(p, t.uniColor, ColorChange(p.colorDif, t.surveil)))
  }

  /** Reflection across the vertical midline of the canvas. */
  function MirrorX(m: Mark): Mark {
    match m
    case Point(x, y) => Point(Width - x, y)
    case Line(x1, y1, x2, y2) => Line(Width - x1, y1, Width - x2, y2)
  }

  /** Reflection across the horizontal midline of the canvas. */
  function MirrorY(m: Mark): Mark {
    match m
    case Point(x, y) => Point(x, Height - y)
    case Line(x1, y1, x2, y2) => Line(x1, Height - y1, x2, Height - y2)
  }

  /** The first coordinates of a mark. */
  function Anchor(m: Mark): (real, real) {
    match m
    case Point(x, y) => (x, y)
    case Line(x1, y1, _, _) => (x1, y1)
  }

  /**
   * The four symmetric marks of `show`: lines from the current to the
   * previous offsets above the surveillance threshold 8.5, points otherwise;
   * the last three are the first mirrored across one or both midlines.
   */
  function Marks(p: PState, surveil: real): (ms: seq<Mark>)
    ensures |ms| == 4
    ensures forall k :: 0 <= k < 4 ==> (ms[k].Line? <==> surveil > 8.5)
    ensures Anchor(ms[0]) == (p.xOff, p.yOff)
    ensures surveil > 8.5 ==> ms[0] == Line(p.xOff, p.yOff, p.xPrevOff, p.yPrevOff)
    ensures ms[1] == MirrorX(ms[0]) && ms[2] == MirrorY(ms[0]) && ms[3] == MirrorX(MirrorY(ms[0]))
  {
    if surveil > 8.5 then
      [Line(p.xOff, p.yOff, p.xPrevOff, p.yPrevOff),
       Line(Width - p.xOff, p.yOff, Width - p.xPrevOff, p.yPrevOff),
       Line(p.xOff, Height - p.yOff, p.xPrevOff, Height - p.yPrevOff),
       Line(Width - p.xOff, Height - p.yOff, Width - p.xPrevOff, Height - p.yPrevOff)]
    else
      [Point(p.xOff, p.yOff),
       Point(Width - p.xOff, p.yOff),
       Point(p.xOff, Height - p.yOff),
       Point(Width - p.xOff, Height - p.yOff)]
  }

  /**
   * For a well-formed particle the four marks start one in each quadrant of
   * the canvas: top-left, top-right, bottom-left, bottom-right.
   */
  lemma MarksFillQuadrants(p: PState, surveil: real)
    requires WellFormed(p)
    ensures var ms := Marks(p, surveil);
      && 0.0 <= Anchor(ms[0]).0 <= Width / 2.0 && 0.0 <= Anchor(ms[0]).1 <= Height / 2.0
      && Width / 2.0 <= Anchor(ms[1]).0 <= Width && 0.0 <= Anchor(ms[1]).1 <= Height / 2.0
      && 0.0 <= Anchor(ms[2]).0 <= Width / 2.0 && Height / 2.0 <= Anchor(ms[2]).1 <= Height
      && Width / 2.0 <= Anchor(ms[3]).0 <= Width && Height / 2.0 <= Anchor(ms[3]).1 <= Height
  {
  }

  /** `show`'s stroke weight: the table looked up at ratio stroke * equity. */
  function Weight(equity: real, stroke: real): (w: Option<int>)
    ensures w.Some? ==> w.value in Widths
  {
    StrokeWidth(equity, stroke * equity)
  }

  /** The drawing `show` emits for a particle whose hue it has just updated. */
  function Render(p: PState, t: Tunables): (c: DrawCall)
    ensures c.weight.Some? ==> c.weight.value in Widths
    ensures c.color == p.color
    ensures c.marks == Marks(p, t.surveil)
  {
    DrawCall(Weight(t.equity, p.stroke), p.color, Marks(p, t.surveil))
  }

  /** A well-formed particle always gets a stroke width while equity is at most 10. */
  lemma RenderedWidthChosen(p: PState, t: Tunables)
    requires WellFormed(p) && t.equity <= 10.0
    ensures Render(p, t).weight.Some?
    ensures Render(p, t).weight.value in Widths
  {
    WidthChosenForUnitStroke(t.equity, p.stroke);
  }

  /** One particle's turn in a frame: `move`, then `show`. */
  function Step(p: PState, t: Tunables, sin: real -> real, w: WalkDraw): PState
    requires w.Valid()
  {
    Shown(Moved(p, t, sin, w), t)
  }

  /** A frame's turn keeps a particle well-formed and its stroke fixed. */
  lemma StepPreservesWellFormed(p: PState, t: Tunables, sin: real -> real, w: WalkDraw)
    requires WellFormed(p) && w.Valid()
    ensures WellFormed(Step(p, t, sin, w))
    ensures Step(p, t, sin, w).stroke == p.stroke
  {
  }
}
