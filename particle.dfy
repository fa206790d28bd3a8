/**
 * The `Particle` class: its methods update its fields in place, and each is
 * proved to leave exactly the state the functions of `ParticleSpec` give.
 */
module Particles {
  import opened P5Math
  import opened Field
  import opened Controls
  import opened Stroke
  import opened ParticleSpec

  class Particle {
    var x: real
    var y: real
    var prevX: real
    var prevY: real
    var stochasticAmplitude: real
    var age: real
    var h: real
    var colorDif: real
    var s: real
    var b: real
    var color: Hsba
    var stroke: real
    var xOff: real
    var yOff: real
    var xPrevOff: real
    var yPrevOff: real

    /** The particle's fields as one value. */
    function State(): PState
      reads this
    {
      PState(x, y, prevX, prevY, stochasticAmplitude, age, h, colorDif, s, b, color,
             stroke, xOff, yOff, xPrevOff, yPrevOff)
    }

    /**
     * `new Particle(sketch)`, reading the global `climate`. The amplitude is
     * undefined in the sketch until the first `move`; here it starts at 0.
     */
    constructor (climate: real, d: SpawnDraw)
      requires d.Valid()
      ensures State() == Spawn(climate, d)
      ensures WellFormed(State())
    {
      var x0 := Random(0.0, 1.0, d.x);
      var y0 := Random(0.0, 1.0, d.y);
      var age0 := Random(1000.0, 5000.0, d.age);
      var currentHue := Remap(climate, 1.0, 10.0, 0.0, MaxColor);
      var h0 := Random(Abs(currentHue - 5.0), Abs(currentHue + 5.0), d.hue);
      var s0 := Random(75.0, 100.0, d.sat);
      var b0 := Random(75.0, 100.0, d.bright);
      x, y := x0, y0;
      prevX, prevY := x0, y0;
      stochasticAmplitude := 0.0;
      age := age0;
      h := h0;
      colorDif := currentHue - h0;
      s, b := s0, b0;
      color := Hsba(h0, s0, b0, 100.0);
      stroke := Remap(age0, 5000.0, 1000.0, 0.0, 1.0);
      new;
      UpdateOffsets();
    }

    /** `updateOffsets`: clamp to the unit square and refresh the screen offsets. */
    method UpdateOffsets()
      modifies this
      ensures State() == Offsets(old(State()))
      ensures InUnitSquare(x, y)
    {
      if x <= 0.0 { x := 0.0; }
      if x >= 1.0 { x := 1.0; }
      if y <= 0.0 { y := 0.0; }
      if y >= 1.0 { y := 1.0; }
      xOff := (Width / 2.0) * x;
      yOff := (Height / 2.0) * y;
      xPrevOff := (Width / 2.0) * prevX;
      yPrevOff := (Height / 2.0) * prevY;
    }

    /** `move`: one random-walk step scaled by the field, then age decay. */
    method Move(t: Tunables, sin: real -> real, w: WalkDraw)
      requires w.Valid()
      modifies this
      ensures State() == Moved(old(State()), t, sin, w)
      ensures prevX == old(x) && prevY == old(y)
      ensures stochasticAmplitude >= MinWalk
    {
      ghost var p0 := State();
      Stir(t, sin);
      prevX := x;
      prevY := y;
      x := x + Random(-stochasticAmplitude, stochasticAmplitude, w.dx);
      y := y + Random(-stochasticAmplitude, stochasticAmplitude, w.dy);
      Age(t.equity);
      assert State() == Walk(p0, t, sin, w);
      UpdateOffsets();
    }

    /**
     * The start of `move`: the field at the particle's position, scaled by
     * the gain and floored at the minimum walk, becomes its amplitude.
     */
    method Stir(t: Tunables, sin: real -> real)
      modifies this
      ensures State() == old(State()).(amplitude := Amplitude(t.v, FieldAt(t, sin, x, y)))
    {
      var mMap := Remap(Abs((Width / 4.0) * x), 0.0, Width / 2.0, 1.0, t.m);
      var nMap := Remap(Abs((Width / 4.0) * y), 0.0, Width / 2.0, 1.0, t.n);
      var eq := Chladni(sin, x, y, WaveA, WaveB, mMap, nMap);
      assert eq == FieldAt(t, sin, x, y);
      stochasticAmplitude := t.v * Abs(eq);
      if stochasticAmplitude <= MinWalk {
        stochasticAmplitude := MinWalk;
      }
      assert stochasticAmplitude == Amplitude(t.v, eq);
    }

    /** The age decay at the end of `move`: it stops once age reaches the floor. */
    method Age(equity: real)
      modifies this
      ensures State() == old(State()).(age := DecayedAge(old(age), stroke, equity))
    {
      if age > AgeFloor {
        age := age - 1.0 * stroke * equity;
      }
    }

    /**
     * `show`: update hue, saturation and colour, and return what it draws
     * (the stroke weight from the table, the colour, the four marks).
     */
    method Show(t: Tunables) returns (call: DrawCall)
      modifies this
      ensures State() == Shown(old(State()), t)
      ensures call == Render(State(), t)
    {
      var colorChange := ColorChange(colorDif, t.surveil);
      DriftHue(t.uniColor, colorChange);
      Saturate();
      call := Emit(t);
    }

    /**
     * The hue block of `show`, as written: the first adjustment only when
     * the hue is above the target, then a block that follows an empty
     * `else if` and therefore always runs.
     */
    method DriftHue(uniColor: real, colorChange: real)
      modifies this
      ensures State() == Hued(old(State()), uniColor, colorChange)
    {
      var hue := h;
      if hue > uniColor {
        hue := Abs(hue - Abs(uniColor - hue) + colorChange);
        if hue > MaxColor {
          hue := MaxColor;
        } else if hue < 0.0 {
          hue := 0.0;
        }
      } else if hue < uniColor {
      }
      {
        hue := Abs(hue + Abs(uniColor - hue) + colorChange);
        if hue > MaxColor {
          hue := MaxColor;
        } else if hue < 0.0 {
          hue := 0.0;
        }
      }
      h := hue;
    }

    /** Saturation from age, then the colour from hue, saturation and brightness. */
    method Saturate()
      modifies this
      ensures State() == Saturated(old(State()))
    {
      s := Remap(age, 0.0, 500.0, 0.0, 100.0);
      color := Hsba(h, s, b, 100.0);
    }

    /** The drawing half of `show`: stroke weight from the table, colour and marks. */
    method Emit(t: Tunables) returns (call: DrawCall)
      ensures call == Render(State(), t)
    {
      var particleStroke := Weight(t.equity, stroke);
      call := DrawCall(particleStroke, color, Marks(State(), t.surveil));
    }
  }
}
