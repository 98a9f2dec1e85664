/** The animated star field of src/components/StarField.tsx: the stars created
    for a canvas size, the per-frame drift that recycles stars from the bottom
    of the canvas to the top, the twinkle applied to each star's opacity and the
    faint lines joining nearby stars.

    `Math.random()` draws are given by the caller as a sequence of reals in
    [0, 1); `Math.sin` values are given as reals in [-1, 1]. Canvas sizes are
    whole pixels. */
module StarField {

  /** One star. `opacity` is the base opacity; the drawn opacity is derived
      from it every frame. */
  datatype Star = Star(
    x: real,
    y: real,
    size: real,
    opacity: real,
    speed: real,
    twinkleSpeed: real,
    twinkleOffset: real)

  /** `Math.PI` as a double. */
  const Pi: real := 3.141592653589793

  /** Canvas area, in square pixels, per star. */
  const AreaPerStar: nat := 4000

  /** Only the first this many stars take part in constellation lines. */
  const LinkedStars: nat := 20

  /** A value `Math.random()` can return. */
  predicate IsDraw(r: real) {
    0.0 <= r < 1.0
  }

  predicate AllDraws(rs: seq<real>) {
    forall k :: 0 <= k < |rs| ==> IsDraw(rs[k])
  }

  /** A value `Math.sin` can return. */
  predicate IsSine(v: real) {
    -1.0 <= v <= 1.0
  }

  predicate AllSines(vs: seq<real>) {
    forall k :: 0 <= k < |vs| ==> IsSine(vs[k])
  }

  function Min(a: int, b: int): (m: int) {
    if a <= b then a else b
  }

  // ---------------------------------------------------------------------------
  // Creating the stars (`initStars`)
  // ---------------------------------------------------------------------------

  /** `Math.floor(width * height / 4000)`. */
  function StarCount(width: nat, height: nat): (n: nat)
    ensures n * AreaPerStar <= width * height < (n + 1) * AreaPerStar
    ensures n > 0 ==> width > 0 && height > 0
  {
    width * height / AreaPerStar
  }

  /** 800 x 600 holds 120 stars and doubling both sides quadruples that. */
  lemma StarCountExamples()
    ensures StarCount(800, 600) == 120
    ensures StarCount(1600, 1200) == 480 == 4 * StarCount(800, 600)
  {
  }

  /** `r * scale` for a draw `r` lies in `[0, scale)`. */
  lemma ScaledDraw(r: real, scale: real)
    requires IsDraw(r) && scale > 0.0
    ensures 0.0 <= r * scale < scale
  {
  }

  /** The star created from seven consecutive draws, in the order the object
      literal in `initStars` calls `Math.random()`. */
  function NewStar(d: seq<real>, width: nat, height: nat): (s: Star)
    requires |d| == 7 && AllDraws(d)
    ensures width > 0 ==> 0.0 <= s.x < width as real
    ensures height > 0 ==> 0.0 <= s.y < height as real
    ensures 0.5 <= s.size < 2.5
    ensures 0.2 <= s.opacity < 1.0
    ensures 0.005 <= s.speed < 0.025
    ensures 0.01 <= s.twinkleSpeed < 0.03
    ensures 0.0 <= s.twinkleOffset < 2.0 * Pi
  {
    assert width > 0 ==> 0.0 <= d[0] * width as real < width as real by {
      if width > 0 {
        ScaledDraw(d[0], width as real);
      }
    }
    assert height > 0 ==> 0.0 <= d[1] * height as real < height as real by {
      if height > 0 {
        ScaledDraw(d[1], height as real);
      }
    }
    Star(
      d[0] * width as real,
      d[1] * height as real,
      d[2] * 2.0 + 0.5,
      d[3] * 0.8 + 0.2,
      d[4] * 0.02 + 0.005,
      d[5] * 0.02 + 0.01,
      d[6] * Pi * 2.0)
  }

  /** Where a star may be between frames: across the canvas horizontally,
      between 10 pixels above the top and 10 pixels below the bottom, never
      drifting upward, with a base opacity that is not negative. */
  predicate InView(s: Star, width: nat, height: nat) {
    0.0 <= s.x < width as real && -10.0 <= s.y <= height as real + 10.0 &&
    0.0 <= s.speed && 0.0 <= s.opacity
  }

  predicate AllInView(stars: seq<Star>, width: nat, height: nat) {
    forall k :: 0 <= k < |stars| ==> InView(stars[k], width, height)
  }

  /** The whole star array `initStars` builds: star `j` is made from draws
      `7 * j` to `7 * j + 6`. Nothing of any previous array is kept. */
  function Spawn(draws: seq<real>, width: nat, height: nat): (stars: seq<Star>)
    requires |draws| >= 7 * StarCount(width, height) && AllDraws(draws)
    ensures |stars| == StarCount(width, height)
    ensures AllInView(stars, width, height)
  {
    var n := StarCount(width, height);
    seq(n, j requires 0 <= j < n => NewStar(draws[7 * j .. 7 * j + 7], width, height))
  }

  // ---------------------------------------------------------------------------
  // Per-frame drift (the `forEach` in `animate`)
  // ---------------------------------------------------------------------------

  /** The star has drifted more than 10 pixels past the bottom edge. */
  predicate Wraps(s: Star, height: nat) {
    s.y + s.speed > height as real + 10.0
  }

  /** One star after one frame; `draw` is the `Math.random()` value used for
      the new `x` if it wraps. */
  function Drift(s: Star, width: nat, height: nat, draw: real): (t: Star)
    ensures t.size == s.size && t.opacity == s.opacity && t.speed == s.speed
    ensures t.twinkleSpeed == s.twinkleSpeed && t.twinkleOffset == s.twinkleOffset
    ensures Wraps(s, height) ==> t.y == -10.0 && t.x == draw * width as real
    ensures !Wraps(s, height) ==> t.y == s.y + s.speed && t.x == s.x
  {
    if Wraps(s, height) then s.(y := -10.0, x := draw * width as real)
    else s.(y := s.y + s.speed)
  }

  /** How many of `stars` wrap this frame, so how many draws the frame uses. */
  function WrapCount(stars: seq<Star>, height: nat): (c: nat)
    ensures c <= |stars|
  {
    if stars == [] then 0
    else WrapCount(stars[..|stars| - 1], height) + (if Wraps(stars[|stars| - 1], height) then 1 else 0)
  }

  /** The star array after one frame. The stars are visited in order and each
      star that wraps takes the next unused draw. */
  function Frame(stars: seq<Star>, width: nat, height: nat, draws: seq<real>): (next: seq<Star>)
    requires |stars| <= |draws|
    ensures |next| == |stars|
  {
    if stars == [] then []
    else
      var n := |stars| - 1;
      Frame(stars[..n], width, height, draws) + [Drift(stars[n], width, height, draws[WrapCount(stars[..n], height)])]
  }

  /** Star `k` after a frame depends only on star `k` and on how many stars
      before it wrapped. */
  lemma {:induction false} FrameAt(stars: seq<Star>, width: nat, height: nat, draws: seq<real>, k: nat)
    requires |stars| <= |draws| && k < |stars|
    ensures WrapCount(stars[..k], height) < |draws|
    ensures Frame(stars, width, height, draws)[k] == Drift(stars[k], width, height, draws[WrapCount(stars[..k], height)])
  {
    var n := |stars| - 1;
    if k < n {
      assert stars[..n][..k] == stars[..k];
      FrameAt(stars[..n], width, height, draws, k);
    }
  }

  /** `t` is what one frame makes of `s`: `size`, `opacity`, `speed`,
      `twinkleSpeed` and `twinkleOffset` are kept; `y` advances by `speed`
      unless that passes 10 pixels below the bottom, in which case the star
      moves to 10 pixels above the top with a fresh `x` across the canvas, the
      only case in which `x` changes. */
  predicate DriftedFrom(t: Star, s: Star, width: nat, height: nat) {
    t.size == s.size && t.opacity == s.opacity && t.speed == s.speed &&
    t.twinkleSpeed == s.twinkleSpeed && t.twinkleOffset == s.twinkleOffset &&
    if s.y + s.speed > height as real + 10.0
    then t.y == -10.0 && 0.0 <= t.x && (width > 0 ==> t.x < width as real)
    else t.y == s.y + s.speed && t.x == s.x
  }

  /** One star's drift, given the draw it takes if it wraps. */
  lemma DriftEffect(s: Star, width: nat, height: nat, r: real)
    requires IsDraw(r)
    ensures DriftedFrom(Drift(s, width, height, r), s, width, height)
  {
    if width > 0 {
      ScaledDraw(r, width as real);
    }
  }

  /** What a frame does to each star: it keeps the number and the order of the
      stars and moves each one as `DriftedFrom` says. */
  lemma FrameEffect(stars: seq<Star>, width: nat, height: nat, draws: seq<real>)
    requires |stars| <= |draws| && AllDraws(draws)
    ensures |Frame(stars, width, height, draws)| == |stars|
    ensures forall k :: 0 <= k < |stars| ==> DriftedFrom(Frame(stars, width, height, draws)[k], stars[k], width, height)
  {
    forall k | 0 <= k < |stars|
      ensures DriftedFrom(Frame(stars, width, height, draws)[k], stars[k], width, height)
    {
      FrameAt(stars, width, height, draws, k);
      DriftEffect(stars[k], width, height, draws[WrapCount(stars[..k], height)]);
    }
  }

  /** Stars that drift downward stay in view: every frame keeps each star
      between 10 pixels above the top and 10 pixels below the bottom. */
  lemma FrameKeepsInView(stars: seq<Star>, width: nat, height: nat, draws: seq<real>)
    requires |stars| <= |draws| && AllDraws(draws)
    requires AllInView(stars, width, height)
    ensures AllInView(Frame(stars, width, height, draws), width, height)
  {
    FrameEffect(stars, width, height, draws);
    forall k | 0 <= k < |stars|
      ensures InView(Frame(stars, width, height, draws)[k], width, height)
    {
      assert InView(stars[k], width, height);
      assert DriftedFrom(Frame(stars, width, height, draws)[k], stars[k], width, height);
    }
  }

  /** The body of the per-star loop of `animate`: the star falls by its
      speed and, once more than 10 pixels below the bottom, restarts 10
      pixels above the top at `draws[used]` across the canvas, taking that
      draw. */
  method DriftStar(s: Star, width: nat, height: nat, draws: seq<real>, used: nat) returns (t: Star, next: nat)
    requires used < |draws|
    ensures t == Drift(s, width, height, draws[used])
    ensures next == used + if Wraps(s, height) then 1 else 0
  {
    t, next := s, used;
    var y := s.y + s.speed;
    if y > height as real + 10.0 {
      t := t.(y := -10.0, x := draws[used] * width as real);
      next := next + 1;
    } else {
      t := t.(y := y);
    }
  }

  /** Overwriting the first element after a prefix. */
  lemma ReplaceFirst<T>(done: seq<T>, rest: seq<T>, x: T)
    requires |rest| > 0
    ensures (done + rest)[|done| := x] == (done + [x]) + rest[1..]
  {
  }

  /** Extending the stars by one extends the frame by that star drifted. */
  lemma FrameSnoc(stars: seq<Star>, width: nat, height: nat, draws: seq<real>, i: nat)
    requires i < |stars| <= |draws|
    ensures WrapCount(stars[..i], height) < |draws|
    ensures Frame(stars[..i + 1], width, height, draws) ==
            Frame(stars[..i], width, height, draws) + [Drift(stars[i], width, height, draws[WrapCount(stars[..i], height)])]
    ensures WrapCount(stars[..i + 1], height) == WrapCount(stars[..i], height) + if Wraps(stars[i], height) then 1 else 0
  {
    assert stars[..i + 1][..i] == stars[..i] && stars[..i + 1][i] == stars[i];
  }

  // ---------------------------------------------------------------------------
  // Twinkle (`drawStar`) and constellation lines (`drawConstellationLines`)
  // ---------------------------------------------------------------------------

  /** `Math.sin(...) * 0.3 + 0.7`, the twinkle factor for a sine value. */
  function Twinkle(sine: real): (t: real)
    requires IsSine(sine)
    ensures 0.4 <= t <= 1.0
  {
    sine * 0.3 + 0.7
  }

  /** `currentOpacity`: the opacity a star is drawn with, given the sine of
      `time * twinkleSpeed + twinkleOffset`. It never exceeds the star's base
      opacity and never falls below 0.4 of it. */
  function DrawnOpacity(s: Star, sine: real): (o: real)
    requires IsSine(sine)
    ensures 0.0 <= s.opacity ==> 0.4 * s.opacity <= o <= s.opacity
  {
    var t := Twinkle(sine);
    assert 0.0 <= s.opacity ==> 0.4 * s.opacity <= s.opacity * t <= s.opacity by {
      if 0.0 <= s.opacity {
        ScaleBetween(s.opacity, t);
      }
    }
    s.opacity * t
  }

  /** The opacities of a row of stars, each with its own sine. */
  function Opacities(stars: seq<Star>, sines: seq<real>): (o: seq<real>)
    requires |stars| <= |sines| && AllSines(sines)
    ensures |o| == |stars|
  {
    if stars == [] then []
    else Opacities(stars[..|stars| - 1], sines) + [DrawnOpacity(stars[|stars| - 1], sines[|stars| - 1])]
  }

  lemma OpacitiesSnoc(stars: seq<Star>, sines: seq<real>, s: Star)
    requires |stars| < |sines| && AllSines(sines)
    ensures Opacities(stars + [s], sines) == Opacities(stars, sines) + [DrawnOpacity(s, sines[|stars|])]
  {
    assert (stars + [s])[..|stars|] == stars;
  }

  /** Star `k` is drawn with its own twinkle, so with a non-negative base
      opacity it is drawn between 0.4 times and 1 times that opacity. */
  lemma {:induction false} OpacitiesAt(stars: seq<Star>, sines: seq<real>)
    requires |stars| <= |sines| && AllSines(sines)
    ensures forall k :: 0 <= k < |stars| ==> Opacities(stars, sines)[k] == DrawnOpacity(stars[k], sines[k])
    ensures forall k :: 0 <= k < |stars| && 0.0 <= stars[k].opacity ==>
              0.4 * stars[k].opacity <= Opacities(stars, sines)[k] <= stars[k].opacity
    decreases |stars|
  {
    if stars != [] {
      var n := |stars| - 1;
      OpacitiesAt(stars[..n], sines);
      assert forall k :: 0 <= k < n ==> stars[..n][k] == stars[k];
    }
  }

  lemma ScaleBetween(o: real, t: real)
    requires 0.0 <= o && 0.4 <= t <= 1.0
    ensures 0.4 * o <= o * t <= o
  {
  }

  /** `0.03 + pulse * 0.02` with `pulse = Math.sin(...) * 0.5 + 0.5`: the alpha
      of a constellation line. */
  function PulseAlpha(sine: real): (alpha: real)
    requires IsSine(sine)
    ensures 0.03 <= alpha <= 0.05
  {
    0.03 + (sine * 0.5 + 0.5) * 0.02
  }

  /** `Math.sqrt(dx * dx + dy * dy) < 200`, compared without the square root. */
  predicate Close(a: Star, b: Star) {
    (a.x - b.x) * (a.x - b.x) + (a.y - b.y) * (a.y - b.y) < 200.0 * 200.0
  }

  /** Star `i` is joined to star `i + 1`: both are among the first 20 and
      they are less than 200 pixels apart. */
  predicate Linked(stars: seq<Star>, i: int) {
    0 <= i && i + 1 < Min(LinkedStars, |stars|) && Close(stars[i], stars[i + 1])
  }

  /** A line from star `from` to star `from + 1`, drawn with `alpha`. */
  datatype Segment = Segment(from: nat, alpha: real)

  /** The lines for the pairs `(j, j + 1)` with `j < i`, in order. */
  function Lines(stars: seq<Star>, pulseSines: seq<real>, i: nat): (segments: seq<Segment>)
    requires i <= |pulseSines| && AllSines(pulseSines)
    ensures |segments| <= i
  {
    if i == 0 then []
    else Lines(stars, pulseSines, i - 1) +
         (if Linked(stars, i - 1) then [Segment(i - 1, PulseAlpha(pulseSines[i - 1]))] else [])
  }

  /** The lines for the pairs before `i` are linked pairs before `i`, at
      most one per pair, each with its pulse alpha. */
  lemma {:induction false} LinesSound(stars: seq<Star>, pulseSines: seq<real>, i: nat)
    requires i <= |pulseSines| && AllSines(pulseSines)
    ensures |Lines(stars, pulseSines, i)| <= i
    ensures forall k :: 0 <= k < |Lines(stars, pulseSines, i)| ==>
              var seg := Lines(stars, pulseSines, i)[k];
              seg.from < i && Linked(stars, seg.from) && seg.alpha == PulseAlpha(pulseSines[seg.from])
  {
    if i > 0 {
      LinesSound(stars, pulseSines, i - 1);
    }
  }

  /** The lines for the pairs before `i` come in index order. */
  lemma {:induction false} LinesSorted(stars: seq<Star>, pulseSines: seq<real>, i: nat)
    requires i <= |pulseSines| && AllSines(pulseSines)
    ensures forall k, l :: 0 <= k < l < |Lines(stars, pulseSines, i)| ==>
              Lines(stars, pulseSines, i)[k].from < Lines(stars, pulseSines, i)[l].from
  {
    if i > 0 {
      LinesSorted(stars, pulseSines, i - 1);
      LinesSound(stars, pulseSines, i - 1);
    }
  }

  /** Some segment of `segments` starts at star `j`. */
  predicate HasLine(segments: seq<Segment>, j: int) {
    exists k :: 0 <= k < |segments| && segments[k].from == j
  }

  /** Every linked pair before `i` has its line. */
  lemma {:induction false} LinesComplete(stars: seq<Star>, pulseSines: seq<real>, i: nat)
    requires i <= |pulseSines| && AllSines(pulseSines)
    ensures forall j :: 0 <= j < i && Linked(stars, j) ==> HasLine(Lines(stars, pulseSines, i), j)
  {
    if i > 0 {
      LinesComplete(stars, pulseSines, i - 1);
      var prev := Lines(stars, pulseSines, i - 1);
      var here := Lines(stars, pulseSines, i);
      assert here == prev + (if Linked(stars, i - 1) then [Segment(i - 1, PulseAlpha(pulseSines[i - 1]))] else []);
      forall j | 0 <= j < i && Linked(stars, j)
        ensures HasLine(here, j)
      {
        if j == i - 1 {
          assert here[|here| - 1].from == j;
        } else {
          assert HasLine(prev, j);
          var k :| 0 <= k < |prev| && prev[k].from == j;
          assert here[k].from == j;
        }
      }
    }
  }

  /** The lines `drawConstellationLines` strokes, in drawing order.
      `pulseSines[i]` is the sine of `time * 0.001 + i`. */
  method ConstellationLines(stars: seq<Star>, pulseSines: seq<real>) returns (segments: seq<Segment>)
    requires |pulseSines| >= LinkedStars && AllSines(pulseSines)
    ensures |segments| < LinkedStars
    ensures forall k :: 0 <= k < |segments| ==>
              Linked(stars, segments[k].from) && segments[k].alpha == PulseAlpha(pulseSines[segments[k].from])
    ensures forall k, l :: 0 <= k < l < |segments| ==> segments[k].from < segments[l].from
    ensures forall i :: Linked(stars, i) ==> HasLine(segments, i)
  {
    var linked := stars[..Min(LinkedStars, |stars|)];
    segments := [];
    var i := 0;
    while i < |linked| - 1
      invariant 0 <= i < LinkedStars
      invariant |linked| > 0 ==> i <= |linked| - 1
      invariant segments == Lines(stars, pulseSines, i)
    {
      assert linked[i] == stars[i] && linked[i + 1] == stars[i + 1];
      var dx := linked[i].x - linked[i + 1].x;
      var dy := linked[i].y - linked[i + 1].y;
      if dx * dx + dy * dy < 200.0 * 200.0 {
        var pulse := pulseSines[i] * 0.5 + 0.5;
        segments := segments + [Segment(i, 0.03 + pulse * 0.02)];
      }
      i := i + 1;
    }
    LinesSound(stars, pulseSines, i);
    LinesSorted(stars, pulseSines, i);
    LinesComplete(stars, pulseSines, i);
  }

  // ---------------------------------------------------------------------------
  // The component
  // ---------------------------------------------------------------------------

  /** The canvas and `starsRef.current`. */
  class Field {
    var width: nat
    var height: nat
    var stars: array<Star>

    /** Every star is where a frame may leave it. */
    ghost predicate Valid()
      reads this, stars
    {
      AllInView(stars[..], width, height)
    }

    /** Mounting: `resizeCanvas()` at the window's size. */
    constructor (width: nat, height: nat, draws: seq<real>)
      requires |draws| >= 7 * StarCount(width, height) && AllDraws(draws)
      ensures Valid() && fresh(stars)
      ensures this.width == width && this.height == height
      ensures stars[..] == Spawn(draws, width, height)
    {
      this.width := width;
      this.height := height;
      var n := StarCount(width, height);
      stars := new Star[n](j requires 0 <= j < n => NewStar(draws[7 * j .. 7 * j + 7], width, height));
      new;
      assert stars[..] == Spawn(draws, width, height);
    }

    /** `resizeCanvas`: the canvas takes the window's size and the stars are
        created anew for it. */
    method Resize(width: nat, height: nat, draws: seq<real>)
      requires |draws| >= 7 * StarCount(width, height) && AllDraws(draws)
      modifies this
      ensures Valid() && fresh(stars)
      ensures this.width == width && this.height == height
      ensures stars[..] == Spawn(draws, width, height)
    {
      this.width := width;
      this.height := height;
      InitStars(draws);
    }

    /** `initStars`: a new array of `floor(width * height / 4000)` stars
        replaces the old one. */
    method InitStars(draws: seq<real>)
      requires |draws| >= 7 * StarCount(width, height) && AllDraws(draws)
      modifies this`stars
      ensures Valid() && fresh(stars)
      ensures stars.Length == StarCount(width, height)
      ensures stars[..] == Spawn(draws, width, height)
    {
      var w, h := width, height;
      var n := StarCount(w, h);
      stars := new Star[n](j requires 0 <= j < n => NewStar(draws[7 * j .. 7 * j + 7], w, h));
      assert stars[..] == Spawn(draws, w, h);
    }

    /** The per-star loop of `animate`: each star drifts (taking a new draw
        when it wraps) and is then drawn with its twinkling opacity.
        `twinkleSines[i]` is the sine of `time * twinkleSpeed + twinkleOffset`
        for star `i`. Returns the drawn opacities and the number of draws used. */
    method Advance(draws: seq<real>, twinkleSines: seq<real>) returns (drawn: seq<real>, used: nat)
      requires Valid()
      requires |draws| >= stars.Length && AllDraws(draws)
      requires |twinkleSines| >= stars.Length && AllSines(twinkleSines)
      modifies stars
      ensures Valid()
      ensures stars[..] == Frame(old(stars[..]), width, height, draws)
      ensures used == WrapCount(old(stars[..]), height)
      ensures |drawn| == stars.Length
      ensures drawn == Opacities(stars[..], twinkleSines)
    {
      ghost var before := stars[..];
      ghost var done: seq<Star> := [];
      drawn, used := [], 0;
      var i := 0;
      while i < stars.Length
        invariant 0 <= i <= stars.Length
        invariant used == WrapCount(before[..i], height)
        invariant done == Frame(before[..i], width, height, draws)
        invariant stars[..] == done + before[i..]
        invariant |drawn| == i
        invariant drawn == Opacities(done, twinkleSines)
      {
        FrameSnoc(before, width, height, draws, i);
        assert stars[i] == before[i];
        var star;
        star, used := DriftStar(stars[i], width, height, draws, used);
        stars[i] := star;
        drawn := drawn + [DrawnOpacity(star, twinkleSines[i])];
        ReplaceFirst(done, before[i..], star);
        OpacitiesSnoc(done, twinkleSines, star);
        done := done + [star];
        i := i + 1;
      }
      assert before[..stars.Length] == before;
      FrameKeepsInView(before, width, height, draws);
    }

    /** One call of `animate`: the constellation lines are chosen from the
        stars as the frame finds them, then every star drifts and is drawn.
        The background and nebula fills draw nothing that is modelled. */
    method Animate(draws: seq<real>, pulseSines: seq<real>, twinkleSines: seq<real>)
      returns (segments: seq<Segment>, drawn: seq<real>, used: nat)
      requires Valid()
      requires |draws| >= stars.Length && AllDraws(draws)
      requires |pulseSines| >= LinkedStars && AllSines(pulseSines)
      requires |twinkleSines| >= stars.Length && AllSines(twinkleSines)
      modifies stars
      ensures Valid()
      ensures stars[..] == Frame(old(stars[..]), width, height, draws)
      ensures used == WrapCount(old(stars[..]), height)
      ensures |segments| < LinkedStars
      ensures forall k :: 0 <= k < |segments| ==>
                Linked(old(stars[..]), segments[k].from) &&
                segments[k].alpha == PulseAlpha(pulseSines[segments[k].from])
      ensures forall k, l :: 0 <= k < l < |segments| ==> segments[k].from < segments[l].from
      ensures forall i :: Linked(old(stars[..]), i) ==> HasLine(segments, i)
      ensures |drawn| == stars.Length
      ensures drawn == Opacities(stars[..], twinkleSines)
    {
      segments := ConstellationLines(stars[..], pulseSines);
      drawn, used := Advance(draws, twinkleSines);
    }
  }
}
