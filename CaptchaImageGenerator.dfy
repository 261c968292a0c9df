/** `CaptchaImageGenerator.GetImage(width, height, captchaCode)`: the arithmetic
    that chooses what is drawn. The pixels themselves are not modelled: the
    picture is described as a `Canvas` (glyphs, rotation, background, noise
    lines) and an opaque encoder turns that description into PNG bytes.
    The two `System.Random` instances are the streams `rand` and `random`:
    `s(k)` is the raw value behind the `k`-th draw from `s`. */
module CaptchaImageGenerator {
  import opened Wrappers
  import opened CaptchaTypes

  type Stream = nat -> nat

  /** Width of one character in the font of the given size (`TextMeasurer`). */
  type Measure = (char, int) -> nat

  /** The PNG encoding of a finished picture. */
  type Encoder = Canvas -> seq<byte>

  datatype Color = Rgb(r: int, g: int, b: int)
  datatype Point = Point(x: int, y: int)
  datatype Glyph = Glyph(ch: char, location: Point, color: Color)
  datatype Line = Line(color: Color, start: Point, end: Point)
  datatype Rotation = Rotation(degrees: int, pivot: Point)

  datatype Canvas = Canvas(
    width: int,
    height: int,
    fontSize: int,
    glyphs: seq<Glyph>,
    rotation: Rotation,
    background: Color,
    lines: seq<Line>)

  /** `Random.Next(lo, hi)` as the `k`-th draw of `s`: `lo` when the range is
      empty, otherwise a value in `[lo, hi)`. */
  function Next(s: Stream, k: nat, lo: int, hi: int): (r: int)
    requires lo <= hi
    ensures lo <= r
    ensures lo < hi ==> r < hi
    ensures lo == hi ==> r == lo
  {
    if lo == hi then lo else lo + s(k) % (hi - lo)
  }

  predicate InCanvas(p: Point, width: int, height: int) {
    0 <= p.x < width && 0 <= p.y < height
  }

  /** The channel bounds of `GetRandomDeepColor`. */
  predicate IsDeep(c: Color) {
    0 <= c.r < 160 && 0 <= c.g < 100 && 0 <= c.b < 160
  }

  predicate IsLight(c: Color) {
    180 <= c.r <= 254 && 180 <= c.g <= 254 && 180 <= c.b <= 254
  }

  /** `GetRandomDeepColor()`, drawing red, green and blue from `rand` at `k`, `k+1`, `k+2`. */
  function DeepColor(rand: Stream, k: nat): (c: Color)
    ensures IsDeep(c)
  {
    Rgb(Next(rand, k, 0, 160), Next(rand, k + 1, 0, 100), Next(rand, k + 2, 0, 160))
  }

  /** One background channel: `rand.Next(255) % 75 + 180`. */
  function LightChannel(rand: Stream, k: nat): (v: int)
    ensures 180 <= v <= 254
  {
    Next(rand, k, 0, 255) % 75 + 180
  }

  /** The background colour, drawn after the glyphs at `k`, `k+1`, `k+2`. */
  function Background(rand: Stream, k: nat): (c: Color)
    ensures IsLight(c)
  {
    Rgb(LightChannel(rand, k), LightChannel(rand, k + 1), LightChannel(rand, k + 2))
  }

  /** The text cursor before the next glyph: the summed widths of those already drawn. */
  function Cursor(measure: Measure, fontSize: int, drawn: string): nat {
    if |drawn| == 0 then 0
    else Cursor(measure, fontSize, drawn[..|drawn| - 1]) + measure(drawn[|drawn| - 1], fontSize)
  }

  /** The `j`-th glyph: five draws from `rand` (x jitter, y jitter, colour) starting at `5 * j`. */
  function GlyphAt(rand: Stream, measure: Measure, fontSize: int, code: string, j: nat): (g: Glyph)
    requires j < |code|
    ensures g.ch == code[j]
    ensures 5 <= g.location.x - Cursor(measure, fontSize, code[..j]) <= 9
    ensures 6 <= g.location.y <= 12
    ensures IsDeep(g.color)
  {
    Glyph(code[j],
          Point(Next(rand, 5 * j, 5, 10) + Cursor(measure, fontSize, code[..j]), Next(rand, 5 * j + 1, 6, 13)),
          DeepColor(rand, 5 * j + 2))
  }

  /** The rotation: pivot from `random.Next(10, width)` and `random.Next(10, height)`,
      angle from a magnitude in `[0, 9]` and a sign. */
  function RotationOf(random: Stream, width: int, height: int): (rot: Rotation)
    requires 10 <= width && 10 <= height
    ensures -9 <= rot.degrees <= 9
    ensures 10 <= rot.pivot.x && (rot.pivot.x < width || rot.pivot.x == width == 10)
    ensures 10 <= rot.pivot.y && (rot.pivot.y < height || rot.pivot.y == height == 10)
  {
    Rotation(Next(random, 2, 0, 10) * (if Next(random, 3, -10, 10) > 0 then 1 else -1),
             Point(Next(random, 0, 10, width), Next(random, 1, 10, height)))
  }

  /** A noise line whose colour and end points are drawn from `rand` at `k .. k+6`. */
  function LineAt(rand: Stream, width: int, height: int, k: nat): (l: Line)
    requires 0 < width && 0 < height
    ensures IsDeep(l.color)
    ensures InCanvas(l.start, width, height) && InCanvas(l.end, width, height)
  {
    Line(DeepColor(rand, k),
         Point(Next(rand, k + 3, 0, width), Next(rand, k + 4, 0, height)),
         Point(Next(rand, k + 5, 0, width), Next(rand, k + 6, 0, height)))
  }

  /** The noise-line loop `for (i = 0; i < rand.Next(3, 7); i++)` re-draws its bound
      before every turn. With the first test the `start`-th draw and every line
      consuming seven more, the `j`-th test passes when: */
  predicate BoundTestPasses(rand: Stream, start: nat, j: nat) {
    j < Next(rand, start + 8 * j, 3, 7)
  }

  /** The loop draws exactly `n` lines: the first `n` tests pass and the next fails. */
  predicate LineLoopStopsAt(rand: Stream, start: nat, n: nat) {
    (forall j | 0 <= j < n :: BoundTestPasses(rand, start, j)) && !BoundTestPasses(rand, start, n)
  }

  /** Whatever the draws, the loop ends with between 3 and 6 lines: it cannot stop
      before 3 since every bound is at least 3, nor run past 6 since no bound exceeds 6. */
  lemma LineCountBounds(rand: Stream, start: nat, n: nat)
    requires LineLoopStopsAt(rand, start, n)
    ensures 3 <= n <= 6
  {
    assert 6 < n ==> BoundTestPasses(rand, start, 6);
  }

  /** The draws determine the number of lines. */
  lemma LineCountUnique(rand: Stream, start: nat, n: nat, m: nat)
    requires LineLoopStopsAt(rand, start, n) && LineLoopStopsAt(rand, start, m)
    ensures n == m
  {
    assert n < m ==> BoundTestPasses(rand, start, n);
    assert m < n ==> BoundTestPasses(rand, start, m);
  }

  /** The first `n` noise lines, each after its bound test. */
  function NoiseLines(rand: Stream, width: int, height: int, start: nat, n: nat): seq<Line>
    requires 0 < width && 0 < height
  {
    seq(n, j requires 0 <= j < n => LineAt(rand, width, height, start + 8 * j + 1))
  }

  /** Every noise line is drawn in a deep colour between two points of the canvas. */
  lemma LinesInCanvas(rand: Stream, width: int, height: int, start: nat, n: nat)
    requires 0 < width && 0 < height
    ensures forall l | l in NoiseLines(rand, width, height, start, n) ::
              IsDeep(l.color) && InCanvas(l.start, width, height) && InCanvas(l.end, width, height)
  {
    var lines := NoiseLines(rand, width, height, start, n);
    forall l | l in lines
      ensures IsDeep(l.color) && InCanvas(l.start, width, height) && InCanvas(l.end, width, height)
    {
      var j :| 0 <= j < n && lines[j] == l;
      assert l == LineAt(rand, width, height, start + 8 * j + 1);
    }
  }

  /** The characters layer: the `foreach` over the code, advancing `position` by
      each measured width. */
  method DrawGlyphs(captchaCode: string, fontSize: int, rand: Stream, measure: Measure)
    returns (glyphs: seq<Glyph>)
    ensures |glyphs| == |captchaCode|
    ensures forall j :: 0 <= j < |captchaCode| ==> glyphs[j] == GlyphAt(rand, measure, fontSize, captchaCode, j)
  {
    var position: nat := 0;
    var k: nat := 0;
    glyphs := [];
    for i := 0 to |captchaCode|
      invariant k == 5 * i
      invariant position == Cursor(measure, fontSize, captchaCode[..i])
      invariant |glyphs| == i
      invariant forall j :: 0 <= j < i ==> glyphs[j] == GlyphAt(rand, measure, fontSize, captchaCode, j)
    {
      var c := captchaCode[i];
      var x := Next(rand, k, 5, 10);
      var y := Next(rand, k + 1, 6, 13);
      glyphs := glyphs + [Glyph(c, Point(x + position, y), DeepColor(rand, k + 2))];
      assert captchaCode[..i + 1][..i] == captchaCode[..i];
      position := position + measure(c, fontSize);
      k := k + 5;
    }
  }

  /** The noise lines: `for (i = 0; i < rand.Next(3, 7); i++)`, the bound being
      drawn at `start` and then after every line. */
  method DrawLines(width: int, height: int, rand: Stream, start: nat) returns (lines: seq<Line>)
    requires 0 < width && 0 < height
    ensures LineLoopStopsAt(rand, start, |lines|)
    ensures lines == NoiseLines(rand, width, height, start, |lines|)
  {
    var k := start;
    lines := [];
    var i := 0;
    while i < Next(rand, k, 3, 7)
      invariant i <= 6
      invariant k == start + 8 * i
      invariant forall j | 0 <= j < i :: BoundTestPasses(rand, start, j)
      invariant |lines| == i
      invariant forall j | 0 <= j < i :: lines[j] == LineAt(rand, width, height, start + 8 * j + 1)
      decreases 6 - i
    {
      var color := DeepColor(rand, k + 1);
      var startPoint := Point(Next(rand, k + 4, 0, width), Next(rand, k + 5, 0, height));
      var endPoint := Point(Next(rand, k + 6, 0, width), Next(rand, k + 7, 0, height));
      var line := Line(color, startPoint, endPoint);
      assert line == LineAt(rand, width, height, k + 1);
      lines := lines + [line];
      i := i + 1;
      k := k + 8;
    }
  }

  /** `GetImage(width, height, captchaCode)` with the clock reading `now`.
      The canvas constructor rejects a non-positive size, the font size divides by
      the code length, and the rotation pivot needs both sides to be at least 10. */
  method GetImage(width: int, height: int, captchaCode: string,
                  rand: Stream, random: Stream, measure: Measure, encode: Encoder, now: int)
    returns (r: Result<CaptchaResult, CaptchaError>, canvas: Canvas)
    ensures r.Success? <==> 10 <= width && 10 <= height && |captchaCode| > 0
    ensures width <= 0 || height <= 0 ==> r == Failure(ImageSizeOutOfRange)
    ensures 0 < width && 0 < height && |captchaCode| == 0 ==> r == Failure(DivideByZero)
    ensures 0 < width && 0 < height && |captchaCode| > 0 && (width < 10 || height < 10) ==>
              r == Failure(MinValueExceedsMaxValue)
    ensures r.Success? ==>
              var n := |captchaCode|;
              && r.value == CaptchaResult(captchaCode, encode(canvas), now)
              && canvas.width == width && canvas.height == height
              && canvas.fontSize == width / n
              && |canvas.glyphs| == n
              && (forall j :: 0 <= j < n ==> canvas.glyphs[j] == GlyphAt(rand, measure, width / n, captchaCode, j))
              && canvas.rotation == RotationOf(random, width, height)
              && canvas.background == Background(rand, 5 * n)
              && LineLoopStopsAt(rand, 5 * n + 3, |canvas.lines|)
              && canvas.lines == NoiseLines(rand, width, height, 5 * n + 3, |canvas.lines|)
  {
    canvas := Canvas(width, height, 0, [], Rotation(0, Point(0, 0)), Rgb(0, 0, 0), []);
    if width <= 0 || height <= 0 {
      return Failure(ImageSizeOutOfRange), canvas;
    }
    if |captchaCode| == 0 {
      return Failure(DivideByZero), canvas;
    }
    var n := |captchaCode|;
    var fontSize := width / n;
    var glyphs := DrawGlyphs(captchaCode, fontSize, rand, measure);
    if width < 10 || height < 10 {
      return Failure(MinValueExceedsMaxValue), canvas;
    }
    var pivot := Point(Next(random, 0, 10, width), Next(random, 1, 10, height));
    var degrees := Next(random, 2, 0, 10) * (if Next(random, 3, -10, 10) > 0 then 1 else -1);
    var background := Rgb(LightChannel(rand, 5 * n), LightChannel(rand, 5 * n + 1), LightChannel(rand, 5 * n + 2));
    assert Rotation(degrees, pivot) == RotationOf(random, width, height);
    assert background == Background(rand, 5 * n);
    var lines := DrawLines(width, height, rand, 5 * n + 3);
    canvas := Canvas(width, height, fontSize, glyphs, Rotation(degrees, pivot), background, lines);
    r := Success(CaptchaResult(captchaCode, encode(canvas), now));
  }

  /** Glyphs advance left to right whenever each character is at least as wide as
      the largest jitter step (5 px): the cursor moves past the previous glyph's start. */
  lemma GlyphsAdvance(rand: Stream, measure: Measure, fontSize: int, code: string, j: nat)
    requires j + 1 < |code|
    requires measure(code[j], fontSize) >= 5
    ensures GlyphAt(rand, measure, fontSize, code, j).location.x
            < GlyphAt(rand, measure, fontSize, code, j + 1).location.x
  {
    assert code[..j + 1][..j] == code[..j];
    assert Cursor(measure, fontSize, code[..j + 1]) == Cursor(measure, fontSize, code[..j]) + measure(code[j], fontSize);
  }

  /** Ink and paper never share a colour: every channel of a deep colour is darker
      than the same channel of any background. */
  lemma InkContrastsBackground(rand: Stream, ink: Color, k: nat)
    requires IsDeep(ink)
    ensures ink.r < Background(rand, k).r && ink.g < Background(rand, k).g && ink.b < Background(rand, k).b
  {
  }
}
