/**
 * The geometry of one render tick of the spectrum visualiser: the analyser's
 * magnitudes are read into an 11-entry byte buffer, the canvas is cleared, and
 * one bar per entry is filled, left to right, vertically centred.
 */
module BarLayout {

  /** One unsigned magnitude sample, as stored in a Uint8Array. */
  type byte = x: int | 0 <= x < 256

  /** Number of bars: the read buffer is hard-coded to this length. */
  const BufferLength: nat := 11
  /** Bar thickness as a fraction of each bar's share of the canvas width. */
  const LineThicknessScalar: real := 0.15
  /** Horizontal gap added after every bar. */
  const LineSpacing: real := 30.0

  /** The canvas as one tick sees it: its size in pixels, and whether getContext("2d") yields a context. */
  datatype Canvas = Canvas(width: nat, height: nat, has2dContext: bool)

  /** One call made on the canvas's 2d context. */
  datatype PaintOp =
    | ClearRect(left: real, top: real, width: real, height: real)
    | FillRect(style: string, x: real, y: real, w: real, h: int)

  /**
   * The read buffer after a tick: a fresh zero-filled Uint8Array of
   * BufferLength entries into which the analyser copies as many of its
   * frequency bins as fit.
   */
  function FrequencyBuffer(bins: seq<byte>): (buf: seq<byte>)
    ensures |buf| == BufferLength
    ensures |bins| >= BufferLength ==> buf == bins[..BufferLength]
    ensures |bins| < BufferLength ==> buf[..|bins|] == bins
    ensures forall i :: |bins| <= i < BufferLength ==> buf[i] == 0
  {
    seq(BufferLength, i requires 0 <= i < BufferLength => if i < |bins| then bins[i] else 0)
  }

  /** Displayed height of a bar for magnitude v: Math.floor(v / 2). */
  function BarHeight(v: byte): (h: int)
    ensures 2 * h <= v < 2 * h + 2
    ensures 0 <= h <= 127
  {
    v / 2
  }

  /** Width of every bar for a canvas of the given width. */
  function BarWidth(canvasWidth: nat): (w: real)
    ensures 0.0 <= w
    ensures w * BufferLength as real == canvasWidth as real * LineThicknessScalar
  {
    (canvasWidth as real / BufferLength as real) * LineThicknessScalar
  }

  /** Left edge of bar i: each earlier bar contributed its width plus the spacing. */
  function BarX(i: nat, barWidth: real): real
  {
    i as real * (barWidth + LineSpacing)
  }

  /** Top edge of a bar of the given height on a canvas of the given height. */
  function BarY(canvasHeight: nat, barHeight: int): (y: real)
    // the margin above the bar equals the margin below it
    ensures y == canvasHeight as real - (y + barHeight as real)
  {
    canvasHeight as real / 2.0 - barHeight as real / 2.0
  }

  /** The fillRect call for bar i with magnitude v. */
  function Bar(i: nat, c: Canvas, v: byte, style: string): PaintOp
  {
    var w := BarWidth(c.width);
    var h := BarHeight(v);
    FillRect(style, BarX(i, w), BarY(c.height, h), w, h)
  }

  /** The fillRect calls for the first n bars of the buffer, in drawing order. */
  function Bars(c: Canvas, buf: seq<byte>, style: string, n: nat): (ops: seq<PaintOp>)
    requires n <= |buf|
    ensures |ops| == n
    ensures forall i :: 0 <= i < n ==> ops[i] == Bar(i, c, buf[i], style)
  {
    if n == 0 then [] else Bars(c, buf, style, n - 1) + [Bar(n - 1, c, buf[n - 1], style)]
  }

  /** Everything one tick with a canvas and a 2d context paints, given the analyser's bins. */
  function TickPaint(c: Canvas, bins: seq<byte>, style: string): (ops: seq<PaintOp>)
    ensures |ops| == BufferLength + 1
    ensures ops[0] == ClearRect(0.0, 0.0, c.width as real, c.height as real)
    ensures forall k :: 1 <= k < |ops| ==> ops[k].FillRect?
  {
    [ClearRect(0.0, 0.0, c.width as real, c.height as real)]
      + Bars(c, FrequencyBuffer(bins), style, BufferLength)
  }

  /** Bar i of a tick is filled with height floor(buffer[i] / 2), which lies in [0, 127]. */
  lemma TickBarHeight(c: Canvas, bins: seq<byte>, style: string, i: nat)
    requires i < BufferLength
    ensures var op := TickPaint(c, bins, style)[i + 1];
      op.FillRect? && 2 * op.h <= FrequencyBuffer(bins)[i] < 2 * op.h + 2 && 0 <= op.h <= 127
  {
  }

  /** Bar i starts at i * (barWidth + 30), with barWidth = canvas.width / 11 * 0.15. */
  lemma TickBarPosition(c: Canvas, bins: seq<byte>, style: string, i: nat)
    requires i < BufferLength
    ensures var op := TickPaint(c, bins, style)[i + 1];
      op.FillRect? && op.w == BarWidth(c.width)
      && op.x == i as real * (op.w + LineSpacing)
  {
  }

  /** Every bar of a tick is centred vertically on the canvas. */
  lemma TickBarCentred(c: Canvas, bins: seq<byte>, style: string, i: nat)
    requires i < BufferLength
    ensures var op := TickPaint(c, bins, style)[i + 1];
      op.FillRect? && op.y + op.h as real / 2.0 == c.height as real / 2.0
  {
  }

  /** On a canvas at least 127 pixels high, every bar lies inside the canvas vertically. */
  lemma TickBarInsideCanvas(c: Canvas, bins: seq<byte>, style: string, i: nat)
    requires i < BufferLength
    requires 127 <= c.height
    ensures var op := TickPaint(c, bins, style)[i + 1];
      op.FillRect? && 0.0 <= op.y && op.y + op.h as real <= c.height as real
  {
  }

  /** Bars are drawn left to right and never overlap: each ends before the next begins. */
  lemma {:induction false} TickBarsDisjoint(c: Canvas, bins: seq<byte>, style: string, i: nat, j: nat)
    requires i < j < BufferLength
    ensures var ops := TickPaint(c, bins, style);
      ops[i + 1].FillRect? && ops[j + 1].FillRect?
      && ops[i + 1].x + ops[i + 1].w < ops[j + 1].x
  {
    var w := BarWidth(c.width);
    var d := (j - i) as real;
    assert 1.0 <= d;
    assert d * (w + LineSpacing) >= w + LineSpacing by {
      assert (d - 1.0) * (w + LineSpacing) >= 0.0;
    }
    assert BarX(j, w) == BarX(i, w) + d * (w + LineSpacing);
  }

  /** A resize changes the bar width on the next tick in proportion to the canvas width. */
  lemma BarWidthProportional(w1: nat, w2: nat)
    ensures BarWidth(w1) * w2 as real == BarWidth(w2) * w1 as real
  {
  }

  /** The worked example: magnitudes [0,255,128,0,255,0,...] give heights [0,127,64,0,127,0,...]. */
  lemma ExampleTick(c: Canvas, style: string)
    ensures var ops := TickPaint(c, [0, 255, 128, 0, 255, 0, 0, 0, 0, 0, 0], style);
      forall i :: 0 <= i < BufferLength ==>
        ops[i + 1].FillRect? && ops[i + 1].h == [0, 127, 64, 0, 127, 0, 0, 0, 0, 0, 0][i]
  {
    var bins: seq<byte> := [0, 255, 128, 0, 255, 0, 0, 0, 0, 0, 0];
    assert FrequencyBuffer(bins) == bins;
  }
}
