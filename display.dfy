/**
 * The display helpers of the page: the dB-to-colour map of the waterfall
 * and the WebGL waterfall's row writer, which fills one RGBA row per
 * spectrum, uploads it at the current row and, when the texture is full,
 * rewinds the row counter and swaps the two textures. The GL calls
 * themselves are represented by a log of uploads.
 */
module Display {
  import opened Common

  datatype Rgb = Rgb(r: int, g: int, b: int)

  /** `DEFAULT_COLOR_MAP`: thirteen entries from dark blue through white and yellow to dark red. */
  const ColorMap: seq<Rgb> := [
    Rgb(0x00, 0x00, 0x20),
    Rgb(0x00, 0x00, 0x30),
    Rgb(0x00, 0x00, 0x50),
    Rgb(0x00, 0x00, 0x91),
    Rgb(0x1E, 0x90, 0xFF),
    Rgb(0xFF, 0xFF, 0xFF),
    Rgb(0xFF, 0xFF, 0x00),
    Rgb(0xFE, 0x6D, 0x16),
    Rgb(0xFF, 0x00, 0x00),
    Rgb(0xC6, 0x00, 0x00),
    Rgb(0x9F, 0x00, 0x00),
    Rgb(0x75, 0x00, 0x00),
    Rgb(0x4A, 0x00, 0x00)
  ]

  /** `p = max(0, min(1, (dB - minDB) / (maxDB - minDB)))`. */
  function Level(dB: real, minDB: real, maxDB: real): (p: real)
    requires maxDB != minDB
    ensures 0.0 <= p <= 1.0
    ensures var raw := (dB - minDB) / (maxDB - minDB);
      (0.0 <= raw <= 1.0 ==> p == raw) && (raw < 0.0 ==> p == 0.0) && (raw > 1.0 ==> p == 1.0)
  {
    RealMax(0.0, RealMin(1.0, (dB - minDB) / (maxDB - minDB)))
  }

  /** The two palette entries a level falls between, and their weights. */
  datatype Blend = Blend(indexBase: int, indexNext: int, weightBase: real, weightNext: real)

  /** `indexFloat = p * 12`, `indexBase = floor`, `indexNext = min(12, indexBase + 1)`, `weightNext` the fraction. */
  function BlendOf(p: real): (bl: Blend)
    requires 0.0 <= p <= 1.0
    ensures 0 <= bl.indexBase <= |ColorMap| - 1
    ensures bl.indexNext == Min(|ColorMap| - 1, bl.indexBase + 1) && bl.indexBase <= bl.indexNext < |ColorMap|
    ensures 0.0 <= bl.weightBase <= 1.0 && 0.0 <= bl.weightNext <= 1.0
    ensures bl.weightBase + bl.weightNext == 1.0
    ensures bl.indexBase as real + bl.weightNext == p * (|ColorMap| - 1) as real
  {
    var colorCount := |ColorMap|;
    var indexFloat := p * (colorCount - 1) as real;
    var indexBase := Floor(indexFloat);
    var indexNext := Min(colorCount - 1, indexBase + 1);
    var weightNext := indexFloat - indexBase as real;
    Blend(indexBase, indexNext, 1.0 - weightNext, weightNext)
  }

  /** `Math.round(c1 * weightBase + c2 * weightNext)` for one channel. */
  function Channel(c1: int, c2: int, weightBase: real, weightNext: real): (c: int)
    requires 0.0 <= weightBase && 0.0 <= weightNext && weightBase + weightNext == 1.0
    ensures Min(c1, c2) <= c <= Max(c1, c2)
    ensures weightNext == 0.0 ==> c == c1
  {
    var x := c1 as real * weightBase + c2 as real * weightNext;
    RoundBetween(c1, c2, weightBase, weightNext);
    Round(x)
  }

  lemma RoundBetween(c1: int, c2: int, wb: real, wn: real)
    requires 0.0 <= wb && 0.0 <= wn && wb + wn == 1.0
    ensures var x := c1 as real * wb + c2 as real * wn;
      Min(c1, c2) <= Round(x) <= Max(c1, c2)
  {
    var x := c1 as real * wb + c2 as real * wn;
    var lo := Min(c1, c2);
    var hi := Max(c1, c2);
    assert lo as real <= x <= hi as real by {
      assert x == c1 as real + (c2 - c1) as real * wn;
      assert 0.0 <= wn <= 1.0;
      if c1 <= c2 {
        assert 0.0 <= (c2 - c1) as real * wn <= (c2 - c1) as real;
      } else {
        assert (c2 - c1) as real <= (c2 - c1) as real * wn <= 0.0;
      }
    }
    assert (lo as real + 0.5).Floor == lo;
    assert (hi as real + 0.5).Floor == hi;
  }

  /** `convertDecibelToRGB(dB, minDB, maxDB)`. */
  function ConvertDecibelToRGB(dB: real, minDB: real, maxDB: real): (c: Rgb)
    requires maxDB != minDB
    ensures var bl := BlendOf(Level(dB, minDB, maxDB));
      && Between(ColorMap[bl.indexBase], ColorMap[bl.indexNext], c)
  {
    var bl := BlendOf(Level(dB, minDB, maxDB));
    var c1 := ColorMap[bl.indexBase];
    var c2 := ColorMap[bl.indexNext];
    Rgb(Channel(c1.r, c2.r, bl.weightBase, bl.weightNext),
        Channel(c1.g, c2.g, bl.weightBase, bl.weightNext),
        Channel(c1.b, c2.b, bl.weightBase, bl.weightNext))
  }

  /** Each channel of `c` lies between the corresponding channels of `c1` and `c2`. */
  predicate Between(c1: Rgb, c2: Rgb, c: Rgb)
  {
    && Min(c1.r, c2.r) <= c.r <= Max(c1.r, c2.r)
    && Min(c1.g, c2.g) <= c.g <= Max(c1.g, c2.g)
    && Min(c1.b, c2.b) <= c.b <= Max(c1.b, c2.b)
  }

  /** Every colour produced is a valid 8-bit RGB triple. */
  lemma ColourBytes(dB: real, minDB: real, maxDB: real)
    requires maxDB != minDB
    ensures var c := ConvertDecibelToRGB(dB, minDB, maxDB);
      0 <= c.r < 256 && 0 <= c.g < 256 && 0 <= c.b < 256
  {
    var bl := BlendOf(Level(dB, minDB, maxDB));
    assert forall i :: 0 <= i < |ColorMap| ==>
      0 <= ColorMap[i].r < 256 && 0 <= ColorMap[i].g < 256 && 0 <= ColorMap[i].b < 256;
  }

  /** At or below the floor of the range the colour is the first palette entry. */
  lemma BelowRangeIsFirstColour(dB: real, minDB: real, maxDB: real)
    requires minDB < maxDB && dB <= minDB
    ensures ConvertDecibelToRGB(dB, minDB, maxDB) == Rgb(0x00, 0x00, 0x20)
  {
    assert (dB - minDB) / (maxDB - minDB) <= 0.0;
    assert Level(dB, minDB, maxDB) == 0.0;
    assert BlendOf(0.0).indexBase == 0;
  }

  /** At or above the top of the range the colour is the last palette entry. */
  lemma AboveRangeIsLastColour(dB: real, minDB: real, maxDB: real)
    requires minDB < maxDB && dB >= maxDB
    ensures ConvertDecibelToRGB(dB, minDB, maxDB) == Rgb(0x4A, 0x00, 0x00)
  {
    assert (dB - minDB) / (maxDB - minDB) >= 1.0;
    assert Level(dB, minDB, maxDB) == 1.0;
    assert BlendOf(1.0).indexBase == 12;
  }

  /** One `texSubImage2D` call: which texture, which row, which bytes. */
  datatype Upload = Upload(texture: nat, row: nat, bytes: seq<int>)

  class WaterfallGL {
    const bandSize: nat
    const historySize: nat
    const data: array<int>
    var minDB: real
    var maxDB: real
    var current: nat
    /** `this.textures`; entry 0 is the texture being written. */
    var textures: seq<nat>
    var uploads: seq<Upload>

    ghost predicate Valid()
      reads this
    {
      && data.Length == 4 * bandSize
      && historySize > 0
      && current < historySize
      && |textures| == 2
    }

    /** `new WaterfallGL(canvas, bandSize, historySize)`: range -70..0 dB, row 0, textures 0 and 1. */
    constructor (bandSize: nat, historySize: nat)
      requires historySize > 0
      ensures Valid() && fresh(data)
      ensures this.bandSize == bandSize && this.historySize == historySize
      ensures minDB == -70.0 && maxDB == 0.0 && current == 0 && textures == [0, 1] && uploads == []
    {
      this.bandSize := bandSize;
      this.historySize := historySize;
      data := new int[4 * bandSize](_ => 0);
      minDB := -70.0;
      maxDB := 0.0;
      current := 0;
      textures := [0, 1];
      uploads := [];
    }

    method SetRange(minDB: real, maxDB: real)
      requires Valid()
      modifies this
      ensures Valid() && this.minDB == minDB && this.maxDB == maxDB
      ensures current == old(current) && textures == old(textures) && uploads == old(uploads)
    {
      this.minDB := minDB;
      this.maxDB := maxDB;
    }

    /** The loop of `renderLine`: four bytes per bin, alpha 255. */
    method FillRow(line: seq<real>)
      requires Valid() && |line| >= bandSize && maxDB != minDB
      modifies data
      ensures forall i :: 0 <= i < bandSize ==>
        var c := ConvertDecibelToRGB(line[i], minDB, maxDB);
        data[4 * i] == c.r && data[4 * i + 1] == c.g && data[4 * i + 2] == c.b && data[4 * i + 3] == 255
    {
      var i := 0;
      while i < bandSize
        invariant 0 <= i <= bandSize
        invariant forall j :: 0 <= j < i ==>
          var c := ConvertDecibelToRGB(line[j], minDB, maxDB);
          data[4 * j] == c.r && data[4 * j + 1] == c.g && data[4 * j + 2] == c.b && data[4 * j + 3] == 255
      {
        var n := i * 4;
        var rgb := ConvertDecibelToRGB(line[i], minDB, maxDB);
        data[n + 0] := rgb.r;
        data[n + 1] := rgb.g;
        data[n + 2] := rgb.b;
        data[n + 3] := 255;
        i := i + 1;
      }
    }

    /**
     * `renderLine(array)`: fill the row, upload it at row `current` of
     * `textures[0]`, advance the row, and on reaching `historySize` rewind
     * to 0 and rotate `[A, B]` to `[B, A]`.
     */
    method RenderLine(line: seq<real>)
      requires Valid() && |line| >= bandSize && maxDB != minDB
      modifies this, data
      ensures Valid()
      ensures minDB == old(minDB) && maxDB == old(maxDB)
      ensures forall i :: 0 <= i < bandSize ==>
        var c := ConvertDecibelToRGB(line[i], minDB, maxDB);
        data[4 * i] == c.r && data[4 * i + 1] == c.g && data[4 * i + 2] == c.b && data[4 * i + 3] == 255
      ensures uploads == old(uploads) + [Upload(old(textures)[0], old(current), data[..])]
      ensures old(current) + 1 < historySize ==> current == old(current) + 1 && textures == old(textures)
      ensures old(current) + 1 == historySize ==> current == 0 && textures == [old(textures)[1], old(textures)[0]]
    {
      FillRow(line);
      uploads := uploads + [Upload(textures[0], current, data[..])];
      current := current + 1;
      if current >= historySize {
        current := 0;
        textures := textures[1..] + [textures[0]];
      }
    }
  }
}
