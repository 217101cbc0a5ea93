/** The configuration object: the defaults the constructor and resetToDefaults
    install, and the random preset. randomPreset reads six Math.random draws in
    this order: palette, pointCount, maxDistance, mouseInfluence, animationSpeed,
    lineWidth. It keeps lineOpacity and pointSize. */
module Presets {
  import opened Colour
  import opened Randomness

  /** The three colours of the line gradient: start, middle and end. */
  datatype Palette = Palette(primary: string, secondary: string, accent: string)

  datatype Config = Config(
    pointCount: int,
    maxDistance: int,
    mouseInfluence: int,
    lineOpacity: real,
    pointSize: real,
    animationSpeed: real,
    lineWidth: real,
    colors: Palette)

  const DefaultPalette: Palette := Palette("#00d4ff", "#0099cc", "#0066ff")

  const DefaultConfig: Config := Config(80, 150, 100, 0.3, 2.0, 0.5, 1.0, DefaultPalette)

  /** The six palettes randomPreset chooses from. */
  const RandomPalettes: seq<Palette> := [
    Palette("#ff6b6b", "#ff8e53", "#ff6b9d"),
    Palette("#4ecdc4", "#45b7d1", "#96ceb4"),
    Palette("#feca57", "#ff9ff3", "#54a0ff"),
    Palette("#5f27cd", "#00d2d3", "#ff9ff3"),
    Palette("#10ac84", "#1dd1a1", "#feca57"),
    Palette("#ff6348", "#ff7675", "#fdcb6e")
  ]

  /** Math.floor(u * n) for a draw u: an index in 0 .. n - 1. */
  function Pick(u: real, n: nat): (k: int)
    requires 0.0 <= u < 1.0 && 0 < n
    ensures 0 <= k < n
    ensures k as real <= u * n as real < k as real + 1.0
  {
    UnitBelow(u, n as real);
    var x := u * n as real;
    assert x.Floor as real <= x < n as real;
    x.Floor
  }

  lemma UnitBelow(u: real, n: real)
    requires 0.0 <= u < 1.0 && 0.0 < n
    ensures 0.0 <= u * n < n
  {
    assert n - u * n == (1.0 - u) * n;
  }

  /** randomPreset applied to the configuration c, with the draws of rand. */
  function RandomConfig(c: Config, rand: nat -> real): Config
    requires UnitDraws(rand, 6)
  {
    c.(colors := RandomPalettes[Pick(rand(0), |RandomPalettes|)],
       pointCount := Pick(rand(1), 120) + 40,
       maxDistance := Pick(rand(2), 200) + 100,
       mouseInfluence := Pick(rand(3), 150) + 80,
       animationSpeed := rand(4) * 2.0 + 0.3,
       lineWidth := rand(5) * 3.0 + 0.5)
  }

  /** A random preset has 40 .. 159 points, a line distance of 100 .. 299, a mouse
      radius of 80 .. 229, a speed in [0.3, 2.3), a line width in [0.5, 3.5) and one
      of the six palettes; line opacity and point size are those of c. */
  lemma RandomConfigRanges(c: Config, rand: nat -> real)
    requires UnitDraws(rand, 6)
    ensures var r := RandomConfig(c, rand);
      && 40 <= r.pointCount <= 159
      && 100 <= r.maxDistance <= 299
      && 80 <= r.mouseInfluence <= 229
      && 0.3 <= r.animationSpeed < 2.3
      && 0.5 <= r.lineWidth < 3.5
      && r.colors in RandomPalettes
      && r.lineOpacity == c.lineOpacity && r.pointSize == c.pointSize
  {
    UnitBelow(rand(4), 2.0);
    UnitBelow(rand(5), 3.0);
  }

  /** The palette is the one whose index, 0 .. 5, is the integer part of six
      times the first draw. */
  lemma RandomPaletteChoice(c: Config, rand: nat -> real)
    requires UnitDraws(rand, 6)
    ensures exists k | 0 <= k < 6 :: RandomConfig(c, rand).colors == RandomPalettes[k]
              && k as real <= rand(0) * 6.0 < k as real + 1.0
  {
    var k := Pick(rand(0), 6);
    assert RandomConfig(c, rand).colors == RandomPalettes[k];
  }

  predicate PaletteIsHex(p: Palette) {
    IsHexColour(p.primary) && IsHexColour(p.secondary) && IsHexColour(p.accent)
  }

  /** Each colour of a palette decodes to three channels in 0..255. */
  predicate DecodesToBytes(p: Palette, alpha: real) {
    && ByteChannels(HexToRgba(p.primary, alpha))
    && ByteChannels(HexToRgba(p.secondary, alpha))
    && ByteChannels(HexToRgba(p.accent, alpha))
  }

  lemma PaletteChannels(p: Palette, alpha: real)
    requires PaletteIsHex(p)
    ensures DecodesToBytes(p, alpha)
  {
    HexColourChannels(p.primary, alpha);
    HexColourChannels(p.secondary, alpha);
    HexColourChannels(p.accent, alpha);
  }

  /** Every default and random-preset colour is a "#rrggbb" colour, so every
      gradient stop drawn with one of them decodes to channels in 0..255. */
  lemma ConfigColoursDecode(k: nat, alpha: real)
    requires k < |RandomPalettes|
    ensures PaletteIsHex(RandomPalettes[k]) && DecodesToBytes(RandomPalettes[k], alpha)
    ensures PaletteIsHex(DefaultPalette) && DecodesToBytes(DefaultPalette, alpha)
  {
    PalettesAreHex(k);
    DefaultIsHex();
    PaletteChannels(RandomPalettes[k], alpha);
    PaletteChannels(DefaultPalette, alpha);
  }

  lemma PalettesAreHex(k: nat)
    requires k < |RandomPalettes|
    ensures PaletteIsHex(RandomPalettes[k])
  {
  }

  lemma DefaultIsHex()
    ensures PaletteIsHex(DefaultPalette)
  {
  }

  /** The default gradient starts at #00d4ff = (0, 212, 255). */
  lemma DefaultPrimary(alpha: real)
    ensures HexToRgba(DefaultConfig.colors.primary, alpha) == Rgba(Num(0), Num(212), Num(255), alpha)
  {
    assert ToHex(0, 212, 255) == DefaultPalette.primary;
    HexRoundTrip(0, 212, 255, alpha);
  }

  /** The middle of the default gradient is #0099cc = (0, 153, 204). */
  lemma DefaultSecondary(alpha: real)
    ensures HexToRgba(DefaultConfig.colors.secondary, alpha) == Rgba(Num(0), Num(153), Num(204), alpha)
  {
    assert ToHex(0, 153, 204) == DefaultPalette.secondary;
    HexRoundTrip(0, 153, 204, alpha);
  }

  /** The default gradient ends at #0066ff = (0, 102, 255). */
  lemma DefaultAccent(alpha: real)
    ensures HexToRgba(DefaultConfig.colors.accent, alpha) == Rgba(Num(0), Num(102), Num(255), alpha)
  {
    assert ToHex(0, 102, 255) == DefaultPalette.accent;
    HexRoundTrip(0, 102, 255, alpha);
  }
}
