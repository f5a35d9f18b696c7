/**
 * The arithmetic of the dashboard view (ContentView.swift): decoding a packed
 * `0xRRGGBB` colour literal into its three channel bytes, and the index rules
 * of the activity grid.
 */
module ContentView {

  // ---------------------------------------------------------------------------
  // Color(hex:alpha:)
  // ---------------------------------------------------------------------------

  /** Swift's `UInt` on a 64-bit platform. */
  type UInt = bv64

  /** The three channel bytes, before each is scaled into [0, 1] by `/ 255`. */
  datatype Rgb = Rgb(red: bv8, green: bv8, blue: bv8)

  /** The colour `Color(hex:alpha:)` builds: channel bytes and an opacity. */
  datatype HexColor = HexColor(channels: Rgb, opacity: real)

  /** `Color(hex:alpha:)`; the opacity defaults to 1. */
  function ColorFromHex(hex: UInt, alpha: real := 1.0): (c: HexColor)
    ensures c.opacity == alpha
  {
    HexColor(Rgb(((hex >> 16) & 0xff) as bv8, ((hex >> 8) & 0xff) as bv8, ((hex >> 0) & 0xff) as bv8), alpha)
  }

  /** The `0xRRGGBB` literal of three channel bytes. */
  function Pack(rgb: Rgb): UInt
  {
    (rgb.red as UInt << 16) | (rgb.green as UInt << 8) | rgb.blue as UInt
  }

  /** Each channel, read as an integer, lies in [0, 255]. */
  lemma ChannelsAreBytes(hex: UInt, alpha: real)
    ensures var c := ColorFromHex(hex, alpha).channels;
      0 <= c.red as int <= 255 && 0 <= c.green as int <= 255 && 0 <= c.blue as int <= 255
  {
  }

  /**
   * Red is bits 16-23 of `hex`, green bits 8-15 and blue bits 0-7: decoding
   * and packing again keeps exactly the low 24 bits, and decoding recovers
   * the bytes a literal was packed from.
   */
  lemma PackRoundTrip(hex: UInt, rgb: Rgb, alpha: real)
    ensures Pack(ColorFromHex(hex, alpha).channels) == hex & 0xff_ffff
    ensures ColorFromHex(Pack(rgb), alpha) == HexColor(rgb, alpha)
  {
  }

  /** Bits above 23 are ignored: `hex` and `hex + k * 2^24` decode to the same channels. */
  lemma HighBitsIgnored(hex: UInt, k: UInt, alpha: real)
    ensures ColorFromHex(hex + (k << 24), alpha) == ColorFromHex(hex, alpha)
  {
  }

  // ---------------------------------------------------------------------------
  // ActivityGrid
  // ---------------------------------------------------------------------------

  const ActivityTypes: seq<string> := ["Sleep", "Steps", "HR", "HRV", "MET", "VO2max"]
  const ActivityValues: seq<real> := [8.2, 12.0, 60.0, 57.0, 60.0, 37.5]
  const ActivityUnits: seq<string> := ["hrs", "k", "BPM", "ms", "hrs", "ml/kg/m"]
  const ActivityAggs: seq<string> := ["μ", "μ", "μ", "μ", "Σ", "μ"]
  const ActivityImages: seq<string> :=
    ["bed.double.circle", "figure.walk.circle", "heart.circle", "arrow.clockwise.heart", "flame.circle", "timer.circle"]

  /** The grid has two flexible columns and fills them row by row. */
  const GridColumns: nat := 2

  /** What one `MarkerCard` shows. */
  datatype MarkerCard = MarkerCard(marker: string, agg: string, value: real, unit: string, favicon: string)

  /**
   * The `ForEach` over `activityTypes.indices`: one card per activity type,
   * reading the other four arrays at the same index.
   */
  function MarkerCards(): (cards: seq<MarkerCard>)
    ensures |cards| == |ActivityTypes|
    ensures forall i :: 0 <= i < |cards| ==> cards[i].marker == ActivityTypes[i]
  {
    seq(|ActivityTypes|, i requires 0 <= i < |ActivityTypes| =>
      MarkerCard(ActivityTypes[i], ActivityAggs[i], ActivityValues[i], ActivityUnits[i], ActivityImages[i]))
  }

  /** The five arrays are parallel, six entries each, so every index of `activityTypes` is valid in all of them. */
  lemma ActivityArraysParallel()
    ensures |ActivityTypes| == |ActivityValues| == |ActivityUnits| == |ActivityAggs| == |ActivityImages| == 6
  {
  }

  datatype Edge = Top | Leading | Bottom | Trailing

  /**
   * The edges a card is padded on: `.horizontal` (leading and trailing) when
   * `index & 1 == 1`, `.leading` otherwise, and `.bottom` in both cases.
   * For a non-negative index, `index & 1` is `index % 2`.
   */
  function CardPadding(index: nat): set<Edge>
  {
    (if index % 2 == 1 then {Leading, Trailing} else {Leading}) + {Bottom}
  }

  /**
   * Every card is padded on its leading and bottom edges; only the cards of
   * the second (right-hand) column are also padded on their trailing edge.
   * The rule alternates from card to card.
   */
  lemma CardPaddingByColumn(index: nat)
    ensures Leading in CardPadding(index) && Bottom in CardPadding(index) && Top !in CardPadding(index)
    ensures Trailing in CardPadding(index) <==> index % GridColumns == 1
    ensures CardPadding(index) != CardPadding(index + 1)
    ensures CardPadding(index + 2) == CardPadding(index)
  {
    assert Trailing !in {Leading, Bottom};
  }
}
