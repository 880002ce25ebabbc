/**
 * The picture processor of src/core/gpu.cpp: a four-mode scanline state
 * machine driven by CPU cycles, the VRAM and OAM stores the MMU writes
 * through, the LCD registers, and the background pass of render_scanline.
 *
 * render_background as written meets undefined behaviour on every line it
 * draws (a shift by -1, an uninitialised tile number, indices outside vram);
 * the model stops at the first such pixel and reports it as a Fault.
 */
module Video {
  import opened Bytes

  // ---------------------------------------------------------------------
  // Constants of the GPU class
  // ---------------------------------------------------------------------

  const CYCLES_HORIZONTAL_BLANK := 51
  const CYCLES_VERTICAL_BLANK := 114
  const CYCLES_SCANLINE_OAM := 20
  const CYCLES_SCANLINE_VRAM := 43

  const LAST_LINE := 143
  const VBLANK_LAST_LINE := 153

  /** Renderer::SCREEN_WIDTH and SCREEN_HEIGHT. */
  const SCREEN_WIDTH := 160
  const SCREEN_HEIGHT := 144

  const TILE_WIDTH_PIXELS := 8
  const TILE_HEIGHT_PIXELS := 8
  const TILES_PER_MAP_ROW := 32
  const TILE_SIZE := 16

  const VRAM_TILE_SET_1 := 0x0000
  const VRAM_TILE_SET_0 := 0x1000
  const VRAM_TILE_MAP_0 := 0x1800
  const VRAM_TILE_MAP_1 := 0x1C00

  /** Bits of lcd_control: background on, sprites on, map select, tile-set select. */
  const LCD_CONTROL_BG_ENABLE: bitIndex := 0
  const LCD_CONTROL_SPRITE_ENABLE: bitIndex := 1
  const LCD_CONTROL_BG_TILE_MAP: bitIndex := 3
  const LCD_CONTROL_BG_TILE_SET: bitIndex := 4

  const VRAM_SIZE := 0x2000
  const OAM_BYTES := 0xA0

  // ---------------------------------------------------------------------
  // The mode machine
  // ---------------------------------------------------------------------

  /** STATE_HORIZONTAL_BLANK, STATE_VERTICAL_BLANK, STATE_SCANLINE_OAM, STATE_SCANLINE_VRAM. */
  datatype Mode = HorizontalBlank | VerticalBlank | ScanlineOam | ScanlineVram

  /** curr_state, state_cycles and curr_line. */
  datatype Timing = Timing(mode: Mode, cycles: int, line: byte)

  /** What a step hands to others: nothing, one render_scanline, or one render_frame. */
  datatype Event = Quiet | Scanline | Frame

  datatype Tick = Tick(timing: Timing, event: Event)

  /** The value-initialised GPU: horizontal blank of line 0, no cycles counted. */
  const InitialTiming := Timing(HorizontalBlank, 0, 0)

  /** The mode that follows m on line `line`. */
  function NextMode(m: Mode, line: byte): (next: Mode)
    ensures next != m
    ensures next == VerticalBlank <==> m == HorizontalBlank && line == LAST_LINE
    ensures next == ScanlineOam <==> m == VerticalBlank || (m == HorizontalBlank && line != LAST_LINE)
  {
    match m
    case HorizontalBlank => if line == LAST_LINE then VerticalBlank else ScanlineOam
    case VerticalBlank => ScanlineOam
    case ScanlineOam => ScanlineVram
    case ScanlineVram => HorizontalBlank
  }

  /** The cycle count that ends mode m. */
  function Threshold(m: Mode): int {
    match m
    case HorizontalBlank => CYCLES_HORIZONTAL_BLANK
    case VerticalBlank => CYCLES_VERTICAL_BLANK
    case ScanlineOam => CYCLES_SCANLINE_OAM
    case ScanlineVram => CYCLES_SCANLINE_VRAM
  }

  /** `step(cpu_cycles)` on curr_state, state_cycles and curr_line. */
  function StepTiming(t: Timing, cpuCycles: int): (r: Tick)
    // The cycles add up until the mode's threshold, which resets them to 0.
    ensures var sum := t.cycles + cpuCycles;
      if sum >= Threshold(t.mode) then r.timing.cycles == 0 else r.timing == t.(cycles := sum)
    // At most one transition, and only to the next mode.
    ensures r.timing.mode == t.mode || r.timing.mode == NextMode(t.mode, t.line)
    ensures r.timing.mode != t.mode ==> r.timing.cycles == 0
    // One render_scanline when VRAM ends; one render_frame when line 153 of VBlank ends.
    ensures r.event == Scanline <==> t.mode == ScanlineVram && r.timing.mode == HorizontalBlank
    ensures r.event == Frame <==> t.mode == VerticalBlank && r.timing.mode == ScanlineOam
    ensures r.event == Frame ==> r.timing.line == 0
    // Reaching the threshold forces the transition, except on a VBlank line that is not the last.
    ensures var sum := t.cycles + cpuCycles;
      sum >= Threshold(t.mode) && (t.mode != VerticalBlank || VBLANK_LAST_LINE <= t.line < 0xFF) ==>
        r.timing.mode == NextMode(t.mode, t.line)
    ensures var sum := t.cycles + cpuCycles;
      sum >= Threshold(t.mode) && t.mode == VerticalBlank && !(VBLANK_LAST_LINE <= t.line < 0xFF) ==>
        r.timing.mode == VerticalBlank
    // The line: kept below the threshold and in OAM/VRAM, 0 after line 153 of VBlank,
    // otherwise one more (as a uint8_t) when HBlank or a VBlank line ends.
    ensures var sum := t.cycles + cpuCycles;
      r.timing.line ==
        if sum < Threshold(t.mode) || t.mode == ScanlineOam || t.mode == ScanlineVram then t.line
        else if r.event == Frame then 0
        else (t.line + 1) % 0x100
  {
    var sum := t.cycles + cpuCycles;
    match t.mode
    case HorizontalBlank =>
      if sum >= CYCLES_HORIZONTAL_BLANK then
        Tick(Timing(NextMode(t.mode, t.line), 0, Wrap8(t.line + 1)), Quiet)
      else Tick(t.(cycles := sum), Quiet)
    case VerticalBlank =>
      if sum >= CYCLES_VERTICAL_BLANK then
        var line := Wrap8(t.line + 1);
        if line > VBLANK_LAST_LINE then Tick(Timing(ScanlineOam, 0, 0), Frame)
        else Tick(Timing(VerticalBlank, 0, line), Quiet)
      else Tick(t.(cycles := sum), Quiet)
    case ScanlineOam =>
      if sum >= CYCLES_SCANLINE_OAM then Tick(Timing(ScanlineVram, 0, t.line), Quiet)
      else Tick(t.(cycles := sum), Quiet)
    case ScanlineVram =>
      if sum >= CYCLES_SCANLINE_VRAM then Tick(Timing(HorizontalBlank, 0, t.line), Scanline)
      else Tick(t.(cycles := sum), Quiet)
  }

  /** Lines 0..143 are drawn (OAM, VRAM, HBlank); lines 144..153 are the vertical blank. */
  predicate LinesInRange(t: Timing) {
    if t.mode == VerticalBlank then LAST_LINE < t.line <= VBLANK_LAST_LINE else t.line <= LAST_LINE
  }

  /** The line ranges hold from the initial state and every step keeps them. */
  lemma StepKeepsLines(t: Timing, cpuCycles: int)
    requires LinesInRange(t)
    ensures LinesInRange(InitialTiming)
    ensures LinesInRange(StepTiming(t, cpuCycles).timing)
  {
  }

  /** render_scanline is only reached on a visible line, whose row fits the framebuffer. */
  lemma ScanlineIsVisible(t: Timing, cpuCycles: int)
    requires LinesInRange(t)
    requires StepTiming(t, cpuCycles).event == Scanline
    ensures t.line <= LAST_LINE
    ensures (t.line + 1) * SCREEN_WIDTH <= SCREEN_WIDTH * SCREEN_HEIGHT
  {
  }

  /** A frame: VBlank of line 153 ends with a render_frame and restarts at line 0 in OAM. */
  lemma FrameEndsBlank(cycles: int)
    requires cycles >= CYCLES_VERTICAL_BLANK
    ensures StepTiming(Timing(VerticalBlank, 0, VBLANK_LAST_LINE), cycles) ==
      Tick(Timing(ScanlineOam, 0, 0), Frame)
    ensures StepTiming(Timing(VerticalBlank, 0, 152), cycles) ==
      Tick(Timing(VerticalBlank, 0, 153), Quiet)
  {
  }

  /** Line 143's horizontal blank enters the vertical blank at line 144. */
  lemma LastLineEntersBlank(cycles: int)
    requires cycles >= CYCLES_HORIZONTAL_BLANK
    ensures StepTiming(Timing(HorizontalBlank, 0, LAST_LINE), cycles) ==
      Tick(Timing(VerticalBlank, 0, 144), Quiet)
  {
  }

  // ---------------------------------------------------------------------
  // Palette
  // ---------------------------------------------------------------------

  /**
   * A framebuffer cell. Blank is the value-initialised 0 of `framebuffer{}`;
   * the four PIXEL_COLOR_* values are named, not numbered.
   */
  datatype Pixel = Blank | White | LightGrey | DarkGrey | Black

  type shade = c: int | 0 <= c < 4

  /** The switch from a shade to a PIXEL_COLOR_* value. */
  function ColourOf(s: shade): (p: Pixel)
    ensures p != Blank
  {
    match s
    case 0 => White
    case 1 => LightGrey
    case 2 => DarkGrey
    case _ => Black
  }

  /** Each shade has its own colour. */
  lemma ColoursDistinct(s: shade, t: shade)
    ensures ColourOf(s) == ColourOf(t) <==> s == t
  {
  }

  /**
   * `(palette >> (color * 2)) & 0x3`: the two palette bits that belong to
   * colour c, as a number 0..3.
   */
  function Shade(palette: byte, c: shade): shade {
    match c
    case 0 => palette % 4
    case 1 => palette / 4 % 4
    case 2 => palette / 16 % 4
    case _ => palette / 64
  }

  /** The palette 0xE4 (3, 2, 1, 0 from the top bits down) maps each colour to itself. */
  lemma IdentityPalette(c: shade)
    ensures Shade(0xE4, c) == c
  {
  }

  /** Palette bit pairs are independent: each colour's shade sits in its own two bits. */
  lemma {:induction false} ShadeOfPalette(s0: shade, s1: shade, s2: shade, s3: shade)
    ensures var p := s0 + 4 * s1 + 16 * s2 + 64 * s3;
      Shade(p, 0) == s0 && Shade(p, 1) == s1 && Shade(p, 2) == s2 && Shade(p, 3) == s3
  {
    var p := s0 + 4 * s1 + 16 * s2 + 64 * s3;
    assert p / 4 == s1 + 4 * s2 + 16 * s3;
    assert p / 16 == s2 + 4 * s3;
    assert p / 64 == s3;
  }

  /** `(v >> k) & 0x1` for the shift amount 7 - x, as bit 7 - x of v. */
  function BitAt(v: byte, x: int): (b: int)
    requires 0 <= x < 8
    ensures b == 0 || b == 1
  {
    match x
    case 0 => v / 128
    case 1 => v / 64 % 2
    case 2 => v / 32 % 2
    case 3 => v / 16 % 2
    case 4 => v / 8 % 2
    case 5 => v / 4 % 2
    case 6 => v / 2 % 2
    case _ => v % 2
  }

  /**
   * The colour of pixel `x` of a tile row from its two bytes:
   * `((low >> (7 - x)) & 0x1) + ((high >> (6 - x)) & 0x2)`, for the x where
   * both shift amounts are non-negative. Bit 7 - x of low is the colour's
   * low bit and bit 7 - x of high its high bit.
   */
  function TileColour(low: byte, high: byte, x: int): (c: shade)
    requires 0 <= x < 7
  {
    2 * BitAt(high, x) + BitAt(low, x)
  }

  /** The leftmost pixel of a tile uses the top bits, the next one the bits below. */
  lemma TileColourExample()
    ensures TileColour(0x80, 0x00, 0) == 1 && TileColour(0x00, 0x80, 0) == 2
    ensures TileColour(0x40, 0x40, 1) == 3 && TileColour(0x40, 0x40, 0) == 0
  {
  }


  // ---------------------------------------------------------------------
  // The background pass
  // ---------------------------------------------------------------------

  /** The undefined behaviour a background pixel runs into. */
  datatype Problem =
    | MapOutOfRange(mapAddr: int)   // vram[map_addr++] past the end of vram
    | TileNumberUnset               // tile_nbr read before the first tile_x == 0
    | TileOutOfRange(index: int)    // vram[tile_set_addr + TILE_SIZE * tile_nbr + ...] outside vram
    | NegativeShift                 // high >> (6 - tile_x) with tile_x == 7

  datatype Fault = Fault(pixel: int, problem: Problem)

  /** Whether render_background has met undefined behaviour. */
  datatype Status = Clean | Faulted(fault: Fault)

  /** `tile_nbr`, which has no value until the first tile of the line is fetched. */
  datatype TileNumber = Unset | Tile(n: int)

  /** What render_background reads: vram and the registers, reduced to the numbers it uses. */
  datatype Background = Background(
    vram: seq<byte>, palette: byte, tileSet: int, tileY: int, firstX: int, row: int)

  /** The framebuffer cells of the current line are those from `row` on. */
  predicate Drawable(g: Background, fb: seq<Pixel>) {
    |g.vram| == VRAM_SIZE && |fb| == SCREEN_WIDTH * SCREEN_HEIGHT &&
    0 <= g.row && g.row + SCREEN_WIDTH <= |fb|
  }

  /** The `map_addr` of pixel 0 of the line. */
  function MapStart(lcd: byte, scrollX: byte, scrollY: byte, line: byte): (a: int)
    ensures VRAM_TILE_MAP_0 <= a < VRAM_TILE_MAP_1 + TILES_PER_MAP_ROW * TILES_PER_MAP_ROW
  {
    var base := if Bit(lcd, LCD_CONTROL_BG_TILE_MAP) then VRAM_TILE_MAP_1 else VRAM_TILE_MAP_0;
    base + Wrap8(line + scrollY) / 8 * 32 + scrollX / 8
  }

  function BackgroundOf(vram: seq<byte>, lcd: byte, scrollX: byte, scrollY: byte, line: byte, palette: byte): Background {
    Background(
      vram, palette,
      if Bit(lcd, LCD_CONTROL_BG_TILE_SET) then VRAM_TILE_SET_1 else VRAM_TILE_SET_0,
      (line + scrollY) % 8, scrollX % 8, line * 160)
  }

  /** What one pass of the loop body does at pixel i: stop at a problem, or paint a cell. */
  datatype PixelStep =
    | Stop(problem: Problem)
    | Paint(mapAddr: int, tile: TileNumber, colour: Pixel)

  /**
   * The loop body of render_background at pixel i, given `map_addr` and
   * `tile_nbr` on entry: fetch a tile number at tile_x == 0, read the two
   * bytes of the tile row, shift out the pixel's bits, look up the shade.
   */
  function PixelAt(g: Background, i: int, mapAddr: int, tile: TileNumber): (r: PixelStep)
    requires |g.vram| == VRAM_SIZE
    ensures r.Paint? ==> r.colour != Blank && r.tile.Tile? && (g.firstX + i) % 8 != 7
  {
    var x := (g.firstX + i) % 8;
    if x == 0 && !(0 <= mapAddr < VRAM_SIZE) then Stop(MapOutOfRange(mapAddr))
    else
      var tile' := if x == 0 then Tile(Int8(g.vram[mapAddr])) else tile;
      var mapAddr' := if x == 0 then mapAddr + 1 else mapAddr;
      match tile'
      case Unset => Stop(TileNumberUnset)
      case Tile(n) =>
        var index := g.tileSet + 16 * n + g.tileY * 2;
        if !(0 <= index && index + 1 < VRAM_SIZE) then Stop(TileOutOfRange(index))
        else if x == 7 then Stop(NegativeShift)
        else Paint(mapAddr', tile', ColourOf(Shade(g.palette, TileColour(g.vram[index], g.vram[index + 1], x))))
  }

  /**
   * Pixels i.. of render_background's loop, from `map_addr` and `tile_nbr`
   * at pixel i: the framebuffer it leaves and the fault that stops it, if any.
   */
  function BackgroundFrom(g: Background, i: nat, mapAddr: int, tile: TileNumber, fb: seq<Pixel>): (r: (seq<Pixel>, Status))
    requires Drawable(g, fb)
    ensures |r.0| == |fb|
    decreases SCREEN_WIDTH - i
  {
    if i >= SCREEN_WIDTH then (fb, Clean)
    else
      match PixelAt(g, i, mapAddr, tile)
      case Stop(problem) => (fb, Faulted(Fault(i, problem)))
      case Paint(mapAddr', tile', colour) => BackgroundFrom(g, i + 1, mapAddr', tile', fb[g.row + i := colour])
  }

  /** A pixel that paints hands the rest of the line its map address, tile number and framebuffer. */
  lemma BackgroundStep(g: Background, i: nat, mapAddr: int, tile: TileNumber, fb: seq<Pixel>)
    requires Drawable(g, fb) && i < SCREEN_WIDTH && PixelAt(g, i, mapAddr, tile).Paint?
    ensures var step := PixelAt(g, i, mapAddr, tile);
      BackgroundFrom(g, i, mapAddr, tile, fb) == BackgroundFrom(g, i + 1, step.mapAddr, step.tile, fb[g.row + i := step.colour])
  {
  }

  /** A pixel that stops ends the pass there, with the framebuffer as it is. */
  lemma BackgroundStop(g: Background, i: nat, mapAddr: int, tile: TileNumber, fb: seq<Pixel>)
    requires Drawable(g, fb) && i < SCREEN_WIDTH && PixelAt(g, i, mapAddr, tile).Stop?
    ensures BackgroundFrom(g, i, mapAddr, tile, fb) == (fb, Faulted(Fault(i, PixelAt(g, i, mapAddr, tile).problem)))
  {
  }

  /** A fault is reported at a pixel of the line, at or after the one the pass resumed from. */
  lemma {:induction false} BackgroundFaultOnLine(g: Background, i: nat, mapAddr: int, tile: TileNumber, fb: seq<Pixel>)
    requires Drawable(g, fb)
    ensures var s := BackgroundFrom(g, i, mapAddr, tile, fb).1;
      s.Faulted? ==> i <= s.fault.pixel < SCREEN_WIDTH
    decreases SCREEN_WIDTH - i
  {
    if i < SCREEN_WIDTH && PixelAt(g, i, mapAddr, tile).Paint? {
      var step := PixelAt(g, i, mapAddr, tile);
      BackgroundStep(g, i, mapAddr, tile, fb);
      BackgroundFaultOnLine(g, i + 1, step.mapAddr, step.tile, fb[g.row + i := step.colour]);
    }
  }

  /**
   * The pass writes only the cells of the current line, from pixel i on,
   * and only with one of the four colours: `framebuffer[i + curr_line * 160]`.
   */
  lemma {:induction false} BackgroundStaysOnLine(g: Background, i: nat, mapAddr: int, tile: TileNumber, fb: seq<Pixel>, k: int)
    requires Drawable(g, fb) && 0 <= k < |fb|
    ensures var r := BackgroundFrom(g, i, mapAddr, tile, fb).0;
      (k < g.row + i || g.row + SCREEN_WIDTH <= k ==> r[k] == fb[k]) && (r[k] == fb[k] || r[k] != Blank)
    decreases SCREEN_WIDTH - i
  {
    if i < SCREEN_WIDTH {
      var step := PixelAt(g, i, mapAddr, tile);
      if step.Paint? {
        BackgroundStep(g, i, mapAddr, tile, fb);
        BackgroundStaysOnLine(g, i + 1, step.mapAddr, step.tile, fb[g.row + i := step.colour], k);
      }
    }
  }

  /**
   * render_background as written never finishes a line: within the first
   * tile it either reads tile_nbr unset (scroll_x not a multiple of 8) or
   * reaches tile_x == 7 and shifts by -1.
   */
  lemma {:induction false} BackgroundAlwaysFaults(g: Background, i: nat, mapAddr: int, tile: TileNumber, fb: seq<Pixel>)
    requires Drawable(g, fb) && 0 <= g.firstX
    requires i + (7 - (g.firstX + i) % 8) < SCREEN_WIDTH
    ensures var r := BackgroundFrom(g, i, mapAddr, tile, fb);
      r.1.Faulted? && r.1.fault.pixel <= i + (7 - (g.firstX + i) % 8)
    decreases SCREEN_WIDTH - i
  {
    var step := PixelAt(g, i, mapAddr, tile);
    if step.Paint? {
      var x := (g.firstX + i) % 8;
      assert x != 7;
      assert (g.firstX + i + 1) % 8 == x + 1;
      BackgroundStep(g, i, mapAddr, tile, fb);
      BackgroundAlwaysFaults(g, i + 1, step.mapAddr, step.tile, fb[g.row + i := step.colour]);
    }
  }

  /** So from pixel 0 the first fault is at or before pixel 7, whatever vram holds. */
  lemma FirstTileFaults(g: Background, mapAddr: int, fb: seq<Pixel>)
    requires Drawable(g, fb) && 0 <= g.firstX < 8
    ensures var r := BackgroundFrom(g, 0, mapAddr, Unset, fb);
      r.1.Faulted? && r.1.fault.pixel <= 7 - g.firstX
  {
    assert (g.firstX + 0) % 8 == g.firstX;
    BackgroundAlwaysFaults(g, 0, mapAddr, Unset, fb);
  }

  /** A scroll_x that is not a multiple of 8 faults at pixel 0: tile_nbr is read unset. */
  lemma UnalignedReadsUnsetTile(g: Background, mapAddr: int, fb: seq<Pixel>)
    requires Drawable(g, fb) && 0 < g.firstX < 8
    ensures BackgroundFrom(g, 0, mapAddr, Unset, fb) == (fb, Faulted(Fault(0, TileNumberUnset)))
  {
    assert PixelAt(g, 0, mapAddr, Unset) == Stop(TileNumberUnset);
  }

  /** A line of pixels: the background pass when lcd_control bit 0 is set. */
  function ScanlineOf(g: Background, mapAddr: int, lcd: byte, fb: seq<Pixel>, status: Status): (r: (seq<Pixel>, Status))
    requires Drawable(g, fb)
    ensures |r.0| == |fb|
    ensures status.Faulted? ==> r.1 == status
  {
    if Bit(lcd, LCD_CONTROL_BG_ENABLE) then
      var (fb', s) := BackgroundFrom(g, 0, mapAddr, Unset, fb);
      (fb', if status.Faulted? then status else s)
    else (fb, status)
  }

  // ---------------------------------------------------------------------
  // The GPU object
  // ---------------------------------------------------------------------

  class Gpu {
    var vram: array<byte>
    var oam: array<byte>
    var curr_state: Mode
    var state_cycles: int
    var lcd_control: byte
    var scroll_y: byte
    var scroll_x: byte
    var curr_line: byte
    var bg_palette: byte
    /** `obj_palette[2]`; the constructor leaves it uninitialised. */
    var obj_palette: array<byte>
    var framebuffer: array<Pixel>
    /** The first undefined behaviour render_background met, if any. */
    var status: Status
    /** render_frame calls so far. */
    ghost var frames: nat
    /** render_sprites calls so far (their drawing is not modelled). */
    ghost var spritePasses: nat

    predicate Valid()
      reads this
    {
      vram.Length == VRAM_SIZE && oam.Length == OAM_BYTES && obj_palette.Length == 2 &&
      framebuffer.Length == SCREEN_WIDTH * SCREEN_HEIGHT &&
      vram != oam && vram != obj_palette && oam != obj_palette &&
      LinesInRange(Clock())
    }

    function Clock(): Timing
      reads this
    {
      Timing(curr_state, state_cycles, curr_line)
    }

    /** What the background pass reads now. */
    function Scene(): Background
      reads this, vram
    {
      BackgroundOf(vram[..], lcd_control, scroll_x, scroll_y, curr_line, bg_palette)
    }

    function Start(): int
      reads this
    {
      MapStart(lcd_control, scroll_x, scroll_y, curr_line)
    }

    /** `GPU(renderer)`: every member value-initialised, except obj_palette. */
    constructor ()
      ensures Valid() && fresh(vram) && fresh(oam) && fresh(obj_palette) && fresh(framebuffer)
      ensures Clock() == InitialTiming
      ensures vram[..] == seq(VRAM_SIZE, _ => 0) && oam[..] == seq(OAM_BYTES, _ => 0)
      ensures framebuffer[..] == seq(SCREEN_WIDTH * SCREEN_HEIGHT, _ => Blank)
      ensures lcd_control == 0 && scroll_y == 0 && scroll_x == 0 && bg_palette == 0
      ensures status == Clean && frames == 0 && spritePasses == 0
    {
      vram := new byte[VRAM_SIZE](_ => 0);
      oam := new byte[OAM_BYTES](_ => 0);
      obj_palette := new byte[2];
      framebuffer := new Pixel[SCREEN_WIDTH * SCREEN_HEIGHT](_ => Blank);
      curr_state := HorizontalBlank;
      state_cycles := 0;
      lcd_control, scroll_y, scroll_x, curr_line, bg_palette := 0, 0, 0, 0, 0;
      status := Clean;
      frames, spritePasses := 0, 0;
    }

    /** `step(cpu_cycles)`. */
    method Step(cpuCycles: int)
      requires Valid()
      modifies this`curr_state, this`state_cycles, this`curr_line, this`frames
      modifies this`status, this`spritePasses, framebuffer
      ensures Valid()
      ensures var tick := StepTiming(old(Clock()), cpuCycles);
        Clock() == tick.timing &&
        frames == old(frames) + (if tick.event == Frame then 1 else 0) &&
        (tick.event == Scanline ==>
          (framebuffer[..], status) ==
            ScanlineOf(old(Scene()), old(Start()), lcd_control, old(framebuffer[..]), old(status)) &&
          spritePasses == old(spritePasses) + (if Bit(lcd_control, LCD_CONTROL_SPRITE_ENABLE) then 1 else 0)) &&
        (tick.event != Scanline ==>
          framebuffer[..] == old(framebuffer[..]) && status == old(status) && spritePasses == old(spritePasses))
    {
      ghost var t := Clock();
      StepKeepsLines(t, cpuCycles);
      state_cycles := state_cycles + cpuCycles;
      match curr_state
      case HorizontalBlank =>
        if state_cycles >= CYCLES_HORIZONTAL_BLANK {
          curr_state := if curr_line == LAST_LINE then VerticalBlank else ScanlineOam;
          curr_line := Wrap8(curr_line + 1);
          state_cycles := 0;
        }
        assert StepTiming(t, cpuCycles) == Tick(Clock(), Quiet);
      case VerticalBlank =>
        if state_cycles >= CYCLES_VERTICAL_BLANK {
          curr_line := Wrap8(curr_line + 1);
          state_cycles := 0;
          if curr_line > VBLANK_LAST_LINE {
            curr_line := 0;
            curr_state := ScanlineOam;
            frames := frames + 1;
            assert StepTiming(t, cpuCycles) == Tick(Clock(), Frame);
          } else {
            assert StepTiming(t, cpuCycles) == Tick(Clock(), Quiet);
          }
        } else {
          assert StepTiming(t, cpuCycles) == Tick(Clock(), Quiet);
        }
      case ScanlineOam =>
        if state_cycles >= CYCLES_SCANLINE_OAM {
          curr_state := ScanlineVram;
          state_cycles := 0;
        }
        assert StepTiming(t, cpuCycles) == Tick(Clock(), Quiet);
      case ScanlineVram =>
        if state_cycles >= CYCLES_SCANLINE_VRAM {
          curr_state := HorizontalBlank;
          state_cycles := 0;
          assert StepTiming(t, cpuCycles) == Tick(Clock(), Scanline);
          RenderScanline();
        } else {
          assert StepTiming(t, cpuCycles) == Tick(Clock(), Quiet);
        }
    }

    /** `render_scanline`: the background pass, then the sprite pass. */
    method RenderScanline()
      requires Valid() && curr_line <= LAST_LINE
      modifies this`status, this`spritePasses, framebuffer
      ensures (framebuffer[..], status) == ScanlineOf(old(Scene()), old(Start()), lcd_control, old(framebuffer[..]), old(status))
      ensures spritePasses == old(spritePasses) + (if Bit(lcd_control, LCD_CONTROL_SPRITE_ENABLE) then 1 else 0)
    {
      if Bit(lcd_control, LCD_CONTROL_BG_ENABLE) {
        var s := RenderBackground();
        if status.Clean? {
          status := s;
        }
      }
      if Bit(lcd_control, LCD_CONTROL_SPRITE_ENABLE) {
        spritePasses := spritePasses + 1;
      }
    }

    /** `render_background`, up to the first pixel that meets undefined behaviour. */
    method RenderBackground() returns (s: Status)
      requires Valid() && curr_line <= LAST_LINE
      modifies framebuffer
      ensures (framebuffer[..], s) == BackgroundFrom(Scene(), 0, Start(), Unset, old(framebuffer[..]))
    {
      ghost var g := Scene();
      var map_addr := Start();
      var tile_nbr := Unset;
      ghost var whole := BackgroundFrom(g, 0, map_addr, tile_nbr, framebuffer[..]);
      var i := 0;
      while i < SCREEN_WIDTH
        invariant 0 <= i <= SCREEN_WIDTH && g == Scene()
        invariant BackgroundFrom(g, i, map_addr, tile_nbr, framebuffer[..]) == whole
      {
        var step := BackgroundPixel(i, map_addr, tile_nbr);
        match step
        case Stop(problem) =>
          BackgroundStop(g, i, map_addr, tile_nbr, framebuffer[..]);
          return Faulted(Fault(i, problem));
        case Paint(m, t, colour) =>
          ghost var fb := framebuffer[..];
          BackgroundStep(g, i, map_addr, tile_nbr, fb);
          framebuffer[i + curr_line * 160] := colour;
          assert framebuffer[..] == fb[g.row + i := colour];
          map_addr, tile_nbr := m, t;
          i := i + 1;
      }
      return Clean;
    }

    /**
     * One pass of render_background's loop body at pixel i, before its
     * framebuffer write: the next `map_addr`, `tile_nbr` and colour, or the
     * undefined behaviour the pass runs into.
     */
    method BackgroundPixel(i: int, map_addr: int, tile_nbr: TileNumber) returns (step: PixelStep)
      requires Valid() && 0 <= i
      ensures step == PixelAt(Scene(), i, map_addr, tile_nbr)
    {
      var tile_set_addr := if Bit(lcd_control, LCD_CONTROL_BG_TILE_SET) then VRAM_TILE_SET_1 else VRAM_TILE_SET_0;
      var initial_tile_x := scroll_x % 8;
      var tile_y := (curr_line + scroll_y) % 8;
      var tile_x := (initial_tile_x + i) % 8;
      ghost var g := Scene();
      assert g.tileSet == tile_set_addr && g.tileY == tile_y && (g.firstX + i) % 8 == tile_x;
      assert g.vram == vram[..] && g.palette == bg_palette;
      var map_addr', tile_nbr' := map_addr, tile_nbr;
      if tile_x == 0 {
        if !(0 <= map_addr < vram.Length) {
          return Stop(MapOutOfRange(map_addr));
        }
        tile_nbr' := Tile(Int8(vram[map_addr]));
        map_addr' := map_addr + 1;
      }
      if tile_nbr'.Unset? {
        return Stop(TileNumberUnset);
      }
      var index := tile_set_addr + 16 * tile_nbr'.n + tile_y * 2;
      if !(0 <= index && index + 1 < vram.Length) {
        return Stop(TileOutOfRange(index));
      }
      if tile_x == 7 {
        return Stop(NegativeShift);
      }
      var color := TileColour(vram[index], vram[index + 1], tile_x);
      return Paint(map_addr', tile_nbr', ColourOf(Shade(bg_palette, color)));
    }

    // -------------------------------------------------------------------
    // VRAM and OAM, as the MMU reaches them
    // -------------------------------------------------------------------

    method WriteByteVram(addr: word, v: byte)
      requires Valid() && addr < VRAM_SIZE
      modifies vram
      ensures vram[..] == old(vram[..])[addr := v]
    {
      vram[addr] := v;
    }

    method WriteWordVram(addr: word, v: word)
      requires Valid() && addr + 1 < VRAM_SIZE
      modifies vram
      ensures vram[..] == StoreWord(old(vram[..]), addr, v)
    {
      vram[addr] := Low(v);
      vram[addr + 1] := High(v);
    }

    method ReadByteOam(addr: word) returns (v: byte)
      requires Valid() && addr < OAM_BYTES
      ensures v == oam[addr]
    {
      v := oam[addr];
    }

    method WriteByteOam(addr: word, v: byte)
      requires Valid() && addr < OAM_BYTES
      modifies oam
      ensures oam[..] == old(oam[..])[addr := v]
    {
      oam[addr] := v;
    }

    method ReadWordOam(addr: word) returns (v: word)
      requires Valid() && addr + 1 < OAM_BYTES
      ensures v == LoadWord(oam[..], addr)
    {
      var low: int, high: int := oam[addr], oam[addr + 1];
      v := low + high * 0x100;
    }

    method WriteWordOam(addr: word, v: word)
      requires Valid() && addr + 1 < OAM_BYTES
      modifies oam
      ensures oam[..] == StoreWord(old(oam[..]), addr, v)
    {
      oam[addr] := Low(v);
      oam[addr + 1] := High(v);
    }

    // -------------------------------------------------------------------
    // Registers
    // -------------------------------------------------------------------

    method GetLcdControl() returns (v: byte)
      ensures v == lcd_control
    {
      v := lcd_control;
    }

    method SetLcdControl(v: byte)
      modifies this`lcd_control
      ensures lcd_control == v
    {
      lcd_control := v;
    }

    method GetScrollX() returns (v: byte)
      ensures v == scroll_x
    {
      v := scroll_x;
    }

    method SetScrollX(v: byte)
      modifies this`scroll_x
      ensures scroll_x == v
    {
      scroll_x := v;
    }

    method GetScrollY() returns (v: byte)
      ensures v == scroll_y
    {
      v := scroll_y;
    }

    method SetScrollY(v: byte)
      modifies this`scroll_y
      ensures scroll_y == v
    {
      scroll_y := v;
    }

    method GetCurrScanline() returns (v: byte)
      ensures v == curr_line
    {
      v := curr_line;
    }

    method SetBgPalette(v: byte)
      modifies this`bg_palette
      ensures bg_palette == v
    {
      bg_palette := v;
    }

    /** `obj_palette[index]`; the MMU passes 0 or 1. */
    method GetObjPalette(index: int) returns (v: byte)
      requires Valid() && 0 <= index < 2
      ensures v == obj_palette[index]
    {
      v := obj_palette[index];
    }

    method SetObjPalette(index: int, v: byte)
      requires Valid() && 0 <= index < 2
      modifies obj_palette
      ensures obj_palette[..] == old(obj_palette[..])[index := v]
    {
      obj_palette[index] := v;
    }
  }
}
