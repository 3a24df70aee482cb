/**
 * Value types shared by the call facade: packed colours, float vectors,
 * wasted-screen settings, key binds and map markers.
 */
module Utils {
  import opened Base

  /** `Color`: four 8-bit channels. */
  datatype Color = Color(r: Byte, g: Byte, b: Byte, a: Byte)

  /** `x as u8` on a `u32`: the low eight bits. */
  function LowByte(x: U32): Byte
  {
    (x & 0xFF) as Byte
  }

  /** `Color::as_rgba`: red in the top byte, alpha in the bottom one. */
  function AsRgba(c: Color): (v: U32)
    ensures v >> 24 == c.r as U32 && v & 0xFF == c.a as U32
    ensures (v >> 16) & 0xFF == c.g as U32 && (v >> 8) & 0xFF == c.b as U32
  {
    (c.r as U32 << 24) | (c.g as U32 << 16) | (c.b as U32 << 8) | c.a as U32
  }

  /** `Color::from_rgba`. */
  function FromRgba(v: U32): (c: Color)
    ensures AsRgba(c) == v
  {
    Color(LowByte(v >> 24), LowByte(v >> 16), LowByte(v >> 8), LowByte(v))
  }

  /** `Color::as_argb`: alpha in the top byte, blue in the bottom one. */
  function AsArgb(c: Color): (v: U32)
    ensures v >> 24 == c.a as U32 && v & 0xFF == c.b as U32
    ensures (v >> 16) & 0xFF == c.r as U32 && (v >> 8) & 0xFF == c.g as U32
  {
    (c.a as U32 << 24) | (c.r as U32 << 16) | (c.g as U32 << 8) | c.b as U32
  }

  /** `Color::from_argb`. */
  function FromArgb(v: U32): (c: Color)
    ensures AsArgb(c) == v
  {
    Color(LowByte(v >> 16), LowByte(v >> 8), LowByte(v), LowByte(v >> 24))
  }

  /** `Color::as_rgb`: the three colour channels in the low 24 bits; alpha is dropped. */
  function AsRgb(c: Color): (v: U32)
    ensures v < 0x100_0000
    ensures v >> 16 == c.r as U32 && (v >> 8) & 0xFF == c.g as U32 && v & 0xFF == c.b as U32
  {
    (c.r as U32 << 16) | (c.g as U32 << 8) | c.b as U32
  }

  /**
   * `Color::from_rgb`: the channels come from the low 24 bits, the top byte
   * is ignored, and alpha is the one given or 255.
   */
  function FromRgb(v: U32, a: Option<Byte>): (c: Color)
    ensures c.a == (if a.Some? then a.value else 255)
    ensures AsRgb(c) == v & 0xFF_FFFF
  {
    var alpha := if a.Some? then a.value else 255;
    var c := Color(LowByte(v >> 16), LowByte(v >> 8), LowByte(v), alpha);
    assert AsRgb(c) == v & 0xFF_FFFF by {
      RgbChannels(v, alpha);
    }
    c
  }

  lemma RgbChannels(v: U32, alpha: Byte)
    ensures AsRgb(Color(LowByte(v >> 16), LowByte(v >> 8), LowByte(v), alpha)) == v & 0xFF_FFFF
  {
  }

  /** Packing a colour as RGBA and unpacking it gives it back. */
  lemma RgbaRoundTrip(c: Color)
    ensures FromRgba(AsRgba(c)) == c
  {
  }

  /** Packing a colour as ARGB and unpacking it gives it back. */
  lemma ArgbRoundTrip(c: Color)
    ensures FromArgb(AsArgb(c)) == c
  {
  }

  /** Packing a colour as RGB and unpacking it with its own alpha gives it back. */
  lemma RgbRoundTrip(c: Color)
    ensures FromRgb(AsRgb(c), Some(c.a)) == c
  {
  }

  /** Clearing the alpha byte of an RGBA value and setting it to 255 makes the colour opaque. */
  lemma ForceOpaque(c: Color)
    ensures FromRgba((AsRgba(c) & 0xFFFF_FF00) | 0xFF) == Color(c.r, c.g, c.b, 255)
  {
    RgbaRoundTrip(c);
    OpaqueChannels(AsRgba(c));
  }

  lemma OpaqueChannels(x: U32)
    ensures var y := (x & 0xFFFF_FF00) | 0xFF;
      && LowByte(y >> 24) == LowByte(x >> 24) && LowByte(y >> 16) == LowByte(x >> 16)
      && LowByte(y >> 8) == LowByte(x >> 8) && LowByte(y) == 255
  {
  }

  /** `Color::default()`: opaque white. */
  function DefaultColor(): (c: Color)
    ensures AsRgba(c) == 0xFFFF_FFFF
  {
    Color(255, 255, 255, 255)
  }

  /** `Vectorf32`. */
  datatype Vector = Vector(x: F32, y: F32, z: F32)

  /** `Quaternionf32`. */
  datatype Quaternion = Quaternion(x: F32, y: F32, z: F32, w: F32)

  /** `WastedSettings`: the death-screen timing and colour. */
  datatype WastedSettings = WastedSettings(
    deathTimer: U32,
    fadeTimer: U32,
    fadeInSpeed: F32,
    fadeOutSpeed: F32,
    color: Color,
    corpseFadeStart: U32,
    corpseFadeTime: U32)

  /** `Keybind`, built by `Keybind::new` from its five fields. */
  datatype Keybind = Keybind(slot: I32, canRelease: bool, key: I32, key2: I32, key3: I32)

  /** `Marker`, built by `Marker::new` from its six fields. */
  datatype Marker = Marker(
    marker: I32, world: I32, position: Vector, scale: I32, color: Color, sprite: I32)
}
