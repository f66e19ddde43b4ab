/** The runtime control surface of the HX8379 driver: scan-direction flips
    for the orientations, pixel-format acceptance, capability reporting,
    blanking through the backlight line, and the unsupported write. */
module Control {
  import opened Platform
  import opened Tables

  /** The display orientations; Other stands for any value outside the four
      the display API names. */
  datatype Orientation = Normal | Rotated90 | Rotated180 | Rotated270 | Other(value: int)

  /** The scan-direction byte sent with SET_ADDRESS for a named orientation. */
  function ScanFlip(o: Orientation): bv8
    requires !o.Other?
  {
    match o
    case Normal => FLIP_HORIZONTAL
    case Rotated90 => FLIP_VERTICAL
    case Rotated180 => 0
    case Rotated270 => FLIP_HORIZONTAL | FLIP_VERTICAL
  }

  /** The scan byte flips horizontally for the normal orientation (the
      panel's default image is mirrored) and for 270 degrees, vertically for
      90 and 270 degrees, and uses no other bit. */
  lemma ScanFlipBits(o: Orientation)
    requires !o.Other?
    ensures (ScanFlip(o) & FLIP_HORIZONTAL != 0) <==> (o == Normal || o == Rotated270)
    ensures (ScanFlip(o) & FLIP_VERTICAL != 0) <==> (o == Rotated90 || o == Rotated270)
    ensures ScanFlip(o) & !(FLIP_HORIZONTAL | FLIP_VERTICAL) == 0
  {
  }

  /** The four bytes as numbers. */
  lemma ScanFlipValues()
    ensures ScanFlip(Normal) == 0x02 && ScanFlip(Rotated90) == 0x01
    ensures ScanFlip(Rotated180) == 0x00 && ScanFlip(Rotated270) == 0x03
  {
  }

  /** Distinct orientations are sent as distinct bytes. */
  lemma ScanFlipInjective(a: Orientation, b: Orientation)
    requires !a.Other? && !b.Other?
    ensures ScanFlip(a) == ScanFlip(b) <==> a == b
  {
    ScanFlipBits(a);
    ScanFlipBits(b);
  }

  /** hx8379_set_orientation: a two-byte buffer, zeroed, then filled with
      SET_ADDRESS and the scan byte, is written to the panel; any other
      orientation is refused with -ENOTSUP and nothing is sent. */
  method SetOrientation(cfg: Config, p: Peripherals, orientation: Orientation) returns (ret: int)
    modifies p
    ensures orientation.Other? ==> ret == -ENOTSUP && p.trace == old(p.trace)
    ensures !orientation.Other? ==>
      && p.trace == old(p.trace) + [GenericWrite(cfg.channel, [SET_ADDRESS, ScanFlip(orientation)])]
      && ret == p.oracle(|old(p.trace)|)
  {
    var param := new bv8[2](_ => 0);
    param[0] := SET_ADDRESS;
    match orientation {
      case Normal =>
        // The panel's default image is mirrored on the x axis
        param[1] := FLIP_HORIZONTAL;
      case Rotated90 =>
        param[1] := FLIP_VERTICAL;
      case Rotated180 =>
        param[1] := 0;
      case Rotated270 =>
        param[1] := FLIP_HORIZONTAL | FLIP_VERTICAL;
      case Other(_) =>
        return -ENOTSUP;
    }
    assert param[..] == [SET_ADDRESS, ScanFlip(orientation)];
    ret := p.MipiDsiGenericWrite(cfg.channel, param[..]);
  }

  /** hx8379_set_pixel_format: only the configured format is accepted;
      nothing is reconfigured either way. */
  function SetPixelFormat(cfg: Config, format: u8): (r: int)
    ensures r == 0 <==> format == cfg.pixelFormat
    ensures r != 0 ==> r == -ENOTSUP
  {
    if format == cfg.pixelFormat then 0 else -ENOTSUP
  }

  /** The display capabilities structure the caller passes in. */
  class Capabilities {
    var xResolution: u16
    var yResolution: u16
    var supportedPixelFormats: nat
    var screenInfo: nat
    var currentPixelFormat: nat
    var currentOrientation: Orientation

    /** memset to zero; the zero orientation is the normal one. */
    method Clear()
      modifies this
      ensures xResolution == 0 && yResolution == 0
      ensures supportedPixelFormats == 0 && screenInfo == 0 && currentPixelFormat == 0
      ensures currentOrientation == Normal
    {
      xResolution, yResolution := 0, 0;
      supportedPixelFormats, screenInfo, currentPixelFormat := 0, 0, 0;
      currentOrientation := Normal;
    }
  }

  /** hx8379_get_capabilities: whatever the structure held, it reports the
      panel's width and height, the configured pixel format as the only
      supported and the current one, the normal orientation, and zero in
      every other field. */
  method GetCapabilities(cfg: Config, caps: Capabilities)
    modifies caps
    ensures caps.xResolution == cfg.panelWidth && caps.yResolution == cfg.panelHeight
    ensures caps.supportedPixelFormats == cfg.pixelFormat as nat
    ensures caps.currentPixelFormat == cfg.pixelFormat as nat
    ensures caps.currentOrientation == Normal
    ensures caps.screenInfo == 0
  {
    caps.Clear();
    caps.xResolution := cfg.panelWidth;
    caps.yResolution := cfg.panelHeight;
    caps.supportedPixelFormats := cfg.pixelFormat as nat;
    caps.currentPixelFormat := cfg.pixelFormat as nat;
    caps.currentOrientation := Normal;
  }

  /** hx8379_blanking_off: drives the backlight line to 1 and returns the
      GPIO result; without a backlight line, -ENOTSUP and no call. No DSI
      command is sent either way. */
  method BlankingOff(cfg: Config, p: Peripherals) returns (ret: int)
    modifies p
    ensures cfg.hasBacklightGpio ==>
      p.trace == old(p.trace) + [Set(Backlight, 1)] && ret == p.oracle(|old(p.trace)|)
    ensures !cfg.hasBacklightGpio ==> ret == -ENOTSUP && p.trace == old(p.trace)
  {
    if cfg.hasBacklightGpio {
      ret := p.GpioPinSetDt(Backlight, 1);
    } else {
      ret := -ENOTSUP;
    }
  }

  /** hx8379_blanking_on: drives the backlight line to 0 and returns the
      GPIO result; without a backlight line, -ENOTSUP and no call. No DSI
      command is sent either way. */
  method BlankingOn(cfg: Config, p: Peripherals) returns (ret: int)
    modifies p
    ensures cfg.hasBacklightGpio ==>
      p.trace == old(p.trace) + [Set(Backlight, 0)] && ret == p.oracle(|old(p.trace)|)
    ensures !cfg.hasBacklightGpio ==> ret == -ENOTSUP && p.trace == old(p.trace)
  {
    if cfg.hasBacklightGpio {
      ret := p.GpioPinSetDt(Backlight, 0);
    } else {
      ret := -ENOTSUP;
    }
  }

  /** Where and how a frame would be written. */
  datatype BufferDescriptor = BufferDescriptor(bufSize: nat, width: u16, height: u16, pitch: u16)

  /** hx8379_write: pixel data goes through the LCD controller, not this
      driver; the call reports success and touches nothing. */
  method Write(p: Peripherals, x: u16, y: u16, desc: BufferDescriptor, buf: seq<bv8>) returns (ret: int)
    ensures ret == 0
  {
    ret := 0;
  }
}
