/**
  What the CPU and Vulkan window wrappers share: the integer widths of a resize
  request, the drawing surface they allocate, the read-back that `present` performs,
  and the two-state lifecycle {Unready, Ready(width, height)} that `resize` drives.
*/
module Lifecycle {
  import opened Outcomes

  /** `u32`, the type of `PhysicalSize<u32>`'s width and height. */
  type U32 = x: int | 0 <= x < 0x1_0000_0000

  const I32_MAX: int := 0x7fff_ffff
  const I32_MIN: int := -0x8000_0000

  /** Rust's `x as i32` on a `u32`: the same 32 bits read as two's complement. */
  function AsI32(x: U32): (r: int)
    ensures I32_MIN <= r <= I32_MAX
    ensures r == x <==> x <= I32_MAX
    ensures r == x || r == x - 0x1_0000_0000
  {
    if x <= I32_MAX then x else x - 0x1_0000_0000
  }

  /** `skia_safe::ISize`: two `i32`s; `Default::default()` is (0, 0). */
  datatype ISize = ISize(width: int, height: int)

  const DEFAULT_SIZE := ISize(0, 0)

  /** The framebuffer's own error type, passed through unchanged by `resize`. */
  datatype SoftBufferError = SoftBufferError(code: nat)

  datatype Origin = TopLeft | BottomLeft

  /** How a drawing surface was allocated: in CPU memory, or as a GPU render target. */
  datatype SurfaceKind = Raster | RenderTarget(budgeted: bool, origin: Origin)

  /** A drawing surface. Its dimensions are fixed when it is created: a new size needs a new surface. */
  class SkiaSurface {
    const kind: SurfaceKind
    const width: int
    const height: int

    constructor (kind: SurfaceKind, width: int, height: int)
      ensures this.kind == kind && this.width == width && this.height == height
    {
      this.kind := kind;
      this.width := width;
      this.height := height;
    }
  }

  /** `ImageInfo::new_n32_premul`: 32-bit premultiplied pixels, 4 bytes each. */
  datatype ImageInfo = N32Premul(width: int, height: int)

  const BYTES_PER_PIXEL := 4

  /** One `read_pixels` call into the framebuffer's bytes, followed by its submission. */
  datatype ReadBack = ReadBack(source: SkiaSurface, info: ImageInfo, dstRowBytes: int, srcX: int, srcY: int)

  /** The read-back copies the whole source surface, row by row, with packed rows. */
  predicate CopiesWholeSurface(r: ReadBack) {
    && r.info.width == r.source.width && r.info.height == r.source.height
    && r.srcX == 0 && r.srcY == 0
    && r.dstRowBytes == BYTES_PER_PIXEL * r.info.width
  }

  /** The read-back `present` issues for a surface, given the size the wrapper recorded. */
  function ReadBackFor(surface: SkiaSurface, size: ISize): (r: ReadBack)
    ensures r.source == surface && r.dstRowBytes == BYTES_PER_PIXEL * size.width
    ensures CopiesWholeSurface(r) <==> surface.width == size.width && surface.height == size.height
  {
    ReadBack(surface, N32Premul(size.width, size.height), size.width * 4, 0, 0)
  }

  /** The wrapper's invariant: a surface exists exactly in Ready, and then its size is the recorded size. */
  predicate Coherent(surface: Option<SkiaSurface>, size: ISize, kind: SurfaceKind) {
    match surface
    case None => size == DEFAULT_SIZE
    case Some(s) => s.kind == kind && s.width == size.width && s.height == size.height && 0 < size.width && 0 < size.height
  }

  /** The two lifecycle states. */
  datatype Phase = Unready | Ready(width: int, height: int)

  function PhaseOf(surface: Option<SkiaSurface>, size: ISize): Phase {
    if surface.None? then Unready else Ready(size.width, size.height)
  }

  /** One `resize` call: the requested size and what the framebuffer's own resize returned. */
  datatype ResizeCall = ResizeCall(width: U32, height: U32, framebuffer: Result<(), SoftBufferError>)

  /**
    The calls `resize` accepts without panicking: both dimensions non-zero
    (`NonZeroU32::new(..).unwrap()`), and, when the framebuffer accepted the size,
    dimensions that stay positive through the `as i32` cast (otherwise the surface
    allocation's `unwrap()` panics).
  */
  predicate Admissible(c: ResizeCall) {
    && 0 < c.width && 0 < c.height
    && (c.framebuffer.Ok? ==> c.width <= I32_MAX && c.height <= I32_MAX)
  }

  /** The effect of one `resize` call on the lifecycle. */
  function Step(p: Phase, c: ResizeCall): Phase {
    if c.framebuffer.Ok? then Ready(AsI32(c.width), AsI32(c.height)) else p
  }

  /** The lifecycle after a run of `resize` calls, in call order. */
  function Replay(p: Phase, calls: seq<ResizeCall>): Phase
    decreases |calls|
  {
    if |calls| == 0 then p else Replay(Step(p, calls[0]), calls[1..])
  }

  /** The most recent call whose framebuffer resize succeeded, searching from the end. */
  function LastApplied(calls: seq<ResizeCall>): (r: Option<ResizeCall>)
    ensures r.Some? ==> r.value in calls && r.value.framebuffer.Ok?
    decreases |calls|
  {
    if |calls| == 0 then None
    else if calls[|calls| - 1].framebuffer.Ok? then Some(calls[|calls| - 1])
    else LastApplied(calls[..|calls| - 1])
  }

  lemma {:induction false} ReplaySnoc(p: Phase, calls: seq<ResizeCall>, c: ResizeCall)
    ensures Replay(p, calls + [c]) == Step(Replay(p, calls), c)
    decreases |calls|
  {
    if |calls| == 0 {
      assert calls + [c] == [c];
    } else {
      assert (calls + [c])[1..] == calls[1..] + [c];
      ReplaySnoc(Step(p, calls[0]), calls[1..], c);
    }
  }

  /**
    After any run of admissible resizes the wrapper is Ready with the size of the
    last call the framebuffer accepted, or in its starting phase if it accepted none:
    failed calls leave no trace, and each success replaces what came before.
  */
  lemma {:induction false} ReplayIsLastApplied(p: Phase, calls: seq<ResizeCall>)
    requires forall i :: 0 <= i < |calls| ==> Admissible(calls[i])
    ensures Replay(p, calls) == match LastApplied(calls)
                                case None => p
                                case Some(c) => Ready(c.width, c.height)
    decreases |calls|
  {
    if |calls| != 0 {
      var init, last := calls[..|calls| - 1], calls[|calls| - 1];
      assert calls == init + [last];
      ReplaySnoc(p, init, last);
      ReplayIsLastApplied(p, init);
    }
  }

  /** Two successful resizes leave the wrapper Ready at the second size, whatever came before. */
  lemma SecondResizeWins(p: Phase, first: ResizeCall, second: ResizeCall)
    requires Admissible(first) && Admissible(second)
    requires first.framebuffer.Ok? && second.framebuffer.Ok?
    ensures Replay(p, [first, second]) == Ready(second.width, second.height)
  {
    ReplayIsLastApplied(p, [first, second]);
  }
}
