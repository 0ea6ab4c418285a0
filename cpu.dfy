/**
  The CPU backend's window wrapper: a raster surface in CPU memory, copied into the
  window's shared-memory framebuffer on `present`.
*/
module Cpu {
  import opened Outcomes
  import opened Lifecycle

  class WindowWrapper {
    /** `skia_surface`: absent until the first successful resize. */
    var skiaSurface: Option<SkiaSurface>
    /** `size`: the last size the wrapper accepted. */
    var size: ISize
    /** The read-backs written into the framebuffer and submitted, oldest first. */
    var presented: seq<ReadBack>

    ghost predicate Valid()
      reads this
    {
      && Coherent(skiaSurface, size, Raster)
      && forall i :: 0 <= i < |presented| ==> CopiesWholeSurface(presented[i])
    }

    function Phase(): Phase
      reads this
    {
      PhaseOf(skiaSurface, size)
    }

    /** `wrap`: no surface yet, default size. */
    constructor Wrap()
      ensures Valid()
      ensures skiaSurface == None && size == DEFAULT_SIZE && presented == []
      ensures Phase() == Unready
    {
      skiaSurface := None;
      size := DEFAULT_SIZE;
      presented := [];
    }

    /**
      `resize`: a zero dimension panics; otherwise the framebuffer's resize outcome
      decides. On success a fresh surface of exactly the requested size replaces the
      old one and the size is recorded; on failure the error is returned and nothing changes.
    */
    method Resize(width: U32, height: U32, framebuffer: Result<(), SoftBufferError>) returns (result: Result<(), SoftBufferError>)
      requires Valid()
      requires Admissible(ResizeCall(width, height, framebuffer))
      modifies this
      ensures Valid()
      ensures result == framebuffer
      ensures framebuffer.Ok? ==> && skiaSurface.Some? && fresh(skiaSurface.value)
                                  && skiaSurface.value.width == width && skiaSurface.value.height == height
                                  && size == ISize(width, height)
      ensures framebuffer.Err? ==> skiaSurface == old(skiaSurface) && size == old(size)
      ensures presented == old(presented)
      ensures Phase() == Step(old(Phase()), ResizeCall(width, height, framebuffer))
    {
      match framebuffer {
        case Ok(done) =>
          var surface := CreateSurface(width, height);
          skiaSurface := Some(surface);
          size := ISize(AsI32(width), AsI32(height));
          result := Ok(done);
        case Err(e) =>
          result := Err(e);
      }
    }

    /** `surface`: only legal once a resize has succeeded; the surface has the recorded size. */
    method Surface() returns (surface: SkiaSurface)
      requires Valid()
      requires skiaSurface.Some?
      ensures Some(surface) == skiaSurface
      ensures surface.kind == Raster && surface.width == size.width && surface.height == size.height
      ensures 0 < surface.width && 0 < surface.height
    {
      surface := skiaSurface.value;
    }

    /** `create_surface`: a raster surface of the given size (`raster_n32_premul`). */
    method CreateSurface(width: U32, height: U32) returns (surface: SkiaSurface)
      requires 0 < width <= I32_MAX && 0 < height <= I32_MAX
      ensures fresh(surface)
      ensures surface.kind == Raster && surface.width == width && surface.height == height
    {
      surface := new SkiaSurface(Raster, AsI32(width), AsI32(height));
    }

    /**
      `present`: nothing without a surface; otherwise one read-back of the recorded
      size at a row stride of width * 4 bytes, which copies the whole surface.
    */
    method Present()
      requires Valid()
      modifies this
      ensures Valid()
      ensures skiaSurface == old(skiaSurface) && size == old(size)
      ensures skiaSurface.None? ==> presented == old(presented)
      ensures skiaSurface.Some? ==> presented == old(presented) + [ReadBackFor(skiaSurface.value, size)]
    {
      match skiaSurface {
        case None =>
        case Some(surface) =>
          presented := presented + [ReadBackFor(surface, size)];
      }
    }
  }
}
