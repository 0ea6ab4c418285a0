# ganvas window wrappers, modelled in Dafny

ganvas lets the Skia 2-D library draw into a winit window through one of several
backends: CPU raster, headless-EGL OpenGL, or Vulkan. Each backend wraps the window in a
`WindowWrapper` that owns a softbuffer framebuffer, an optional drawing surface and the
last accepted size. The wrapper exposes `wrap`, `resize`, `surface` and `present`.

This project models the part of that code that is logic rather than calls into native
libraries:

- `outcomes.dfy` (`Outcomes`): Rust's `Option` and `Result`.
- `lifecycle.dfy` (`Lifecycle`): what the CPU and Vulkan wrappers share.
  - The `u32` → `i32` cast of a resize request.
  - Drawing surfaces, whose size is fixed at creation.
  - The read-back that `present` issues.
  - The two-state lifecycle {Unready, Ready(width, height)} that `resize` drives, with a
    proof that after any run of resizes the wrapper sits at the size of the last resize the
    framebuffer accepted.
- `cpu.rs` becomes `cpu.dfy` (`Cpu.WindowWrapper`): a class whose `Resize` and
  `Present` methods update `skiaSurface`, `size` and the log of read-backs in place.
- `vulkan.rs` becomes `vulkan.dfy` (`Vulkan`). It holds four things:
  - The bootstrap: API-version fallback, physical-device and queue-family selection,
    and the one-queue device request. These are functions of the driver's answers.
  - Teardown, as calls appended to a driver log.
  - A proof that the log keeps "idle before destroy, device before instance".
  - The same wrapper class as the CPU backend, with GPU render targets as surfaces.
- `gl.rs` becomes `gl.dfy` (`Gl`): the EGL selection rules of `wrap`.
  - The first device is taken.
  - The configuration comes from `Iterator::reduce` over sample counts.
  - Context creation tries the core attributes first and falls back once.
  - The configuration template is built off-screen.

Every foreign call is abstracted:
- A call whose outcome the code branches on becomes an input: the framebuffer's resize
  result, the instance-version query, device enumeration, queue-family properties, and
  display/context creation.
- A call that only panics on failure becomes a precondition of a class method, or a named
  fatal step in a pure bootstrap function.

Ties go to the last configuration with the most samples. `Iterator::reduce` passes its
closure `(accumulator, item)`, but the parameters at `gl.rs:49` are named the other way
round, so the accumulator survives only when it has strictly more samples than the item
(`Gl.TieGoesToLater`).

A zero dimension panics in `NonZeroU32::new(..).unwrap()`; the model makes a non-zero
size a precondition of `Resize`.

## Model

| member | source | states |
|---|---|---|
| `Lifecycle.AsI32` | ganvas/src/cpu.rs:38 | the `as i32` cast keeps a `u32` unchanged exactly when it is at most `i32::MAX`; otherwise the result is the value minus 2^32 |
| `Lifecycle.ReadBackFor` | ganvas/src/cpu.rs:67-72 | the read-back uses the stored size, a row stride of 4 × width bytes and origin (0,0); it copies the whole surface exactly when the surface has the stored size |
| `Lifecycle.ReplayIsLastApplied` | ganvas/src/cpu.rs:33-43 | after any run of non-panicking resizes the state is Ready at the size of the last resize the framebuffer accepted, or unchanged if it accepted none |
| `Lifecycle.SecondResizeWins` | ganvas/src/cpu.rs:36-38 | two successful resizes S1 then S2 leave the wrapper Ready(S2), whatever the state before |
| `Cpu.WindowWrapper.Wrap` | ganvas/src/cpu.rs:17-27 | a new wrapper has no surface and the default size (0,0), i.e. Unready |
| `Cpu.WindowWrapper.Resize` | ganvas/src/cpu.rs:29-45 | zero dimensions are excluded; the framebuffer's result is returned; on success a fresh surface of exactly the requested size replaces the old one and the size is recorded; on error the surface and size are unchanged; the invariant (a surface exists only in Ready, with the recorded size) is kept |
| `Cpu.WindowWrapper.Surface` | ganvas/src/cpu.rs:47-53 | the surface is returned only when one exists; it is a raster surface with the recorded, positive size |
| `Cpu.WindowWrapper.CreateSurface` | ganvas/src/cpu.rs:55-61 | a fresh raster surface of the requested width and height |
| `Cpu.WindowWrapper.Present` | ganvas/src/cpu.rs:63-76 | nothing happens without a surface; otherwise exactly one read-back of the stored size at stride 4 × width is submitted, and every read-back ever submitted copies its whole surface |
| `Vulkan.WindowWrapper.Wrap` | ganvas/src/vulkan.rs:25-66 | the device is bootstrapped with the app name "skia-org" (a failure is fatal); the wrapper starts with no surface and default size |
| `Vulkan.WindowWrapper.Resize` | ganvas/src/vulkan.rs:68-84 | the same contract as the CPU resize, with budgeted top-left GPU render targets as surfaces |
| `Vulkan.WindowWrapper.Surface` | ganvas/src/vulkan.rs:86-92 | the surface is returned only after a successful resize; it has the recorded, positive size |
| `Vulkan.WindowWrapper.CreateSurface` | ganvas/src/vulkan.rs:94-111 | a fresh render target, budgeted, origin top-left, of the requested size |
| `Vulkan.WindowWrapper.Present` | ganvas/src/vulkan.rs:113-126 | a no-op without a surface; otherwise one whole-surface read-back at stride 4 × width using the stored size |
| `Vulkan.FirstGraphicsFamily` | ganvas/src/vulkan.rs:236-244 | the result is the lowest index of a graphics-capable queue family; it is none exactly when no family supports graphics |
| `Vulkan.SelectQueueFamily` | ganvas/src/vulkan.rs:233-247 | the selected pair is the first device in enumeration order with a graphics family, and the lowest graphics family on it; earlier devices have none; no selection exactly when no device has one |
| `Vulkan.OnlyGraphicsDeviceSelected` | ganvas/src/vulkan.rs:233-247 | when only device k has a graphics family, device k and its first graphics family are selected |
| `Vulkan.VulkanVersion` | ganvas/src/vulkan.rs:163-175 | a version is reported exactly when the query returned one (a query error counts as none), as its major/minor/patch parts |
| `Vulkan.RequestedApiVersion` | ganvas/src/vulkan.rs:181-193 | the requested version is the detected major.minor.patch with variant 0, else the minimum 1.1.0 |
| `Vulkan.NewAshGraphics` | ganvas/src/vulkan.rs:177-281 | the bootstrap succeeds exactly when every step succeeds and some device has a graphics family. On success the instance asks for the requested version, no layers, the two portability extensions and the portability flag. The device is the first graphics-capable one, with exactly one queue request (one priority) for its first graphics family, and the queue index is 0. A loader failure or an app name containing NUL is fatal at its step |
| `Vulkan.TeardownKeepsSafe` | ganvas/src/vulkan.rs:151-158 | appending the teardown calls to a safe log keeps every device idle before it is destroyed, and no device destroyed after an instance |
| `Vulkan.Drop` | ganvas/src/vulkan.rs:151-158 | teardown appends wait-idle, destroy-device and destroy-instance, in that order, and the driver log stays safe |
| `Gl.OffscreenConfigTemplate` | ganvas/src/gl.rs:121-127 | the template asks for 8 alpha bits and no surface type |
| `Gl.FirstDevice` | ganvas/src/gl.rs:39 | a device is chosen exactly when the list is non-empty, and it is the first one |
| `Gl.Fold` | ganvas/src/gl.rs:48-56 | the reduction returns the starting accumulator or one of the items, with at least as many samples as the accumulator and every item |
| `Gl.ReduceConfigs` | ganvas/src/gl.rs:46-57 | a configuration is chosen exactly when some matched; it is one of them and no matching configuration has more samples |
| `Gl.ReducePicksLastMax` | ganvas/src/gl.rs:48-56 | the chosen configuration is the last one with the maximum sample count |
| `Gl.TieGoesToLater` | ganvas/src/gl.rs:48-56 | sample counts [1, 4, 2, 4] select the configuration at index 3 |
| `Gl.CreateContext` | ganvas/src/gl.rs:65-78 | both attempts are for the chosen config; the core attributes are tried first; the fallback (OpenGL, any version) is tried only after a core failure; there are at most two attempts; no context exactly when both fail |
| `Gl.Wrap` | ganvas/src/gl.rs:27-101 | an empty device list or an empty config list is fatal. On success the device is the first one queried; the configs are those matching the off-screen template; the config is the reduction's choice (the last one with the most samples, so no matching config has more); the context comes from the core-then-fallback creation for that config. The wrapper starts Unready |

## Left out

- Pixel contents, the premultiplied n32 colour format and the `bytemuck` byte
  reinterpretation in `present`. A read-back is recorded by its source, image info, stride
  and origin only.
- Cpu.WindowWrapper.Present and Vulkan.WindowWrapper.Present do not model a failure of
  `buffer_mut().unwrap()` or `soft_buffer.present().unwrap()`, which panic. They also ignore
  the boolean `read_pixels` returns, as the source does.
- Cpu.WindowWrapper.CreateSurface and Vulkan.WindowWrapper.CreateSurface do not model Skia
  running out of memory. The one failure they do capture is a dimension that turns negative
  through the `as i32` cast, which Skia refuses and `unwrap()` turns into a panic. It
  appears as the precondition that an accepted size is at most `i32::MAX`.
- Vulkan.Drop does not model a failing `device_wait_idle().unwrap()`, which would panic
  inside `drop` before anything is destroyed.
- Vulkan.WindowWrapper.Wrap does not model the Skia Vulkan context (`BackendContext`,
  `make_vulkan`), the function-pointer resolver `get_proc`, the handle-to-integer casts,
  or the softbuffer context and surface creation (both `unwrap`).
  These are raw-handle interop with the GPU library. Their failures are fatal and are
  assumed not to happen.
- Cpu.WindowWrapper.Wrap does not model the softbuffer context and surface creation. These
  are foreign calls whose failure panics.
- The bit packing of `make_api_version` and `api_version_major/minor/patch`. A version is
  kept as its four parts.
- The `f32` queue priority 1.0. Only the number of priorities, one, is kept.
- Device and configuration logging with `println!`, and the `Deref`/`AsRef` forwarding to
  the window.
- `gl.rs`'s `resize`, `surface` and `present`. They come from the `impl_window_wrapper!`
  macro, which is not part of this model.
- The desktop-OpenGL backend: its source is not part of this model.
- Window creation and the event loop. They belong to winit.
