/**
  The Vulkan backend: bootstrapping a throwaway logical device (API version,
  physical device and queue family selection, one queue), tearing it down in a
  fixed order, and the same surface lifecycle as the CPU backend with GPU render
  targets as surfaces. Every call into the Vulkan loader or driver is an input.
*/
module Vulkan {
  import opened Outcomes
  import opened Lifecycle

  /** An opaque Vulkan handle (instance, physical device, device or queue). */
  datatype Handle = Handle(raw: nat)

  datatype QueueFlag = Graphics | Compute | Transfer | SparseBinding | Protected

  datatype QueueFamilyProperties = QueueFamilyProperties(queueFlags: set<QueueFlag>, queueCount: nat)

  /** A physical device as enumerated, with the queue families the driver reports for it. */
  datatype PhysicalDevice = PhysicalDevice(handle: Handle, queueFamilies: seq<QueueFamilyProperties>)

  predicate SupportsGraphics(family: QueueFamilyProperties) {
    Graphics in family.queueFlags
  }

  predicate HasGraphicsFamily(device: PhysicalDevice) {
    exists j :: 0 <= j < |device.queueFamilies| && SupportsGraphics(device.queueFamilies[j])
  }

  /** The inner `enumerate().find_map`: the index of the first graphics-capable family. */
  function FirstGraphicsFamily(families: seq<QueueFamilyProperties>): (r: Option<nat>)
    ensures r.Some? ==> && r.value < |families| && SupportsGraphics(families[r.value])
                        && forall j :: 0 <= j < r.value ==> !SupportsGraphics(families[j])
    ensures r.None? ==> forall j :: 0 <= j < |families| ==> !SupportsGraphics(families[j])
    decreases |families|
  {
    if |families| == 0 then None
    else if SupportsGraphics(families[0]) then Some(0)
    else match FirstGraphicsFamily(families[1..])
      case None => None
      case Some(i) => Some(i + 1)
  }

  /** The pair the bootstrap keeps, with the device's position in enumeration order. */
  datatype Selection = Selection(position: nat, device: Handle, queueFamily: nat)

  /**
    The outer `map(..).find_map(|v| v)`: the first device, in enumeration order, that
    has a graphics-capable family, and the lowest such family on it.
  */
  function SelectQueueFamily(devices: seq<PhysicalDevice>): (r: Option<Selection>)
    ensures r.None? <==> forall p :: 0 <= p < |devices| ==> !HasGraphicsFamily(devices[p])
    ensures r.Some? ==> var s := r.value;
      && s.position < |devices| && s.device == devices[s.position].handle
      && s.queueFamily < |devices[s.position].queueFamilies|
      && SupportsGraphics(devices[s.position].queueFamilies[s.queueFamily])
      && (forall j :: 0 <= j < s.queueFamily ==> !SupportsGraphics(devices[s.position].queueFamilies[j]))
      && (forall p :: 0 <= p < s.position ==> !HasGraphicsFamily(devices[p]))
    decreases |devices|
  {
    if |devices| == 0 then None
    else match FirstGraphicsFamily(devices[0].queueFamilies)
      case Some(f) => Some(Selection(0, devices[0].handle, f))
      case None =>
        match SelectQueueFamily(devices[1..])
        case None => None
        case Some(s) => Some(s.(position := s.position + 1))
  }

  /** When exactly one device can do graphics, that device and its first graphics family are chosen. */
  lemma OnlyGraphicsDeviceSelected(devices: seq<PhysicalDevice>, k: nat)
    requires k < |devices| && HasGraphicsFamily(devices[k])
    requires forall p :: 0 <= p < |devices| && p != k ==> !HasGraphicsFamily(devices[p])
    ensures SelectQueueFamily(devices).Some?
    ensures var s := SelectQueueFamily(devices).value;
      s.position == k && s.device == devices[k].handle
      && Some(s.queueFamily) == FirstGraphicsFamily(devices[k].queueFamilies)
  {
  }

  /** A packed Vulkan API version, unpacked (variant, major, minor, patch). */
  datatype ApiVersion = ApiVersion(variant: nat, major: nat, minor: nat, patch: nat)

  /** The minimum version Skia supports, requested when none can be detected. */
  const MINIMUM_VERSION := ApiVersion(0, 1, 1, 0)

  /** What `try_enumerate_instance_version` returned: an error, `Ok(None)` (Vulkan 1.0), or a version. */
  datatype VersionQuery = QueryFailed | Unsupported | Detected(version: ApiVersion)

  /** `vulkan_version`: an error counts as no version (`unwrap_or(None)`); a version is split into its parts. */
  function VulkanVersion(query: VersionQuery): (r: Option<(nat, nat, nat)>)
    ensures r.Some? <==> query.Detected?
    ensures query.Detected? ==> r.value == (query.version.major, query.version.minor, query.version.patch)
  {
    match query
    case Detected(v) => Some((v.major, v.minor, v.patch))
    case _ => None
  }

  /** The version put in the application info: the detected one rebuilt with variant 0, else 1.1.0. */
  function RequestedApiVersion(query: VersionQuery): (v: ApiVersion)
    ensures v.variant == 0
    ensures query.Detected? ==> (v.major, v.minor, v.patch) == (query.version.major, query.version.minor, query.version.patch)
    ensures !query.Detected? ==> v == MINIMUM_VERSION
  {
    match VulkanVersion(query)
    case Some((major, minor, patch)) => ApiVersion(0, major, minor, patch)
    case None => MINIMUM_VERSION
  }

  datatype InstanceExtension = GetPhysicalDeviceProperties2 | PortabilityEnumeration

  datatype InstanceCreateFlag = EnumeratePortability

  datatype InstanceCreateInfo = InstanceCreateInfo(
    applicationName: string,
    engineName: string,
    apiVersion: ApiVersion,
    enabledLayers: seq<string>,
    enabledExtensions: seq<InstanceExtension>,
    flags: set<InstanceCreateFlag>)

  /** One queue request; the priorities themselves are floats and only their number is kept. */
  datatype QueueCreateInfo = QueueCreateInfo(queueFamilyIndex: nat, priorityCount: nat)

  datatype DeviceCreateInfo = DeviceCreateInfo(queueCreateInfos: seq<QueueCreateInfo>, enabledExtensions: seq<string>)

  /** `AshGraphics`: what the bootstrap built and keeps until teardown. */
  datatype AshGraphics = AshGraphics(
    instanceInfo: InstanceCreateInfo,
    instance: Handle,
    physicalDevice: Handle,
    deviceInfo: DeviceCreateInfo,
    device: Handle,
    queue: Handle,
    queueIndex: nat)

  /** The driver's answers to each bootstrap call. */
  datatype VkPlatform = VkPlatform(
    entryLoads: bool,
    versionQuery: VersionQuery,
    createInstance: Option<Handle>,
    physicalDevices: Option<seq<PhysicalDevice>>,
    createDevice: Option<Handle>,
    deviceQueue: Handle)

  /** The bootstrap step that failed; each one is fatal. */
  datatype BootstrapFailure = EntryLoad | ApplicationName | InstanceCreation | DeviceEnumeration | NoSuitableDevice | DeviceCreation

  const APP_NAME := "skia-org"

  /**
    `AshGraphics::new`: each step in order, the first failure fatal. On success the
    instance asks for the requested API version, the two portability extensions and
    the portability flag, and the device for exactly one queue of the selected
    family, kept as queue index 0.
  */
  function NewAshGraphics(appName: string, platform: VkPlatform): (r: Result<AshGraphics, BootstrapFailure>)
    ensures !platform.entryLoads ==> r == Err(EntryLoad)
    ensures platform.entryLoads && 0 as char in appName ==> r == Err(ApplicationName)
    ensures r.Ok? <==> && platform.entryLoads && 0 as char !in appName
                       && platform.createInstance.Some? && platform.physicalDevices.Some?
                       && SelectQueueFamily(platform.physicalDevices.value).Some?
                       && platform.createDevice.Some?
    ensures r.Ok? ==> var g := r.value; var devices := platform.physicalDevices.value;
      && g.instanceInfo.apiVersion == RequestedApiVersion(platform.versionQuery)
      && g.instanceInfo.applicationName == appName
      && g.instanceInfo.enabledLayers == []
      && g.instanceInfo.enabledExtensions == [GetPhysicalDeviceProperties2, PortabilityEnumeration]
      && g.instanceInfo.flags == {EnumeratePortability}
      && (exists p :: && 0 <= p < |devices| && g.physicalDevice == devices[p].handle
                      && (forall q :: 0 <= q < p ==> !HasGraphicsFamily(devices[q]))
                      && |g.deviceInfo.queueCreateInfos| == 1
                      && Some(g.deviceInfo.queueCreateInfos[0].queueFamilyIndex) == FirstGraphicsFamily(devices[p].queueFamilies))
      && g.deviceInfo.queueCreateInfos[0].priorityCount == 1
      && g.deviceInfo.enabledExtensions == []
      && g.queueIndex == 0
  {
    if !platform.entryLoads then Err(EntryLoad)
    else
      var apiVersion := RequestedApiVersion(platform.versionQuery);
      if 0 as char in appName then Err(ApplicationName)
      else
        var instanceInfo := InstanceCreateInfo(appName, appName, apiVersion, [],
                                               [GetPhysicalDeviceProperties2, PortabilityEnumeration],
                                               {EnumeratePortability});
        match platform.createInstance
        case None => Err(InstanceCreation)
        case Some(instance) =>
          match platform.physicalDevices
          case None => Err(DeviceEnumeration)
          case Some(devices) =>
            match SelectQueueFamily(devices)
            case None => Err(NoSuitableDevice)
            case Some(selection) =>
              var deviceInfo := DeviceCreateInfo([QueueCreateInfo(selection.queueFamily, 1)], []);
              match platform.createDevice
              case None => Err(DeviceCreation)
              case Some(device) =>
                Ok(AshGraphics(instanceInfo, instance, selection.device, deviceInfo, device, platform.deviceQueue, 0))
  }

  /** A call into the driver, as teardown issues them. */
  datatype VkCall = DeviceWaitIdle(device: Handle) | DestroyDevice(device: Handle) | DestroyInstance(instance: Handle)

  /**
    A driver call log is safe to tear down with: every device is waited idle before it
    is destroyed, and no device is destroyed after an instance. The log is that of a
    single instance, so the second rule does not distinguish owners.
  */
  ghost predicate SafeTeardown(log: seq<VkCall>) {
    && (forall j :: 0 <= j < |log| && log[j].DestroyDevice? ==>
          exists i :: 0 <= i < j && log[i] == DeviceWaitIdle(log[j].device))
    && (forall i, j :: 0 <= i < j < |log| && log[i].DestroyInstance? ==> !log[j].DestroyDevice?)
  }

  /** The calls `Drop for AshGraphics` issues, in order. */
  function TeardownCalls(g: AshGraphics): seq<VkCall> {
    [DeviceWaitIdle(g.device), DestroyDevice(g.device), DestroyInstance(g.instance)]
  }

  /** Appending a teardown to a safe log with no instance destroyed yet keeps it safe. */
  lemma {:induction false} TeardownKeepsSafe(log: seq<VkCall>, g: AshGraphics)
    requires SafeTeardown(log)
    requires forall i :: 0 <= i < |log| ==> !log[i].DestroyInstance?
    ensures SafeTeardown(log + TeardownCalls(g))
  {
    var all := log + TeardownCalls(g);
    var n := |log|;
    forall j | 0 <= j < |all| && all[j].DestroyDevice?
      ensures exists i :: 0 <= i < j && all[i] == DeviceWaitIdle(all[j].device)
    {
      if j < n {
        var i :| 0 <= i < j && log[i] == DeviceWaitIdle(log[j].device);
        assert all[i] == log[i];
      } else {
        assert j == n + 1 && all[n] == DeviceWaitIdle(all[j].device);
      }
    }
  }

  /**
    The Vulkan driver, seen through the calls made to it. One log covers the
    lifetime of one instance: `SafeTeardown` orders every device destruction before
    any instance destruction without tracking which instance owns which device.
  */
  class Driver {
    var calls: seq<VkCall>

    constructor ()
      ensures calls == []
    {
      calls := [];
    }
  }

  /** `Drop for AshGraphics`: wait for the device to go idle, destroy the device, then the instance. */
  method Drop(g: AshGraphics, driver: Driver)
    requires SafeTeardown(driver.calls)
    requires forall i :: 0 <= i < |driver.calls| ==> !driver.calls[i].DestroyInstance?
    modifies driver
    ensures driver.calls == old(driver.calls) + TeardownCalls(g)
    ensures SafeTeardown(driver.calls)
  {
    TeardownKeepsSafe(driver.calls, g);
    driver.calls := driver.calls + [DeviceWaitIdle(g.device)];
    driver.calls := driver.calls + [DestroyDevice(g.device)];
    driver.calls := driver.calls + [DestroyInstance(g.instance)];
  }

  /** The Vulkan backend's window wrapper; the same lifecycle as the CPU one, with GPU render targets. */
  class WindowWrapper {
    const graphics: AshGraphics
    var skiaSurface: Option<SkiaSurface>
    var size: ISize
    var presented: seq<ReadBack>

    ghost predicate Valid()
      reads this
    {
      && Coherent(skiaSurface, size, RenderTarget(true, TopLeft))
      && forall i :: 0 <= i < |presented| ==> CopiesWholeSurface(presented[i])
    }

    function Phase(): Phase
      reads this
    {
      PhaseOf(skiaSurface, size)
    }

    /** `wrap`: bootstraps the device (fatal on failure), then starts with no surface and default size. */
    constructor Wrap(platform: VkPlatform)
      requires NewAshGraphics(APP_NAME, platform).Ok?
      ensures Valid()
      ensures graphics == NewAshGraphics(APP_NAME, platform).value
      ensures skiaSurface == None && size == DEFAULT_SIZE && presented == []
      ensures Phase() == Unready
    {
      graphics := NewAshGraphics(APP_NAME, platform).value;
      skiaSurface := None;
      size := DEFAULT_SIZE;
      presented := [];
    }

    /** `resize`: as in the CPU backend. */
    method Resize(width: U32, height: U32, framebuffer: Result<(), SoftBufferError>) returns (result: Result<(), SoftBufferError>)
      requires Valid()
      requires Admissible(ResizeCall(width, height, framebuffer))
      modifies this
      ensures Valid()
      ensures result == framebuffer
      ensures framebuffer.Ok? ==> && skiaSurface.Some? && fresh(skiaSurface.value)
                                  && skiaSurface.value.width == width && skiaSurface.value.height == height
                                  && size == ISize(width, height)
      ensures framebuffer.Err? ==> skiaSurface == old(skiaSurface) && size == old(size)
      ensures presented == old(presented)
      ensures Phase() == Step(old(Phase()), ResizeCall(width, height, framebuffer))
    {
      match framebuffer {
        case Ok(done) =>
          var surface := CreateSurface(width, height);
          skiaSurface := Some(surface);
          size := ISize(AsI32(width), AsI32(height));
          result := Ok(done);
        case Err(e) =>
          result := Err(e);
      }
    }

    /** `surface`: only legal once a resize has succeeded. */
    method Surface() returns (surface: SkiaSurface)
      requires Valid()
      requires skiaSurface.Some?
      ensures Some(surface) == skiaSurface
      ensures surface.kind == RenderTarget(true, TopLeft) && surface.width == size.width && surface.height == size.height
      ensures 0 < surface.width && 0 < surface.height
    {
      surface := skiaSurface.value;
    }

    /** `create_surface`: a budgeted, top-left-origin GPU render target of the given size. */
    method CreateSurface(width: U32, height: U32) returns (surface: SkiaSurface)
      requires 0 < width <= I32_MAX && 0 < height <= I32_MAX
      ensures fresh(surface)
      ensures surface.kind == RenderTarget(true, TopLeft) && surface.width == width && surface.height == height
    {
      surface := new SkiaSurface(RenderTarget(true, TopLeft), AsI32(width), AsI32(height));
    }

    /** `present`: as in the CPU backend. */
    method Present()
      requires Valid()
      modifies this
      ensures Valid()
      ensures skiaSurface == old(skiaSurface) && size == old(size)
      ensures skiaSurface.None? ==> presented == old(presented)
      ensures skiaSurface.Some? ==> presented == old(presented) + [ReadBackFor(skiaSurface.value, size)]
    {
      match skiaSurface {
        case None =>
        case Some(surface) =>
          presented := presented + [ReadBackFor(surface, size)];
      }
    }
  }
}
