/**
 * The static helpers of Vulkanize/Vulkanize.cs: queue-family discovery,
 * the validation-layer check and the surface-support query, with the
 * driver's answers supplied as a Gpu record.
 */
module Vulkanize {
  import opened Wrappers
  import opened VkTypes

  /** Surface support as the engine reads it back from the driver. */
  datatype SwapChainSupportDetails = SwapChainSupportDetails(
    capabilities: SurfaceCapabilities,
    formats: seq<SurfaceFormat>,
    presentModes: seq<PresentMode>)

  datatype QueueFamilyIndices = QueueFamilyIndices(graphicsFamily: Option<nat>, presentFamily: Option<nat>)
  {
    predicate IsComplete()
    {
      graphicsFamily.Some? && presentFamily.Some?
    }
  }

  predicate CanPresent(family: QueueFamily)
  {
    family.presentSupport
  }

  // ---------------------------------------------------------------------------
  // FindQueueFamilies, specified

  /** The index of the last of the first `n` families that `matches`. */
  function LastMatching(families: seq<QueueFamily>, n: nat, matches: QueueFamily -> bool): Option<nat>
    requires n <= |families|
  {
    if n == 0 then None
    else if matches(families[n - 1]) then Some(n - 1)
    else LastMatching(families, n - 1, matches)
  }

  /** Both a graphics and a presenting family occur among the first `n`. */
  predicate CompleteWithin(families: seq<QueueFamily>, n: nat)
    requires n <= |families|
  {
    LastMatching(families, n, HasGraphics).Some? && LastMatching(families, n, CanPresent).Some?
  }

  /**
   * The number of families the scan has visited when it stops, given that it
   * has visited `visited` of them without finding both kinds.
   */
  function ScanLength(families: seq<QueueFamily>, visited: nat): (n: nat)
    requires visited <= |families|
    ensures visited <= n <= |families|
    decreases |families| - visited
  {
    if visited == |families| then visited
    else if CompleteWithin(families, visited + 1) then visited + 1
    else ScanLength(families, visited + 1)
  }

  /**
   * What FindQueueFamilies returns: within the families the scan visits, the
   * last one with the graphics bit and the last one that can present.
   */
  function QueueFamiliesFound(families: seq<QueueFamily>): QueueFamilyIndices
  {
    var n := ScanLength(families, 0);
    QueueFamilyIndices(LastMatching(families, n, HasGraphics), LastMatching(families, n, CanPresent))
  }

  /**
   * Scans the families in increasing index order, overwriting the graphics
   * and present index whenever a family qualifies, and stops as soon as
   * both are set.
   */
  method FindQueueFamilies(families: seq<QueueFamily>) returns (indices: QueueFamilyIndices)
    ensures indices == QueueFamiliesFound(families)
  {
    indices := QueueFamilyIndices(None, None);
    var i := 0;
    while i < |families|
      invariant 0 <= i <= |families|
      invariant indices == QueueFamilyIndices(LastMatching(families, i, HasGraphics), LastMatching(families, i, CanPresent))
      invariant ScanLength(families, i) == ScanLength(families, 0)
    {
      if HasGraphics(families[i]) {
        indices := indices.(graphicsFamily := Some(i));
      }
      if families[i].presentSupport {
        indices := indices.(presentFamily := Some(i));
      }
      if indices.IsComplete() {
        break;
      }
      i := i + 1;
    }
  }

  // ---------------------------------------------------------------------------
  // Properties of the scan

  lemma {:induction false} LastMatchingSpec(families: seq<QueueFamily>, n: nat, matches: QueueFamily -> bool)
    requires n <= |families|
    ensures LastMatching(families, n, matches).None? <==> forall j :: 0 <= j < n ==> !matches(families[j])
    ensures LastMatching(families, n, matches).Some? ==>
              var k := LastMatching(families, n, matches).value;
              k < n && matches(families[k]) && forall j :: k < j < n ==> !matches(families[j])
  {
    if n > 0 && !matches(families[n - 1]) {
      LastMatchingSpec(families, n - 1, matches);
    }
  }

  /** The scan stops at the first prefix holding both kinds, or at the end. */
  lemma {:induction false} ScanLengthSpec(families: seq<QueueFamily>, visited: nat)
    requires visited <= |families|
    ensures var n := ScanLength(families, visited);
            (n == |families| || CompleteWithin(families, n)) &&
            forall j :: visited < j < n ==> !CompleteWithin(families, j)
    decreases |families| - visited
  {
    if visited < |families| && !CompleteWithin(families, visited + 1) {
      ScanLengthSpec(families, visited + 1);
    }
  }

  /** A returned index names a family of the device that has the capability. */
  lemma FoundFamiliesAreCapable(families: seq<QueueFamily>)
    ensures var r := QueueFamiliesFound(families);
            (r.graphicsFamily.Some? ==> r.graphicsFamily.value < |families| && HasGraphics(families[r.graphicsFamily.value])) &&
            (r.presentFamily.Some? ==> r.presentFamily.value < |families| && families[r.presentFamily.value].presentSupport)
  {
    var n := ScanLength(families, 0);
    LastMatchingSpec(families, n, HasGraphics);
    LastMatchingSpec(families, n, CanPresent);
  }

  /** The graphics index stays null exactly when no family has the graphics bit. */
  lemma GraphicsFoundIff(families: seq<QueueFamily>)
    ensures QueueFamiliesFound(families).graphicsFamily.Some? <==>
            exists g :: 0 <= g < |families| && HasGraphics(families[g])
  {
    var n := ScanLength(families, 0);
    ScanLengthSpec(families, 0);
    LastMatchingSpec(families, n, HasGraphics);
    LastMatchingSpec(families, |families|, HasGraphics);
  }

  /** The present index stays null exactly when no family can present. */
  lemma PresentFoundIff(families: seq<QueueFamily>)
    ensures QueueFamiliesFound(families).presentFamily.Some? <==>
            exists p :: 0 <= p < |families| && families[p].presentSupport
  {
    var n := ScanLength(families, 0);
    ScanLengthSpec(families, 0);
    LastMatchingSpec(families, n, CanPresent);
    LastMatchingSpec(families, |families|, CanPresent);
  }

  /** IsComplete holds of the result iff the device has a graphics and a presenting family. */
  lemma FoundCompleteIff(families: seq<QueueFamily>)
    ensures QueueFamiliesFound(families).IsComplete() <==>
            (exists g :: 0 <= g < |families| && HasGraphics(families[g])) &&
            (exists p :: 0 <= p < |families| && families[p].presentSupport)
  {
    GraphicsFoundIff(families);
    PresentFoundIff(families);
  }

  /**
   * The early exit: when both are found, the scan stopped at s, the larger of
   * the two indices, and s is the first index by which both kinds have been
   * seen; each index is the LAST qualifying family up to s, not the first.
   */
  lemma ScanStopsAtFirstComplete(families: seq<QueueFamily>)
    requires QueueFamiliesFound(families).IsComplete()
    ensures var r := QueueFamiliesFound(families);
            var g, p := r.graphicsFamily.value, r.presentFamily.value;
            var s := if g < p then p else g;
            s < |families| &&
            ((forall a :: 0 <= a < s ==> !HasGraphics(families[a])) ||
             (forall b :: 0 <= b < s ==> !families[b].presentSupport)) &&
            (forall j :: g < j <= s ==> !HasGraphics(families[j])) &&
            (forall j :: p < j <= s ==> !families[j].presentSupport)
  {
    var n := ScanLength(families, 0);
    ScanLengthSpec(families, 0);
    LastMatchingSpec(families, n, HasGraphics);
    LastMatchingSpec(families, n, CanPresent);
    var r := QueueFamiliesFound(families);
    var g, p := r.graphicsFamily.value, r.presentFamily.value;
    var s := if g < p then p else g;
    if s < n - 1 {
      LastMatchingSpec(families, n - 1, HasGraphics);
      LastMatchingSpec(families, n - 1, CanPresent);
      assert CompleteWithin(families, n - 1);
      assert false;
    }
    assert s == n - 1;
    if 0 < s {
      assert !CompleteWithin(families, s);
      LastMatchingSpec(families, s, HasGraphics);
      LastMatchingSpec(families, s, CanPresent);
    }
  }

  /** Without an early exit every family is visited, so each index is the last qualifying one overall. */
  lemma IncompleteScanVisitsAll(families: seq<QueueFamily>)
    requires !QueueFamiliesFound(families).IsComplete()
    ensures var r := QueueFamiliesFound(families);
            (r.graphicsFamily.Some? ==> forall j :: r.graphicsFamily.value < j < |families| ==> !HasGraphics(families[j])) &&
            (r.presentFamily.Some? ==> forall j :: r.presentFamily.value < j < |families| ==> !families[j].presentSupport)
  {
    var n := ScanLength(families, 0);
    ScanLengthSpec(families, 0);
    LastMatchingSpec(families, n, HasGraphics);
    LastMatchingSpec(families, n, CanPresent);
  }

  /** A graphics-only family followed by a graphics-and-present family: the second is chosen for graphics. */
  lemma GraphicsIndexIsNotFirst()
    ensures QueueFamiliesFound([QueueFamily(QUEUE_GRAPHICS_BIT, false), QueueFamily(QUEUE_GRAPHICS_BIT | QUEUE_TRANSFER_BIT, true)])
            == QueueFamilyIndices(Some(1), Some(1))
  {
    var fs := [QueueFamily(QUEUE_GRAPHICS_BIT, false), QueueFamily(QUEUE_GRAPHICS_BIT | QUEUE_TRANSFER_BIT, true)];
    assert HasGraphics(fs[0]) && HasGraphics(fs[1]) && !CanPresent(fs[0]) && CanPresent(fs[1]);
    assert LastMatching(fs, 1, CanPresent) == LastMatching(fs, 0, CanPresent) == None;
    assert ScanLength(fs, 0) == ScanLength(fs, 1) == 2;
  }

  // ---------------------------------------------------------------------------
  // CheckValidationLayerSupport and QuerySwapChainSupport

  /**
   * The validation-layer check as written: it asks whether every available
   * layer name is among the available layer names, so it cannot fail,
   * whatever the driver reports.
   */
  function CheckValidationLayerSupport(availableLayers: seq<string>): (supported: bool)
    ensures supported
  {
    var names := set l | l in availableLayers;
    forall name | name in names :: name in names
  }

  /**
   * The present modes as the C# code reads them: the array has one slot per
   * reported mode, but the fill call is given the FORMAT count as capacity,
   * so only the first `capacity` slots are written and the rest keep the
   * default value 0, IMMEDIATE.
   */
  function PresentModesAsRead(reported: seq<PresentMode>, capacity: nat): (modes: seq<PresentMode>)
    ensures |modes| == |reported|
    ensures forall i :: 0 <= i < |modes| ==>
              modes[i] == if i < capacity then reported[i] else PRESENT_MODE_IMMEDIATE
  {
    seq(|reported|, i requires 0 <= i < |reported| => if i < capacity then reported[i] else PRESENT_MODE_IMMEDIATE)
  }

  /**
   * The surface query: capabilities as reported; an empty array when a
   * count is zero; otherwise the arrays the driver fills.
   */
  function QuerySwapChainSupport(gpu: Gpu): (details: SwapChainSupportDetails)
    ensures details.capabilities == gpu.surfaceCapabilities
    ensures |details.formats| == |gpu.surfaceFormats| && |details.presentModes| == |gpu.presentModes|
    ensures |gpu.surfaceFormats| == 0 ==> details.formats == []
    ensures |gpu.presentModes| == 0 ==> details.presentModes == []
  {
    var formats := if |gpu.surfaceFormats| == 0 then [] else gpu.surfaceFormats;
    var modes := if |gpu.presentModes| == 0 then [] else PresentModesAsRead(gpu.presentModes, |gpu.surfaceFormats|);
    SwapChainSupportDetails(gpu.surfaceCapabilities, formats, modes)
  }

  /** The formats are read back exactly, and so are the modes when there are no more modes than formats. */
  lemma {:induction false} SupportReadBackExactly(gpu: Gpu)
    ensures QuerySwapChainSupport(gpu).formats == gpu.surfaceFormats
    ensures |gpu.presentModes| <= |gpu.surfaceFormats| ==> QuerySwapChainSupport(gpu).presentModes == gpu.presentModes
  {
    var modes := QuerySwapChainSupport(gpu).presentModes;
    if |gpu.presentModes| <= |gpu.surfaceFormats| {
      assert forall i :: 0 <= i < |modes| ==> modes[i] == gpu.presentModes[i];
    }
  }

  /**
   * A surface with one format and the modes [FIFO, MAILBOX] is read back as
   * supporting [FIFO, IMMEDIATE]: IMMEDIATE appears though never reported.
   */
  lemma PresentModesMisread(caps: SurfaceCapabilities)
    ensures var gpu := Gpu(0, DiscreteGpu, [], [], caps, [SurfaceFormat(FORMAT_B8G8R8A8_SRGB, COLOR_SPACE_SRGB_NONLINEAR)],
                           [PRESENT_MODE_FIFO, PRESENT_MODE_MAILBOX], {});
            QuerySwapChainSupport(gpu).presentModes == [PRESENT_MODE_FIFO, PRESENT_MODE_IMMEDIATE]
  {
  }
}
