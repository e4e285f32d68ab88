/**
 * Queue-family selection (hell_renderer `vulkan/primitives/vulkan_queue.rs`):
 * the scan over a physical device's queue families that picks a graphics,
 * a present and a transfer family, and what is derived from the result.
 * The family properties and the per-family surface-support queries are
 * external; they are parameters.
 */
module Queues {
  import opened Wrappers
  import opened HellErrors
  import opened Seqs

  datatype QueueFlag = Graphics | Compute | Transfer | SparseBinding

  datatype QueueFamilyProperties = QueueFamilyProperties(flags: set<QueueFlag>, queueCount: nat)

  datatype QueueFamily = QueueFamily(idx: nat, properties: QueueFamilyProperties)

  datatype QueueSupport = QueueSupport(
    graphicsFamily: Option<QueueFamily>,
    presentFamily: Option<QueueFamily>,
    transferFamily: Option<QueueFamily>)

  /** A queue of the device: its family and its index in the family. */
  datatype Queue = Queue(familyIdx: nat, queueIdx: nat)

  datatype DeviceQueues = DeviceQueues(graphics: Queue, present: Queue, transfer: Queue)

  const NO_FAMILIES: QueueSupport := QueueSupport(None, None, None)

  /** `is_complete`: all three families were found. */
  predicate IsComplete(s: QueueSupport)
  {
    s.graphicsFamily.Some? && s.presentFamily.Some? && s.transferFamily.Some?
  }

  predicate IsGraphics(p: QueueFamilyProperties)
  {
    Graphics in p.flags
  }

  /** A transfer family is only taken from a family without graphics. */
  predicate IsTransferOnly(p: QueueFamilyProperties)
  {
    Graphics !in p.flags && Transfer in p.flags
  }

  /** The last of the first `k` families that satisfies `p`: later matches overwrite earlier ones. */
  function LastWhere(props: seq<QueueFamilyProperties>, k: nat, p: QueueFamilyProperties -> bool): (r: Option<nat>)
    requires k <= |props|
    ensures r.None? <==> forall j | 0 <= j < k :: !p(props[j])
    ensures r.Some? ==> r.value < k && p(props[r.value]) && forall j | r.value < j < k :: !p(props[j])
  {
    if k == 0 then None
    else if p(props[k - 1]) then Some(k - 1)
    else LastWhere(props, k - 1, p)
  }

  /**
   * The present family after the first `k` families: the surface is asked
   * about each family in turn until one supports presenting; a failed query
   * ends the scan with its error.
   */
  function PresentScan(supported: seq<Result<bool, SourceError>>, k: nat): (r: Result<Option<nat>, SourceError>)
    requires k <= |supported|
    ensures r == Ok(None) <==> forall j | 0 <= j < k :: supported[j] == Ok(false)
    ensures r.Ok? && r.value.Some? ==>
      && r.value.value < k && supported[r.value.value] == Ok(true)
      && forall j | 0 <= j < r.value.value :: supported[j] == Ok(false)
    ensures r.Err? ==> exists j | 0 <= j < k ::
      && supported[j] == Err(r.error)
      && forall l | 0 <= l < j :: supported[l] == Ok(false)
  {
    var first := FindFirst(supported[..k], (x: Result<bool, SourceError>) => x != Ok(false));
    if first.None? then Ok(None)
    else
      var j := first.value;
      assert supported[..k][j] == supported[j] && supported[j] != Ok(false);
      assert forall l | 0 <= l < j :: supported[..k][l] == supported[l];
      if supported[j].Err? then Err(supported[j].error)
      else
        assert supported[j].value;
        assert j < k;
        assert supported[j] == Ok(true);
        Ok(Some(j))
  }

  function FamilyAt(props: seq<QueueFamilyProperties>, i: Option<nat>): (r: Option<QueueFamily>)
    requires i.Some? ==> i.value < |props|
    ensures r.Some? <==> i.Some?
    ensures r.Some? ==> r.value == QueueFamily(i.value, props[i.value])
  {
    if i.None? then None else Some(QueueFamily(i.value, props[i.value]))
  }

  /** The selection after the first `k` families, when no surface query among them failed. */
  function SupportAt(props: seq<QueueFamilyProperties>, supported: seq<Result<bool, SourceError>>, k: nat): QueueSupport
    requires |supported| == |props| && k <= |props| && PresentScan(supported, k).Ok?
  {
    QueueSupport(
      FamilyAt(props, LastWhere(props, k, IsGraphics)),
      FamilyAt(props, PresentScan(supported, k).value),
      FamilyAt(props, LastWhere(props, k, IsTransferOnly)))
  }

  /**
   * `VulkanQueueSupport::new` from family `k` on: the families are scanned
   * in order, a failed surface query is returned as an error, and the scan
   * stops after the first family at which all three are known.
   */
  function SelectFrom(props: seq<QueueFamilyProperties>, supported: seq<Result<bool, SourceError>>, k: nat): HellResult<QueueSupport>
    requires |supported| == |props| && k <= |props| && PresentScan(supported, k).Ok?
    decreases |props| - k
  {
    if k == |props| then Ok(SupportAt(props, supported, k))
    else if PresentScan(supported, k + 1).Err? then Err(FromForeign(PresentScan(supported, k + 1).error))
    else if IsComplete(SupportAt(props, supported, k + 1)) then Ok(SupportAt(props, supported, k + 1))
    else SelectFrom(props, supported, k + 1)
  }

  function Select(props: seq<QueueFamilyProperties>, supported: seq<Result<bool, SourceError>>): HellResult<QueueSupport>
    requires |supported| == |props|
  {
    SelectFrom(props, supported, 0)
  }

  /** One more family: the surface is asked only while no present family is known. */
  lemma PresentScanStep(supported: seq<Result<bool, SourceError>>, k: nat)
    requires k < |supported|
    ensures var prev := PresentScan(supported, k);
      PresentScan(supported, k + 1) ==
        if prev.Err? || prev.value.Some? then prev
        else if supported[k].Err? then Err(supported[k].error)
        else if supported[k].value then Ok(Some(k))
        else Ok(None)
  {
    FindFirstExtend(supported, k, (x: Result<bool, SourceError>) => x != Ok(false));
  }

  /** The number of families the scan from `k` looks at before it stops (or fails). */
  function StopIndex(props: seq<QueueFamilyProperties>, supported: seq<Result<bool, SourceError>>, k: nat): (n: nat)
    requires |supported| == |props| && k <= |props| && PresentScan(supported, k).Ok?
    decreases |props| - k
  {
    if k == |props| then k
    else if PresentScan(supported, k + 1).Err? || IsComplete(SupportAt(props, supported, k + 1)) then k + 1
    else StopIndex(props, supported, k + 1)
  }

  /**
   * Where the scan ends: a successful result is the selection after the
   * first `n` families, where either every family was seen or the `n`-th
   * completed the selection, and no shorter prefix past the start did.
   */
  lemma {:induction false} SelectStopsAtFirstComplete(props: seq<QueueFamilyProperties>, supported: seq<Result<bool, SourceError>>, k: nat)
    requires |supported| == |props| && k <= |props| && PresentScan(supported, k).Ok?
    requires SelectFrom(props, supported, k).Ok?
    ensures var n := StopIndex(props, supported, k);
      && k <= n <= |props|
      && PresentScan(supported, n).Ok?
      && SelectFrom(props, supported, k).value == SupportAt(props, supported, n)
      && (n < |props| ==> IsComplete(SupportAt(props, supported, n)))
      && forall j | k < j < n :: PresentScan(supported, j).Ok? && !IsComplete(SupportAt(props, supported, j))
    decreases |props| - k
  {
    if k == |props| {
      assert StopIndex(props, supported, k) == k;
      return;
    }
    assert PresentScan(supported, k + 1).Ok?;
    if IsComplete(SupportAt(props, supported, k + 1)) {
      assert StopIndex(props, supported, k) == k + 1;
      assert SelectFrom(props, supported, k) == Ok(SupportAt(props, supported, k + 1));
      assert k + 1 < |props| ==> IsComplete(SupportAt(props, supported, k + 1));
    } else {
      SelectStopsAtFirstComplete(props, supported, k + 1);
      var n := StopIndex(props, supported, k + 1);
      assert StopIndex(props, supported, k) == n;
      assert SelectFrom(props, supported, k) == SelectFrom(props, supported, k + 1);
      assert n < |props| ==> IsComplete(SupportAt(props, supported, n));
      forall j | k < j < n
        ensures PresentScan(supported, j).Ok? && !IsComplete(SupportAt(props, supported, j))
      {
        if j == k + 1 {
        }
      }
    }
  }

  /** The scan fails only with the error of a surface query it actually made. */
  lemma {:induction false} SelectErrorIsQueryError(props: seq<QueueFamilyProperties>, supported: seq<Result<bool, SourceError>>, k: nat)
    requires |supported| == |props| && k <= |props| && PresentScan(supported, k).Ok?
    requires SelectFrom(props, supported, k).Err?
    ensures var n := StopIndex(props, supported, k);
      && k < n <= |props|
      && supported[n - 1].Err? && SelectFrom(props, supported, k).error == FromForeign(supported[n - 1].error)
      && PresentScan(supported, n - 1) == Ok(None)
    decreases |props| - k
  {
    assert k < |props|;
    PresentScanStep(supported, k);
    if PresentScan(supported, k + 1).Err? {
      assert StopIndex(props, supported, k) == k + 1;
    } else {
      assert !IsComplete(SupportAt(props, supported, k + 1));
      SelectErrorIsQueryError(props, supported, k + 1);
      assert StopIndex(props, supported, k) == StopIndex(props, supported, k + 1);
    }
  }

  /** `VulkanQueueSupport::new`: the scan, with its early `break` and its `?` on the surface query. */
  method NewQueueSupport(props: seq<QueueFamilyProperties>, supported: seq<Result<bool, SourceError>>)
    returns (r: HellResult<QueueSupport>)
    requires |supported| == |props|
    ensures r == Select(props, supported)
  {
    var result := NO_FAMILIES;
    var i := 0;
    while i < |props|
      invariant i <= |props| && PresentScan(supported, i).Ok?
      invariant result == SupportAt(props, supported, i)
      invariant SelectFrom(props, supported, i) == Select(props, supported)
    {
      PresentScanStep(supported, i);
      if Graphics in props[i].flags {
        result := result.(graphicsFamily := Some(QueueFamily(i, props[i])));
      } else if Transfer in props[i].flags {
        result := result.(transferFamily := Some(QueueFamily(i, props[i])));
      }
      if result.presentFamily.None? {
        if supported[i].Err? {
          return Err(FromForeign(supported[i].error));
        }
        if supported[i].value {
          result := result.(presentFamily := Some(QueueFamily(i, props[i])));
        }
      }
      if IsComplete(result) {
        return Ok(result);
      }
      i := i + 1;
    }
    r := Ok(result);
  }

  /** `single_queue`: whether graphics and present share a family; an error if either is missing. */
  function SingleQueue(s: QueueSupport): (r: HellResult<bool>)
    ensures r.Err? <==> s.graphicsFamily.None? || s.presentFamily.None?
    ensures r.Err? ==> r.error == FromMsg(RenderError, "option is none")
    ensures r.Ok? ==> (r.value <==> s.graphicsFamily.value.idx == s.presentFamily.value.idx)
  {
    var g := OptToRenderHellErr(s.graphicsFamily);
    if g.Err? then Err(g.error)
    else
      var p := OptToRenderHellErr(s.presentFamily);
      if p.Err? then Err(p.error) else Ok(g.value.idx == p.value.idx)
  }

  /** `indices`: the family indices in use, a repeated index counted once. */
  function Indices(s: QueueSupport): (r: set<nat>)
    ensures forall x :: x in r <==>
      || (s.graphicsFamily.Some? && s.graphicsFamily.value.idx == x)
      || (s.presentFamily.Some? && s.presentFamily.value.idx == x)
      || (s.transferFamily.Some? && s.transferFamily.value.idx == x)
    ensures |r| <= 3
    ensures IsComplete(s) ==> 1 <= |r|
  {
    var g := if s.graphicsFamily.Some? then {s.graphicsFamily.value.idx} else {};
    var p := if s.presentFamily.Some? then {s.presentFamily.value.idx} else {};
    var t := if s.transferFamily.Some? then {s.transferFamily.value.idx} else {};
    g + p + t
  }

  /** `VulkanQueues::from_support`: queue 0 of each family; an error when any family is missing. */
  function FromSupport(s: QueueSupport): (r: HellResult<DeviceQueues>)
    ensures r.Ok? <==> IsComplete(s)
    ensures r.Err? ==> r.error == FromMsg(RenderError, "option is none")
    ensures r.Ok? ==> r.value == DeviceQueues(
      Queue(s.graphicsFamily.value.idx, 0), Queue(s.presentFamily.value.idx, 0), Queue(s.transferFamily.value.idx, 0))
  {
    var g := OptToRenderHellErr(s.graphicsFamily);
    if g.Err? then Err(g.error)
    else
      var p := OptToRenderHellErr(s.presentFamily);
      if p.Err? then Err(p.error)
      else
        var t := OptToRenderHellErr(s.transferFamily);
        if t.Err? then Err(t.error)
        else Ok(DeviceQueues(Queue(g.value.idx, 0), Queue(p.value.idx, 0), Queue(t.value.idx, 0)))
  }
}
