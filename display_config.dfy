/** Display topology resolution: the active display paths and the mode records
    the host reports are matched up into one descriptor per path. The host's
    display-configuration calls are the fields of a `Host` value; each may fail. */
module DisplayConfig {
  import opened DotNet

  // Win32 constants the resolver uses (winerror.h, wingdi.h).
  const ErrorSuccess: int32 := 0
  const ErrorInsufficientBuffer: int32 := 122
  const QdcOnlyActivePaths: uint32 := 0x0000_0002
  const ModeInfoTypeSource: uint32 := 1
  const ModeInfoTypeTarget: uint32 := 2
  const ModeInfoTypeDesktopImage: uint32 := 3
  const OutputTechnologyInternal: uint32 := 0x8000_0000

  /** Capacity of the host's `monitorFriendlyDeviceName` buffer, counted here in
      characters (`char` values). */
  const MonitorFriendlyDeviceNameLength: nat := 64

  /** The name given to an internal panel, whose host-reported name is empty. */
  const InternalDisplayName: string := "(Internal)"

  const SourceModeNotFoundMessage: string := "Couldn't find the source mode info."

  /** Two-part locally unique adapter identifier. */
  datatype Luid = Luid(lowPart: uint32, highPart: int32)

  datatype PointL = PointL(x: int32, y: int32)

  datatype SourceMode = SourceMode(width: uint32, height: uint32, pixelFormat: uint32, position: PointL)

  /** One mode record. On the host it is a tagged union of a source mode, a target
      mode and a desktop-image description; `sourceMode` is the view of that union
      the resolver reads, which is meaningful when `infoType` is the source tag. */
  datatype ModeInfo = ModeInfo(infoType: uint32, id: uint32, adapterId: Luid, sourceMode: SourceMode)

  datatype PathSourceInfo = PathSourceInfo(adapterId: Luid, id: uint32)

  datatype PathTargetInfo = PathTargetInfo(adapterId: Luid, id: uint32)

  /** One display path: a source (rendering surface) associated with a target (monitor). */
  datatype PathInfo = PathInfo(sourceInfo: PathSourceInfo, targetInfo: PathTargetInfo)

  // The all-zero structs a freshly allocated C# array holds.
  const ZeroLuid := Luid(0, 0)
  const ZeroPathInfo := PathInfo(PathSourceInfo(ZeroLuid, 0), PathTargetInfo(ZeroLuid, 0))
  const ZeroModeInfo := ModeInfo(0, 0, ZeroLuid, SourceMode(0, 0, 0, PointL(0, 0)))

  /** Reply of the sizing query: a status and the two element counts. */
  datatype BufferSizesReply = BufferSizesReply(status: int32, numPathArrayElements: uint32, numModeInfoArrayElements: uint32)

  /** Reply of the data query: a status and the elements the host wrote into the
      caller's path and mode arrays, from index 0 on. */
  datatype QueryReply = QueryReply(status: int32, pathsWritten: seq<PathInfo>, modesWritten: seq<ModeInfo>)

  /** Reply of the target-name device-info query. `monitorFriendlyDeviceName` is the
      host's fixed-size, NUL-terminated character buffer. */
  datatype TargetDeviceNameReply = TargetDeviceNameReply(status: int32, outputTechnology: uint32, monitorFriendlyDeviceName: seq<char>)

  /** The host's display-configuration interface, one function per call:
      the sizing query and the data query (both given the path-selection flags;
      the data query also the capacities of the caller's arrays), and the
      target-name query keyed by adapter id and target id. */
  datatype Host = Host(
    getDisplayConfigBufferSizes: uint32 -> BufferSizesReply,
    queryDisplayConfig: (uint32, uint32, uint32) -> QueryReply,
    displayConfigGetDeviceInfo: (Luid, uint32) -> TargetDeviceNameReply)

  /** A resolved path, before its friendly name is known. */
  datatype DisplayConfigData = DisplayConfigData(
    configDataId: nat,
    adapterId: Luid,
    targetId: uint32,
    sourceId: uint32,
    leftPosition: int32,
    topPosition: int32,
    horizontalResolution: uint32,
    verticalResolution: uint32)

  /** One monitor descriptor of the enumeration's result. */
  datatype DisplayConfigInfo = DisplayConfigInfo(
    displayId: nat,
    friendlyName: string,
    leftPosition: int32,
    topPosition: int32,
    horizontalResolution: uint32,
    verticalResolution: uint32)

  // ---------------------------------------------------------------------------
  // Specification

  /** Contents of a C# array of `length` elements, zero-initialised, after the
      host wrote `written` into it from index 0. */
  function FilledArray<T>(length: nat, written: seq<T>, zero: T): (a: seq<T>)
    ensures |a| == length
    ensures forall i :: 0 <= i < length ==> a[i] == if i < |written| then written[i] else zero
  {
    seq(length, i requires 0 <= i < length => if i < |written| then written[i] else zero)
  }

  /** `m` is the source mode of the path whose target adapter is `adapterId` and
      whose source id is `sourceId`: both LUID parts and the id agree. */
  predicate IsSourceModeOf(m: ModeInfo, adapterId: Luid, sourceId: uint32)
  {
    && m.infoType == ModeInfoTypeSource
    && m.adapterId.highPart == adapterId.highPart
    && m.adapterId.lowPart == adapterId.lowPart
    && m.id == sourceId
  }

  /** Index of the first source mode of (`adapterId`, `sourceId`) in `modes`, or
      `|modes|` if there is none. */
  function FirstSourceModeIndex(modes: seq<ModeInfo>, adapterId: Luid, sourceId: uint32): (k: nat)
    ensures k <= |modes|
    ensures forall j :: 0 <= j < k ==> !IsSourceModeOf(modes[j], adapterId, sourceId)
    ensures k < |modes| ==> IsSourceModeOf(modes[k], adapterId, sourceId)
    decreases |modes|
  {
    if |modes| == 0 then 0
    else if IsSourceModeOf(modes[0], adapterId, sourceId) then 0
    else 1 + FirstSourceModeIndex(modes[1..], adapterId, sourceId)
  }

  /** What the source-mode search yields: the first matching record, or the
      "not found" exception when no record matches. */
  function SourceModeLookup(modes: seq<ModeInfo>, adapterId: Luid, sourceId: uint32): (r: Result<ModeInfo>)
    ensures r.Success? <==> exists j :: 0 <= j < |modes| && IsSourceModeOf(modes[j], adapterId, sourceId)
    ensures r.Success? ==>
      exists k :: 0 <= k < |modes| && r.value == modes[k] && IsSourceModeOf(modes[k], adapterId, sourceId)
        && forall j :: 0 <= j < k ==> !IsSourceModeOf(modes[j], adapterId, sourceId)
    ensures r.Failure? ==> r.error == InvalidOperationException(SourceModeNotFoundMessage)
  {
    var k := FirstSourceModeIndex(modes, adapterId, sourceId);
    if k < |modes| then Success(modes[k]) else Failure(InvalidOperationException(SourceModeNotFoundMessage))
  }

  /** The source mode of path `p`: keyed by its target adapter and its source id. */
  function PathSourceMode(modes: seq<ModeInfo>, p: PathInfo): Result<ModeInfo>
  {
    SourceModeLookup(modes, p.targetInfo.adapterId, p.sourceInfo.id)
  }

  /** The record emitted for path `p` at index `i` with matched source mode `m`. */
  function ConfigDataOf(i: nat, p: PathInfo, m: ModeInfo): DisplayConfigData
  {
    DisplayConfigData(i, p.targetInfo.adapterId, p.targetInfo.id, p.sourceInfo.id,
                      m.sourceMode.position.x, m.sourceMode.position.y,
                      m.sourceMode.width, m.sourceMode.height)
  }

  /** The loop both phases of the enumeration share: the items are looked up in
      order, the first failed lookup's exception ends the loop, and otherwise item
      `i` with its looked-up value `v` contributes `build(i, item, v)`. */
  function CollectInOrder<X, V, Y>(lookup: X -> Result<V>, build: (nat, X, V) -> Y, items: seq<X>): Result<seq<Y>>
    decreases |items|
  {
    if |items| == 0 then Success([])
    else
      match CollectInOrder(lookup, build, items[..|items| - 1])
      case Failure(e) => Failure(e)
      case Success(collected) =>
        match lookup(items[|items| - 1])
        case Failure(e) => Failure(e)
        case Success(v) => Success(collected + [build(|items| - 1, items[|items| - 1], v)])
  }

  /** The source-mode lookup of the path loop, over the mode array `modes`. */
  function SourceModeLookupOf(modes: seq<ModeInfo>): PathInfo -> Result<ModeInfo>
  {
    p => PathSourceMode(modes, p)
  }

  /** The record the path loop emits for path `p` at index `i` with its source mode. */
  const BuildConfigData: (nat, PathInfo, ModeInfo) -> DisplayConfigData :=
    (i: nat, p: PathInfo, m: ModeInfo) => ConfigDataOf(i, p, m)

  /** The resolved paths: one record per path, in path order, or the exception of
      the first path without a source mode. */
  function ConfigDataFromArrays(pathArray: seq<PathInfo>, modeInfoArray: seq<ModeInfo>): Result<seq<DisplayConfigData>>
  {
    CollectInOrder(SourceModeLookupOf(modeInfoArray), BuildConfigData, pathArray)
  }

  /** The sizing query as the resolver issues it: active paths only. */
  function SizesOf(host: Host): BufferSizesReply
  {
    host.getDisplayConfigBufferSizes(QdcOnlyActivePaths)
  }

  /** The data query as the resolver issues it: active paths only, with exactly
      the capacities the sizing query reported. */
  function QueryOf(host: Host): QueryReply
  {
    var sizes := SizesOf(host);
    host.queryDisplayConfig(QdcOnlyActivePaths, sizes.numPathArrayElements, sizes.numModeInfoArrayElements)
  }

  /** The path array after the data query. */
  function PathArrayOf(host: Host): seq<PathInfo>
  {
    FilledArray(SizesOf(host).numPathArrayElements, QueryOf(host).pathsWritten, ZeroPathInfo)
  }

  /** The mode array after the data query. */
  function ModeArrayOf(host: Host): seq<ModeInfo>
  {
    FilledArray(SizesOf(host).numModeInfoArrayElements, QueryOf(host).modesWritten, ZeroModeInfo)
  }

  /** The active paths resolved against their source modes, or the first failure. */
  function ActiveDisplayConfigData(host: Host): Result<seq<DisplayConfigData>>
  {
    var sizes := SizesOf(host);
    if sizes.status != ErrorSuccess then
      Failure(Win32Exception(sizes.status, "Failed GetDisplayConfigBufferSizes()"))
    else
      var reply := QueryOf(host);
      if reply.status != ErrorSuccess then
        Failure(Win32Exception(reply.status, "Failed QueryDisplayConfig()"))
      else
        ConfigDataFromArrays(PathArrayOf(host), ModeArrayOf(host))
  }

  /** The string the interop marshaller makes of a fixed-size character buffer of
      `limit` characters: the characters before the first NUL, at most `limit`. */
  function NameUpToNul(buffer: seq<char>, limit: nat): (name: string)
    ensures |name| <= limit && |name| <= |buffer|
    ensures name == buffer[..|name|]
    ensures forall k :: 0 <= k < |name| ==> name[k] != '\0'
    ensures |name| < limit && |name| < |buffer| ==> buffer[|name|] == '\0'
    decreases limit
  {
    if limit == 0 || |buffer| == 0 || buffer[0] == '\0' then ""
    else
      var rest := NameUpToNul(buffer[1..], limit - 1);
      assert buffer[1..][..|rest|] == buffer[1..|rest| + 1];
      [buffer[0]] + rest
  }

  /** The friendly name of the target (`adapterId`, `targetId`): the fixed label for
      an internal panel, the host's name otherwise; a failed query throws. */
  function GetDisplayFriendlyName(host: Host, adapterId: Luid, targetId: uint32): (r: Result<string>)
    ensures r.Success? <==> host.displayConfigGetDeviceInfo(adapterId, targetId).status == ErrorSuccess
    ensures r.Failure? ==>
      r.error == Win32Exception(host.displayConfigGetDeviceInfo(adapterId, targetId).status, "Failed DisplayConfigGetDeviceInfo()")
    ensures r.Success? ==> |r.value| <= MonitorFriendlyDeviceNameLength
    ensures r.Success? ==> forall k :: 0 <= k < |r.value| ==> r.value[k] != '\0'
  {
    var targetDeviceName := host.displayConfigGetDeviceInfo(adapterId, targetId);
    if targetDeviceName.status != ErrorSuccess then
      Failure(Win32Exception(targetDeviceName.status, "Failed DisplayConfigGetDeviceInfo()"))
    else if targetDeviceName.outputTechnology == OutputTechnologyInternal then
      Success(InternalDisplayName)
    else
      Success(NameUpToNul(targetDeviceName.monitorFriendlyDeviceName, MonitorFriendlyDeviceNameLength))
  }

  /** The name lookup for one resolved path: by its target adapter and target id. */
  function NameOf(host: Host, d: DisplayConfigData): Result<string>
  {
    GetDisplayFriendlyName(host, d.adapterId, d.targetId)
  }

  /** The descriptor built from record `d` and its friendly name. */
  function InfoOf(d: DisplayConfigData, friendlyName: string): DisplayConfigInfo
  {
    DisplayConfigInfo(d.configDataId, friendlyName, d.leftPosition, d.topPosition,
                      d.horizontalResolution, d.verticalResolution)
  }

  /** The name lookup of the naming loop: record `d` is named by the device-info
      query of its target. */
  function NameLookupOf(host: Host): DisplayConfigData -> Result<string>
  {
    d => NameOf(host, d)
  }

  /** The descriptor the naming loop emits for record `d` with its name. */
  const BuildConfigInfo: (nat, DisplayConfigData, string) -> DisplayConfigInfo :=
    (i: nat, d: DisplayConfigData, name: string) => InfoOf(d, name)

  /** The descriptors of `data`, names looked up in order; the first failed
      lookup's exception ends the round. */
  function ConfigInfosOf(host: Host, data: seq<DisplayConfigData>): Result<seq<DisplayConfigInfo>>
  {
    CollectInOrder(NameLookupOf(host), BuildConfigInfo, data)
  }

  /** The whole enumeration round: resolve the active paths, then name them. */
  function DisplayConfigInfoList(host: Host): Result<seq<DisplayConfigInfo>>
  {
    match ActiveDisplayConfigData(host)
    case Failure(e) => Failure(e)
    case Success(data) => ConfigInfosOf(host, data)
  }

  // ---------------------------------------------------------------------------
  // Implementation

  /** Linear search of the mode records for the source mode of a path. */
  method FindSourceModeInfo(modeInfoArray: seq<ModeInfo>, adapterId: Luid, sourceId: uint32) returns (r: Result<ModeInfo>)
    ensures r == SourceModeLookup(modeInfoArray, adapterId, sourceId)
  {
    for i := 0 to |modeInfoArray|
      invariant forall j :: 0 <= j < i ==> !IsSourceModeOf(modeInfoArray[j], adapterId, sourceId)
    {
      var modeInfo := modeInfoArray[i];
      if modeInfo.infoType == ModeInfoTypeSource &&
         modeInfo.adapterId.highPart == adapterId.highPart && modeInfo.adapterId.lowPart == adapterId.lowPart &&
         modeInfo.id == sourceId
      {
        return Success(modeInfo);
      }
    }
    return Failure(InvalidOperationException(SourceModeNotFoundMessage));
  }

  /** Queries the active paths and mode records and resolves every path. */
  method GetActiveDisplayConfigData(host: Host) returns (r: Result<seq<DisplayConfigData>>)
    ensures r == ActiveDisplayConfigData(host)
  {
    var sizes := host.getDisplayConfigBufferSizes(QdcOnlyActivePaths);
    if sizes.status != ErrorSuccess {
      return Failure(Win32Exception(sizes.status, "Failed GetDisplayConfigBufferSizes()"));
    }

    // The data query fills caller-allocated arrays of exactly the reported sizes.
    var reply := host.queryDisplayConfig(QdcOnlyActivePaths, sizes.numPathArrayElements, sizes.numModeInfoArrayElements);
    var pathArray := new PathInfo[sizes.numPathArrayElements](
      i => if 0 <= i < |reply.pathsWritten| then reply.pathsWritten[i] else ZeroPathInfo);
    var modeInfoArray := new ModeInfo[sizes.numModeInfoArrayElements](
      i => if 0 <= i < |reply.modesWritten| then reply.modesWritten[i] else ZeroModeInfo);
    if reply.status != ErrorSuccess {
      return Failure(Win32Exception(reply.status, "Failed QueryDisplayConfig()"));
    }
    ghost var paths, modes := PathArrayOf(host), ModeArrayOf(host);
    assert pathArray[..] == paths && modeInfoArray[..] == modes;

    var displayConfigDataList: seq<DisplayConfigData> := [];
    for i := 0 to pathArray.Length
      invariant pathArray[..] == paths && modeInfoArray[..] == modes
      invariant ConfigDataFromArrays(paths[..i], modes) == Success(displayConfigDataList)
    {
      var modeInfo := FindSourceModeInfo(modeInfoArray[..], pathArray[i].targetInfo.adapterId, pathArray[i].sourceInfo.id);
      assert paths[..i + 1][..i] == paths[..i];
      if modeInfo.Failure? {
        CollectFailedPrefix(SourceModeLookupOf(modes), BuildConfigData, paths, i + 1);
        return Failure(modeInfo.error);
      }
      displayConfigDataList := displayConfigDataList + [DisplayConfigData(
        i,
        pathArray[i].targetInfo.adapterId,
        pathArray[i].targetInfo.id,
        pathArray[i].sourceInfo.id,
        modeInfo.value.sourceMode.position.x,
        modeInfo.value.sourceMode.position.y,
        modeInfo.value.sourceMode.width,
        modeInfo.value.sourceMode.height)];
    }
    assert paths[..pathArray.Length] == paths;
    return Success(displayConfigDataList);
  }

  /** Enumerates the active displays: one named descriptor per active path. */
  method GetDisplayConfigInfo(host: Host) returns (r: Result<seq<DisplayConfigInfo>>)
    ensures r == DisplayConfigInfoList(host)
  {
    var displayConfigDataArray := GetActiveDisplayConfigData(host);
    if displayConfigDataArray.Failure? {
      return Failure(displayConfigDataArray.error);
    }
    var data := displayConfigDataArray.value;

    var displayConfigInfoList: seq<DisplayConfigInfo> := [];
    for i := 0 to |data|
      invariant ConfigInfosOf(host, data[..i]) == Success(displayConfigInfoList)
    {
      var configData := data[i];
      var friendlyName := GetDisplayFriendlyName(host, configData.adapterId, configData.targetId);
      assert data[..i + 1][..i] == data[..i];
      if friendlyName.Failure? {
        CollectFailedPrefix(NameLookupOf(host), BuildConfigInfo, data, i + 1);
        return Failure(friendlyName.error);
      }
      displayConfigInfoList := displayConfigInfoList + [DisplayConfigInfo(
        configData.configDataId,
        friendlyName.value,
        configData.leftPosition,
        configData.topPosition,
        configData.horizontalResolution,
        configData.verticalResolution)];
    }
    assert data[..|data|] == data;
    return Success(displayConfigInfoList);
  }

  // ---------------------------------------------------------------------------
  // The in-order loop

  /** Once a prefix of the items fails, the whole loop fails the same way. */
  lemma {:induction false} CollectFailedPrefix<X, V, Y>(lookup: X -> Result<V>, build: (nat, X, V) -> Y, items: seq<X>, n: nat)
    requires n <= |items|
    requires CollectInOrder(lookup, build, items[..n]).Failure?
    ensures CollectInOrder(lookup, build, items) == CollectInOrder(lookup, build, items[..n])
    decreases |items| - n
  {
    if n == |items| {
      assert items[..n] == items;
    } else {
      var prefix := items[..|items| - 1];
      assert prefix[..n] == items[..n];
      CollectFailedPrefix(lookup, build, prefix, n);
    }
  }

  /** The loop succeeds exactly when every lookup does. */
  lemma {:induction false} CollectSucceedsIff<X, V, Y>(lookup: X -> Result<V>, build: (nat, X, V) -> Y, items: seq<X>)
    ensures CollectInOrder(lookup, build, items).Success? <==> forall i :: 0 <= i < |items| ==> lookup(items[i]).Success?
    decreases |items|
  {
    if |items| > 0 {
      var prefix, last := items[..|items| - 1], items[|items| - 1];
      CollectSucceedsIff(lookup, build, prefix);
      assert forall i :: 0 <= i < |prefix| ==> prefix[i] == items[i];
      if CollectInOrder(lookup, build, prefix).Failure? {
        var i :| 0 <= i < |prefix| && !lookup(prefix[i]).Success?;
        assert !lookup(items[i]).Success?;
      } else if lookup(last).Failure? {
        assert !lookup(items[|prefix|]).Success?;
      }
    }
  }

  /** A successful loop yields one element per item, in order: element `i` is
      built from item `i` and its looked-up value. */
  lemma {:induction false} CollectValues<X, V, Y>(lookup: X -> Result<V>, build: (nat, X, V) -> Y, items: seq<X>)
    requires CollectInOrder(lookup, build, items).Success?
    ensures |CollectInOrder(lookup, build, items).value| == |items|
    ensures forall i :: 0 <= i < |items| ==>
      lookup(items[i]).Success? && CollectInOrder(lookup, build, items).value[i] == build(i, items[i], lookup(items[i]).value)
    decreases |items|
  {
    if |items| > 0 {
      var prefix, last := items[..|items| - 1], items[|items| - 1];
      assert CollectInOrder(lookup, build, prefix).Success? && lookup(last).Success?;
      CollectValues(lookup, build, prefix);
      var collected := CollectInOrder(lookup, build, prefix).value;
      var all := collected + [build(|prefix|, last, lookup(last).value)];
      assert CollectInOrder(lookup, build, items).value == all;
      forall i | 0 <= i < |items|
        ensures lookup(items[i]).Success? && all[i] == build(i, items[i], lookup(items[i]).value)
      {
        if i < |prefix| {
          assert prefix[i] == items[i] && all[i] == collected[i];
        }
      }
    }
  }

  /** Conversely, a list holding at every index the element built from that item
      and its successful lookup is the loop's result. */
  lemma CollectAll<X, V, Y>(lookup: X -> Result<V>, build: (nat, X, V) -> Y, items: seq<X>, list: seq<Y>)
    requires |list| == |items|
    requires forall i :: 0 <= i < |items| ==>
      lookup(items[i]).Success? && list[i] == build(i, items[i], lookup(items[i]).value)
    ensures CollectInOrder(lookup, build, items) == Success(list)
  {
    CollectSucceedsIff(lookup, build, items);
    CollectValues(lookup, build, items);
    assert CollectInOrder(lookup, build, items).value == list;
  }

  /** A failed loop reports the exception of the first failed lookup; every
      earlier lookup succeeded. */
  lemma {:induction false} CollectFailsOnFirstFailure<X, V, Y>(lookup: X -> Result<V>, build: (nat, X, V) -> Y, items: seq<X>)
    requires CollectInOrder(lookup, build, items).Failure?
    ensures exists i ::
              && 0 <= i < |items|
              && lookup(items[i]).Failure?
              && CollectInOrder(lookup, build, items).error == lookup(items[i]).error
              && (forall j :: 0 <= j < i ==> lookup(items[j]).Success?)
    decreases |items|
  {
    var prefix, last := items[..|items| - 1], items[|items| - 1];
    assert forall i :: 0 <= i < |prefix| ==> prefix[i] == items[i];
    if CollectInOrder(lookup, build, prefix).Failure? {
      CollectFailsOnFirstFailure(lookup, build, prefix);
      var i :| 0 <= i < |prefix| && lookup(prefix[i]).Failure?
        && CollectInOrder(lookup, build, prefix).error == lookup(prefix[i]).error
        && (forall j :: 0 <= j < i ==> lookup(prefix[j]).Success?);
      assert lookup(items[i]).Failure?;
    } else {
      CollectSucceedsIff(lookup, build, prefix);
      assert lookup(items[|prefix|]).Failure?;
    }
  }
}
