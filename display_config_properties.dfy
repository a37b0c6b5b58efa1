/** What one enumeration round guarantees about its result, stated over the host's
    replies: one descriptor per path with contiguous ids, geometry read from the
    matched source mode, names from the target-name query, and no partial list. */
module DisplayConfigProperties {
  import opened DotNet
  import opened DisplayConfig

  /** Both host queries of the data phase succeeded. */
  predicate QueriesSucceed(host: Host)
  {
    SizesOf(host).status == ErrorSuccess && QueryOf(host).status == ErrorSuccess
  }

  /** Every path of the round has a source mode. */
  predicate EveryPathHasSourceMode(host: Host)
  {
    forall i :: 0 <= i < |PathArrayOf(host)| ==> PathSourceMode(ModeArrayOf(host), PathArrayOf(host)[i]).Success?
  }

  /** The name query of path `p`: keyed by its target adapter and target id. */
  function PathName(host: Host, p: PathInfo): Result<string>
  {
    GetDisplayFriendlyName(host, p.targetInfo.adapterId, p.targetInfo.id)
  }

  /** Every path's name query succeeds. */
  predicate EveryPathNamed(host: Host)
  {
    forall i :: 0 <= i < |PathArrayOf(host)| ==> PathName(host, PathArrayOf(host)[i]).Success?
  }

  /** `info` is the descriptor of path `i`: id `i`, position and resolution of the
      path's first source mode, name from the path's target-name query. */
  predicate DescribesPath(host: Host, i: nat, info: DisplayConfigInfo)
    requires i < |PathArrayOf(host)|
  {
    var p := PathArrayOf(host)[i];
    var mode := PathSourceMode(ModeArrayOf(host), p);
    var name := PathName(host, p);
    && mode.Success? && name.Success?
    && info.displayId == i
    && info.leftPosition == mode.value.sourceMode.position.x
    && info.topPosition == mode.value.sourceMode.position.y
    && info.horizontalResolution == mode.value.sourceMode.width
    && info.verticalResolution == mode.value.sourceMode.height
    && info.friendlyName == name.value
  }

  /** The resolved records of a round whose data phase succeeded. */
  lemma ResolvedRecords(host: Host)
    requires ActiveDisplayConfigData(host).Success?
    ensures QueriesSucceed(host) && EveryPathHasSourceMode(host)
    ensures var data := ActiveDisplayConfigData(host).value;
      && |data| == |PathArrayOf(host)|
      && forall i :: 0 <= i < |data| ==>
           data[i] == ConfigDataOf(i, PathArrayOf(host)[i], PathSourceMode(ModeArrayOf(host), PathArrayOf(host)[i]).value)
  {
    var paths, modes := PathArrayOf(host), ModeArrayOf(host);
    CollectSucceedsIff(SourceModeLookupOf(modes), BuildConfigData, paths);
    CollectValues(SourceModeLookupOf(modes), BuildConfigData, paths);
  }

  /** A successful round has exactly one descriptor per path the sizing query
      reported, and descriptor `i` describes path `i`; so the ids are 0 .. n-1 in
      emission order. */
  lemma EnumerationDescribesEveryPath(host: Host)
    requires DisplayConfigInfoList(host).Success?
    ensures var list := DisplayConfigInfoList(host).value;
      && |list| == |PathArrayOf(host)| == SizesOf(host).numPathArrayElements
      && forall i :: 0 <= i < |list| ==> DescribesPath(host, i, list[i])
  {
    ResolvedRecords(host);
    var data := ActiveDisplayConfigData(host).value;
    CollectValues(NameLookupOf(host), BuildConfigInfo, data);
  }

  /** Ids are unique and contiguous from 0. */
  lemma EnumerationIdsContiguous(host: Host)
    requires DisplayConfigInfoList(host).Success?
    ensures var list := DisplayConfigInfoList(host).value;
      && (forall i :: 0 <= i < |list| ==> list[i].displayId == i)
      && (forall i, j :: 0 <= i < j < |list| ==> list[i].displayId != list[j].displayId)
  {
    EnumerationDescribesEveryPath(host);
  }

  /** The round succeeds exactly when both queries succeed, every path has a source
      mode and every path's name query succeeds: a list is either whole or absent. */
  lemma EnumerationSucceedsIff(host: Host)
    ensures DisplayConfigInfoList(host).Success? <==>
      QueriesSucceed(host) && EveryPathHasSourceMode(host) && EveryPathNamed(host)
  {
    if QueriesSucceed(host) {
      CollectSucceedsIff(SourceModeLookupOf(ModeArrayOf(host)), BuildConfigData, PathArrayOf(host));
    }
    if QueriesSucceed(host) && EveryPathHasSourceMode(host) {
      ResolvedRecords(host);
      var data := ActiveDisplayConfigData(host).value;
      CollectSucceedsIff(NameLookupOf(host), BuildConfigInfo, data);
      assert forall i :: 0 <= i < |data| ==> NameOf(host, data[i]) == PathName(host, PathArrayOf(host)[i]);
    }
  }

  /** A path without a source mode fails the whole round with the "not found"
      exception, whatever the other paths and the names are. */
  lemma MissingSourceModeFailsRound(host: Host, i: nat)
    requires QueriesSucceed(host)
    requires i < |PathArrayOf(host)|
    requires forall j :: 0 <= j < |ModeArrayOf(host)| ==>
      !IsSourceModeOf(ModeArrayOf(host)[j], PathArrayOf(host)[i].targetInfo.adapterId, PathArrayOf(host)[i].sourceInfo.id)
    ensures DisplayConfigInfoList(host) == Failure(InvalidOperationException(SourceModeNotFoundMessage))
  {
    var paths, modes := PathArrayOf(host), ModeArrayOf(host);
    assert !PathSourceMode(modes, paths[i]).Success?;
    CollectSucceedsIff(SourceModeLookupOf(modes), BuildConfigData, paths);
    CollectFailsOnFirstFailure(SourceModeLookupOf(modes), BuildConfigData, paths);
  }

  /** A failed sizing query or data query fails the round with a Win32 exception
      carrying the host's status. */
  lemma QueryFailureFailsRound(host: Host)
    ensures SizesOf(host).status != ErrorSuccess ==>
      DisplayConfigInfoList(host) == Failure(Win32Exception(SizesOf(host).status, "Failed GetDisplayConfigBufferSizes()"))
    ensures SizesOf(host).status == ErrorSuccess && QueryOf(host).status != ErrorSuccess ==>
      DisplayConfigInfoList(host) == Failure(Win32Exception(QueryOf(host).status, "Failed QueryDisplayConfig()"))
  {
  }

  /** When the topology grows between the two queries, the data query reports that
      the buffers are too small, and the round fails; the stale sizes are not reused. */
  lemma StaleSizesFailRound(host: Host)
    requires SizesOf(host).status == ErrorSuccess
    requires QueryOf(host).status == ErrorInsufficientBuffer
    ensures DisplayConfigInfoList(host) == Failure(Win32Exception(ErrorInsufficientBuffer, "Failed QueryDisplayConfig()"))
  {
  }

  /** When every path is resolved but some name query fails, the round fails with the
      Win32 exception of the first path whose name query failed. */
  lemma NameFailureFailsRound(host: Host)
    requires QueriesSucceed(host) && EveryPathHasSourceMode(host) && !EveryPathNamed(host)
    ensures DisplayConfigInfoList(host).Failure?
    ensures exists i ::
              && 0 <= i < |PathArrayOf(host)|
              && PathName(host, PathArrayOf(host)[i]).Failure?
              && DisplayConfigInfoList(host).error == PathName(host, PathArrayOf(host)[i]).error
              && (forall j :: 0 <= j < i ==> PathName(host, PathArrayOf(host)[j]).Success?)
  {
    EnumerationSucceedsIff(host);
    CollectSucceedsIff(SourceModeLookupOf(ModeArrayOf(host)), BuildConfigData, PathArrayOf(host));
    ResolvedRecords(host);
    var data := ActiveDisplayConfigData(host).value;
    assert forall i :: 0 <= i < |data| ==> NameOf(host, data[i]) == PathName(host, PathArrayOf(host)[i]);
    CollectFailsOnFirstFailure(NameLookupOf(host), BuildConfigInfo, data);
  }

  /** The source-mode search returns the earliest matching record even if later
      records match too. */
  lemma FirstSourceModeWins(modes: seq<ModeInfo>, adapterId: Luid, sourceId: uint32, k: nat)
    requires k < |modes| && IsSourceModeOf(modes[k], adapterId, sourceId)
    requires forall j :: 0 <= j < k ==> !IsSourceModeOf(modes[j], adapterId, sourceId)
    ensures SourceModeLookup(modes, adapterId, sourceId) == Success(modes[k])
  {
  }

  /** A target reported as an internal panel gets the fixed label, whatever
      character buffer the host filled in. */
  lemma InternalTargetNamedInternal(host: Host, adapterId: Luid, targetId: uint32)
    requires host.displayConfigGetDeviceInfo(adapterId, targetId).status == ErrorSuccess
    requires host.displayConfigGetDeviceInfo(adapterId, targetId).outputTechnology == OutputTechnologyInternal
    ensures GetDisplayFriendlyName(host, adapterId, targetId) == Success(InternalDisplayName)
  {
  }

  /** Any other target gets the host's name: the buffer's characters before its
      first NUL, at most 64 of them. */
  lemma ExternalTargetNamedByHost(host: Host, adapterId: Luid, targetId: uint32)
    requires host.displayConfigGetDeviceInfo(adapterId, targetId).status == ErrorSuccess
    requires host.displayConfigGetDeviceInfo(adapterId, targetId).outputTechnology != OutputTechnologyInternal
    ensures var buffer := host.displayConfigGetDeviceInfo(adapterId, targetId).monitorFriendlyDeviceName;
      var name := GetDisplayFriendlyName(host, adapterId, targetId);
      && name.Success?
      && |name.value| <= MonitorFriendlyDeviceNameLength
      && name.value == buffer[..|name.value|]
      && (|name.value| < MonitorFriendlyDeviceNameLength && |name.value| < |buffer| ==> buffer[|name.value|] == '\0')
  {
  }

  /** The round only looks at the host's answers for active paths and at the name
      queries: two hosts that agree on those give the same result. */
  lemma OnlyActivePathsQueried(h1: Host, h2: Host)
    requires h1.getDisplayConfigBufferSizes(QdcOnlyActivePaths) == h2.getDisplayConfigBufferSizes(QdcOnlyActivePaths)
    requires forall n: uint32, m: uint32 ::
      h1.queryDisplayConfig(QdcOnlyActivePaths, n, m) == h2.queryDisplayConfig(QdcOnlyActivePaths, n, m)
    requires h1.displayConfigGetDeviceInfo == h2.displayConfigGetDeviceInfo
    ensures DisplayConfigInfoList(h1) == DisplayConfigInfoList(h2)
  {
    assert ActiveDisplayConfigData(h1) == ActiveDisplayConfigData(h2);
    if ActiveDisplayConfigData(h1).Success? {
      SameNamesSameInfos(h1, h2, ActiveDisplayConfigData(h1).value);
    }
  }

  lemma {:induction false} SameNamesSameInfos(h1: Host, h2: Host, data: seq<DisplayConfigData>)
    requires h1.displayConfigGetDeviceInfo == h2.displayConfigGetDeviceInfo
    ensures ConfigInfosOf(h1, data) == ConfigInfosOf(h2, data)
    decreases |data|
  {
    if |data| > 0 {
      SameNamesSameInfos(h1, h2, data[..|data| - 1]);
    }
  }

  // The host of a laptop with an external monitor to the right of its panel.
  const PanelAdapter := Luid(0x1234, 0)
  const PanelPath := PathInfo(PathSourceInfo(PanelAdapter, 0), PathTargetInfo(PanelAdapter, 10))
  const ExternalPath := PathInfo(PathSourceInfo(PanelAdapter, 1), PathTargetInfo(PanelAdapter, 11))
  const LaptopModes := [
    ModeInfo(ModeInfoTypeTarget, 10, PanelAdapter, SourceMode(0, 0, 0, PointL(0, 0))),
    ModeInfo(ModeInfoTypeSource, 0, PanelAdapter, SourceMode(1920, 1080, 4, PointL(0, 0))),
    ModeInfo(ModeInfoTypeTarget, 11, PanelAdapter, SourceMode(0, 0, 0, PointL(0, 0))),
    ModeInfo(ModeInfoTypeSource, 1, PanelAdapter, SourceMode(1080, 1920, 4, PointL(1920, 0)))]

  /** A host that reports the laptop: both queries succeed, the data query writes
      the two paths and four mode records, the panel's target is internal and the
      monitor's buffer holds "DELL". */
  predicate IsLaptopHost(host: Host)
  {
    && SizesOf(host) == BufferSizesReply(ErrorSuccess, 2, 4)
    && QueryOf(host) == QueryReply(ErrorSuccess, [PanelPath, ExternalPath], LaptopModes)
    && host.displayConfigGetDeviceInfo(PanelAdapter, 10) == TargetDeviceNameReply(ErrorSuccess, OutputTechnologyInternal, "")
    && host.displayConfigGetDeviceInfo(PanelAdapter, 11) == TargetDeviceNameReply(ErrorSuccess, 5, "DELL\0")
  }

  const LaptopData := [
    DisplayConfigData(0, PanelAdapter, 10, 0, 0, 0, 1920, 1080),
    DisplayConfigData(1, PanelAdapter, 11, 1, 1920, 0, 1080, 1920)]

  lemma LaptopPathsResolved(host: Host)
    requires IsLaptopHost(host)
    ensures ActiveDisplayConfigData(host) == Success(LaptopData)
  {
    assert PathArrayOf(host) == [PanelPath, ExternalPath];
    assert ModeArrayOf(host) == LaptopModes;
    FirstSourceModeWins(LaptopModes, PanelAdapter, 0, 1);
    FirstSourceModeWins(LaptopModes, PanelAdapter, 1, 3);
    var lookup := SourceModeLookupOf(LaptopModes);
    assert lookup(PanelPath) == Success(LaptopModes[1]);
    assert lookup(ExternalPath) == Success(LaptopModes[3]);
    CollectAll(lookup, BuildConfigData, [PanelPath, ExternalPath], LaptopData);
  }

  lemma LaptopNames(host: Host)
    requires IsLaptopHost(host)
    ensures NameOf(host, LaptopData[0]) == Success("(Internal)")
    ensures NameOf(host, LaptopData[1]) == Success("DELL")
  {
    var buffer := "DELL\0";
    assert NameUpToNul(buffer[4..], 60) == "";
    assert NameUpToNul(buffer[3..], 61) == "L";
    assert NameUpToNul(buffer[2..], 62) == "LL";
    assert NameUpToNul(buffer[1..], 63) == "ELL";
    assert NameUpToNul(buffer, 64) == "DELL";
  }

  /** Two active paths, the panel at (0,0) 1920x1080 and a portrait monitor at
      (1920,0) 1080x1920: two descriptors, ids 0 and 1, in that order. */
  lemma TwoActiveMonitors(host: Host)
    requires IsLaptopHost(host)
    ensures DisplayConfigInfoList(host) == Success([
      DisplayConfigInfo(0, "(Internal)", 0, 0, 1920, 1080),
      DisplayConfigInfo(1, "DELL", 1920, 0, 1080, 1920)])
  {
    LaptopPathsResolved(host);
    LaptopNames(host);
    CollectAll(NameLookupOf(host), BuildConfigInfo, LaptopData, [
      DisplayConfigInfo(0, "(Internal)", 0, 0, 1920, 1080),
      DisplayConfigInfo(1, "DELL", 1920, 0, 1080, 1920)]);
  }
}
