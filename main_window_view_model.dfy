/** The preview window's view model: the refresh-rate field guarded by its bounds,
    the settings-panel / update-timer pair, and the list of target screens rebuilt
    from a display enumeration. */
module ViewModels {
  import opened DotNet
  import DisplayConfig

  /** A selectable target screen, as the settings panel lists it. */
  datatype TargetScreen = TargetScreen(friendlyName: string, left: int32, top: int32, width: int32, height: int32)

  /** The target screen shown for one monitor descriptor; the unsigned resolution
      goes through C#'s unchecked `(int)` conversion. */
  function TargetScreenOf(info: DisplayConfig.DisplayConfigInfo): TargetScreen
  {
    TargetScreen(info.friendlyName, info.leftPosition, info.topPosition,
                 UncheckedToInt32(info.horizontalResolution), UncheckedToInt32(info.verticalResolution))
  }

  /** The target screens of an enumeration result, in the same order. */
  function TargetScreensOf(infos: seq<DisplayConfig.DisplayConfigInfo>): (screens: seq<TargetScreen>)
    ensures |screens| == |infos|
    ensures forall i :: 0 <= i < |infos| ==> screens[i] == TargetScreenOf(infos[i])
  {
    seq(|infos|, i requires 0 <= i < |infos| => TargetScreenOf(infos[i]))
  }

  /** Extending the descriptors by one extends their screens by that one's screen. */
  lemma TargetScreensOfSnoc(infos: seq<DisplayConfig.DisplayConfigInfo>, i: nat)
    requires i < |infos|
    ensures TargetScreensOf(infos[..i + 1]) == TargetScreensOf(infos[..i]) + [TargetScreenOf(infos[i])]
  {
    assert infos[..i + 1][..i] == infos[..i];
  }

  /** The new rate after assigning `value` to a rate field bounded by [`min`, `max`]. */
  function RateAfterAssignment(rate: int32, min: int32, max: int32, value: int32): int32
  {
    if value >= min && value <= max then value else rate
  }

  /** The rate after assigning each of `values` in turn. */
  function RateAfterAssignments(rate: int32, min: int32, max: int32, values: seq<int32>): int32
    decreases |values|
  {
    if |values| == 0 then rate
    else RateAfterAssignment(RateAfterAssignments(rate, min, max, values[..|values| - 1]), min, max, values[|values| - 1])
  }

  /** An in-range value is taken as it is; an out-of-range value leaves the rate
      where it was rather than clamping it to the nearer bound. */
  lemma RateAssignmentAcceptsOnlyInRange(rate: int32, min: int32, max: int32, value: int32)
    ensures min <= value <= max ==> RateAfterAssignment(rate, min, max, value) == value
    ensures (value < min || value > max) ==> RateAfterAssignment(rate, min, max, value) == rate
  {
  }

  /** With the bounds unchanged, any sequence of assignments keeps an in-range
      rate in range. */
  lemma {:induction false} RateAssignmentsStayInBounds(rate: int32, min: int32, max: int32, values: seq<int32>)
    requires min <= rate <= max
    ensures min <= RateAfterAssignments(rate, min, max, values) <= max
    decreases |values|
  {
    if |values| > 0 {
      RateAssignmentsStayInBounds(rate, min, max, values[..|values| - 1]);
    }
  }

  /** After a sequence of assignments the rate is the last in-range value assigned,
      or the initial rate when none was in range. */
  lemma {:induction false} RateAssignmentsKeepLastAccepted(rate: int32, min: int32, max: int32, values: seq<int32>)
    ensures var r := RateAfterAssignments(rate, min, max, values);
      || ((forall j :: 0 <= j < |values| ==> !(min <= values[j] <= max)) && r == rate)
      || (exists i :: 0 <= i < |values| && min <= values[i] <= max && r == values[i]
            && forall j :: i < j < |values| ==> !(min <= values[j] <= max))
    decreases |values|
  {
    if |values| > 0 {
      var prefix, last := values[..|values| - 1], values[|values| - 1];
      RateAssignmentsKeepLastAccepted(rate, min, max, prefix);
      assert forall j :: 0 <= j < |prefix| ==> prefix[j] == values[j];
      if !(min <= last <= max) {
        var r := RateAfterAssignments(rate, min, max, prefix);
        if exists i :: 0 <= i < |prefix| && min <= prefix[i] <= max && r == prefix[i]
             && forall j :: i < j < |prefix| ==> !(min <= prefix[j] <= max)
        {
          var i :| 0 <= i < |prefix| && min <= prefix[i] <= max && r == prefix[i]
            && forall j :: i < j < |prefix| ==> !(min <= prefix[j] <= max);
          assert min <= values[i] <= max && forall j :: i < j < |values| ==> !(min <= values[j] <= max);
        }
      } else {
        assert min <= values[|values| - 1] <= max;
      }
    }
  }

  class MainWindowViewModel {
    var targetScreens: seq<TargetScreen>
    var selectedTargetScreen: Option<TargetScreen>
    var screenPreviewRefreshRateMin: int32
    var screenPreviewRefreshRateMax: int32
    var screenPreviewRefreshRate: int32
    var isSettingPanelVisible: bool
    var isImageUpdateTimerEnabled: bool

    /** The rate lies within its bounds. */
    predicate RateInBounds()
      reads this
    {
      screenPreviewRefreshRateMin <= screenPreviewRefreshRate <= screenPreviewRefreshRateMax
    }

    /** The settings panel is up exactly when the image-update timer is off. */
    predicate PanelExcludesTimer()
      reads this
    {
      isSettingPanelVisible == !isImageUpdateTimerEnabled
    }

    /** The panel is closed and the preview is running, as OK and Cancel leave it. */
    predicate SettingsPanelClosed()
      reads this
    {
      isImageUpdateTimerEnabled && !isSettingPanelVisible
    }

    /** The state before the constructor lists the target screens: timer off,
        panel shown, an empty list, nothing selected, the rate fields at zero. */
    constructor ()
      ensures !isImageUpdateTimerEnabled && isSettingPanelVisible
      ensures targetScreens == [] && selectedTargetScreen == None
      ensures screenPreviewRefreshRateMin == 0 && screenPreviewRefreshRateMax == 0 && screenPreviewRefreshRate == 0
    {
      targetScreens := [];
      selectedTargetScreen := None;
      screenPreviewRefreshRateMin, screenPreviewRefreshRateMax, screenPreviewRefreshRate := 0, 0, 0;
      isImageUpdateTimerEnabled := false;
      isSettingPanelVisible := true;
    }

    method SetScreenPreviewRefreshRateMin(value: int32)
      modifies this`screenPreviewRefreshRateMin
      ensures screenPreviewRefreshRateMin == value
    {
      screenPreviewRefreshRateMin := value;
    }

    method SetScreenPreviewRefreshRateMax(value: int32)
      modifies this`screenPreviewRefreshRateMax
      ensures screenPreviewRefreshRateMax == value
    {
      screenPreviewRefreshRateMax := value;
    }

    /** The rate's setter: only a value within the current bounds is stored. */
    method SetScreenPreviewRefreshRate(value: int32)
      modifies this`screenPreviewRefreshRate
      ensures screenPreviewRefreshRate ==
        RateAfterAssignment(old(screenPreviewRefreshRate), screenPreviewRefreshRateMin, screenPreviewRefreshRateMax, value)
      ensures old(RateInBounds()) ==> RateInBounds()
      ensures (value < screenPreviewRefreshRateMin || value > screenPreviewRefreshRateMax) ==>
        screenPreviewRefreshRate == old(screenPreviewRefreshRate)
    {
      if value >= screenPreviewRefreshRateMin && value <= screenPreviewRefreshRateMax {
        screenPreviewRefreshRate := value;
      }
    }

    /** Shows the settings panel and pauses the preview. */
    method OpenSettingPanel()
      modifies this`isImageUpdateTimerEnabled, this`isSettingPanelVisible
      ensures !isImageUpdateTimerEnabled && isSettingPanelVisible
      ensures PanelExcludesTimer()
    {
      isImageUpdateTimerEnabled := false;
      isSettingPanelVisible := true;
    }

    /** OK: hides the panel and resumes the preview. */
    method ApplySettings()
      modifies this`isImageUpdateTimerEnabled, this`isSettingPanelVisible
      ensures SettingsPanelClosed() && PanelExcludesTimer()
    {
      isImageUpdateTimerEnabled := true;
      isSettingPanelVisible := false;
    }

    /** Cancel: the same effect as OK. */
    method CancelSettingPanel()
      modifies this`isImageUpdateTimerEnabled, this`isSettingPanelVisible
      ensures SettingsPanelClosed() && PanelExcludesTimer()
    {
      isImageUpdateTimerEnabled := true;
      isSettingPanelVisible := false;
    }

    /** Re-enumerates the displays and replaces the target list with one screen per
        monitor, in order, selecting the first. A failed enumeration changes
        nothing; an empty one leaves the list empty and then fails on the
        selection of its first element. */
    method UpdateTargetScreenList(host: DisplayConfig.Host) returns (outcome: Outcome)
      modifies this`targetScreens, this`selectedTargetScreen
      ensures var listing := DisplayConfig.DisplayConfigInfoList(host);
        if listing.Failure? then
          && outcome == Fail(listing.error)
          && targetScreens == old(targetScreens) && selectedTargetScreen == old(selectedTargetScreen)
        else
          && targetScreens == TargetScreensOf(listing.value)
          && (|listing.value| == 0 ==> outcome == Fail(ArgumentOutOfRangeException) && selectedTargetScreen == old(selectedTargetScreen))
          && (|listing.value| > 0 ==> outcome == Pass && selectedTargetScreen == Some(targetScreens[0]))
    {
      var displayConfigInfoList := DisplayConfig.GetDisplayConfigInfo(host);
      if displayConfigInfoList.Failure? {
        return Fail(displayConfigInfoList.error);
      }
      var infos := displayConfigInfoList.value;

      targetScreens := [];
      for i := 0 to |infos|
        invariant targetScreens == TargetScreensOf(infos[..i])
        invariant selectedTargetScreen == old(selectedTargetScreen)
      {
        TargetScreensOfSnoc(infos, i);
        targetScreens := targetScreens + [TargetScreen(
          infos[i].friendlyName,
          infos[i].leftPosition,
          infos[i].topPosition,
          UncheckedToInt32(infos[i].horizontalResolution),
          UncheckedToInt32(infos[i].verticalResolution))];
      }
      assert infos[..|infos|] == infos;

      if |targetScreens| == 0 {
        return Fail(ArgumentOutOfRangeException);
      }
      selectedTargetScreen := Some(targetScreens[0]);
      return Pass;
    }
  }

  /** The view model's constructor: lists the target screens, then sets the rate
      bounds to 1 and 30 and the rate to 30. The constructor throws whatever the
      listing throws. */
  method NewMainWindowViewModel(host: DisplayConfig.Host) returns (r: Result<MainWindowViewModel>)
    ensures var listing := DisplayConfig.DisplayConfigInfoList(host);
      && (listing.Failure? ==> r == Failure(listing.error))
      && (listing.Success? && |listing.value| == 0 ==> r == Failure(ArgumentOutOfRangeException))
      && (listing.Success? && |listing.value| > 0 ==>
           && r.Success? && fresh(r.value)
           && r.value.targetScreens == TargetScreensOf(listing.value)
           && r.value.selectedTargetScreen == Some(r.value.targetScreens[0]))
    ensures r.Success? ==>
      && r.value.screenPreviewRefreshRateMin == 1
      && r.value.screenPreviewRefreshRateMax == 30
      && r.value.screenPreviewRefreshRate == 30
      && !r.value.isImageUpdateTimerEnabled
      && r.value.isSettingPanelVisible
      && r.value.RateInBounds() && r.value.PanelExcludesTimer()
  {
    var vm := new MainWindowViewModel();
    var listed := vm.UpdateTargetScreenList(host);
    if listed.Fail? {
      return Failure(listed.error);
    }
    vm.SetScreenPreviewRefreshRateMin(1);
    vm.SetScreenPreviewRefreshRateMax(30);
    vm.SetScreenPreviewRefreshRate(30);
    return Success(vm);
  }
}
