/** An image control that owns a periodic timer: enabling the control starts the
    timer with the interval read at that moment (a negative one is rejected with
    an exception), disabling it stops the timer, and every tick executes the
    bound command, if any. No real clock is modelled: a tick is an explicit step. */
module Controls {
  import opened DotNet

  /** A bound command. What executing it does belongs to the command's owner; the
      control only records that it executed it. */
  datatype Command = Command(name: string)

  /** The object a dependency-property change is reported for. */
  datatype DependencyObject = TimerImage(image: ImageWithTimer) | OtherDependencyObject

  class ImageWithTimer {
    // The control's dependency properties.
    var timerInterval: int32
    var isTimerEnabled: bool
    var timerCommand: Option<Command>

    // The state of the control's own timer: its interval in milliseconds and
    // whether it is running.
    var commandTriggerTimerInterval: int
    var commandTriggerTimerIsEnabled: bool

    /** The commands executed by ticks so far, oldest first. */
    var executedCommands: seq<Command>

    /** The timer runs exactly when the enabled property is true. */
    predicate TimerFollowsEnabled()
      reads this
    {
      commandTriggerTimerIsEnabled == isTimerEnabled
    }

    /** Property defaults: interval 0, disabled, no command; a new, stopped timer
        with a zero interval. */
    constructor ()
      ensures timerInterval == 0 && !isTimerEnabled && timerCommand == None
      ensures commandTriggerTimerInterval == 0 && !commandTriggerTimerIsEnabled
      ensures executedCommands == []
      ensures TimerFollowsEnabled()
    {
      timerInterval := 0;
      isTimerEnabled := false;
      timerCommand := None;
      commandTriggerTimerInterval := 0;
      commandTriggerTimerIsEnabled := false;
      executedCommands := [];
    }

    /** The tick handler: executes the bound command, or does nothing without one. */
    method CommandTriggerTimerCallback()
      modifies this`executedCommands
      ensures timerCommand.Some? ==> executedCommands == old(executedCommands) + [timerCommand.value]
      ensures timerCommand.None? ==> executedCommands == old(executedCommands)
    {
      if timerCommand.Some? {
        executedCommands := executedCommands + [timerCommand.value];
      }
    }

    /** One period of the timer elapsing: the tick handler runs only while the timer
        is running. */
    method TimerTick()
      modifies this`executedCommands
      ensures commandTriggerTimerIsEnabled && timerCommand.Some? ==>
        executedCommands == old(executedCommands) + [timerCommand.value]
      ensures !commandTriggerTimerIsEnabled || timerCommand.None? ==> executedCommands == old(executedCommands)
    {
      if commandTriggerTimerIsEnabled {
        CommandTriggerTimerCallback();
      }
    }

    /** Starts (or restarts) the timer with the interval the control has now. The
        timer rejects a negative interval with `ArgumentOutOfRangeException`
        before it is started, and then keeps its old interval and state. */
    method StartTimer() returns (r: Outcome)
      modifies this`commandTriggerTimerInterval, this`commandTriggerTimerIsEnabled
      ensures r.Fail? <==> timerInterval < 0
      ensures r.Fail? ==> r.error == ArgumentOutOfRangeException
      ensures r.Pass? ==> commandTriggerTimerInterval == timerInterval && commandTriggerTimerIsEnabled
      ensures r.Fail? ==>
        && commandTriggerTimerInterval == old(commandTriggerTimerInterval)
        && commandTriggerTimerIsEnabled == old(commandTriggerTimerIsEnabled)
    {
      if timerInterval < 0 {
        return Fail(ArgumentOutOfRangeException);
      }
      commandTriggerTimerInterval := timerInterval;
      commandTriggerTimerIsEnabled := true;
      return Pass;
    }

    /** Stops the timer; its interval is kept. */
    method StopTimer()
      modifies this`commandTriggerTimerIsEnabled
      ensures !commandTriggerTimerIsEnabled
    {
      commandTriggerTimerIsEnabled := false;
    }

    /** Sets the interval property. A running timer keeps the interval it was
        started with until it is started again. */
    method SetTimerInterval(value: int32)
      modifies this`timerInterval
      ensures timerInterval == value
      ensures commandTriggerTimerInterval == old(commandTriggerTimerInterval)
      ensures old(TimerFollowsEnabled()) ==> TimerFollowsEnabled()
    {
      timerInterval := value;
    }

    method SetTimerCommand(command: Option<Command>)
      modifies this`timerCommand
      ensures timerCommand == command
    {
      timerCommand := command;
    }

    /** Sets the enabled property. The change callback runs only when the value
        actually changes, and is handed the new value. The property keeps the new
        value even when the callback throws, so switching on with a negative
        interval leaves the property true and the timer as it was. */
    method SetIsTimerEnabled(value: bool) returns (r: Outcome)
      modifies this
      ensures isTimerEnabled == value
      ensures timerInterval == old(timerInterval) && timerCommand == old(timerCommand)
      ensures executedCommands == old(executedCommands)
      ensures r.Fail? <==> value != old(isTimerEnabled) && value && timerInterval < 0
      ensures r.Fail? ==> r.error == ArgumentOutOfRangeException
      ensures value != old(isTimerEnabled) && value && r.Pass? ==>
        commandTriggerTimerIsEnabled && commandTriggerTimerInterval == timerInterval
      ensures value != old(isTimerEnabled) && !value ==>
        !commandTriggerTimerIsEnabled && commandTriggerTimerInterval == old(commandTriggerTimerInterval)
      ensures value == old(isTimerEnabled) || r.Fail? ==>
        commandTriggerTimerIsEnabled == old(commandTriggerTimerIsEnabled)
        && commandTriggerTimerInterval == old(commandTriggerTimerInterval)
      ensures old(TimerFollowsEnabled()) && r.Pass? ==> TimerFollowsEnabled()
      ensures old(TimerFollowsEnabled()) && r.Fail? ==> isTimerEnabled && !commandTriggerTimerIsEnabled
    {
      var oldValue := isTimerEnabled;
      isTimerEnabled := value;
      r := Pass;
      if value != oldValue {
        r := IsTimerEnabledPropertyPropertyChanged(TimerImage(this), Some(value));
      }
    }

    /** The enabled property's change callback: true starts the timer (which throws
        for a negative interval), false stops it, a missing value does nothing, and
        an object that is not a timer image is ignored. */
    static method IsTimerEnabledPropertyPropertyChanged(d: DependencyObject, newValue: Option<bool>) returns (r: Outcome)
      modifies if d.TimerImage? then {d.image} else {}
      ensures r.Fail? <==> d.TimerImage? && newValue == Some(true) && d.image.timerInterval < 0
      ensures r.Fail? ==> r.error == ArgumentOutOfRangeException
      ensures d.TimerImage? ==>
        && d.image.timerInterval == old(d.image.timerInterval)
        && d.image.isTimerEnabled == old(d.image.isTimerEnabled)
        && d.image.timerCommand == old(d.image.timerCommand)
        && d.image.executedCommands == old(d.image.executedCommands)
      ensures d.TimerImage? && newValue == Some(true) && r.Pass? ==>
        d.image.commandTriggerTimerIsEnabled && d.image.commandTriggerTimerInterval == d.image.timerInterval
      ensures d.TimerImage? && newValue == Some(false) ==>
        !d.image.commandTriggerTimerIsEnabled && d.image.commandTriggerTimerInterval == old(d.image.commandTriggerTimerInterval)
      ensures d.TimerImage? && (newValue == None || r.Fail?) ==>
        && d.image.commandTriggerTimerIsEnabled == old(d.image.commandTriggerTimerIsEnabled)
        && d.image.commandTriggerTimerInterval == old(d.image.commandTriggerTimerInterval)
    {
      r := Pass;
      if !d.TimerImage? {
        return;
      }
      var image := d.image;
      if newValue.Some? {
        if newValue.value {
          r := image.StartTimer();
        } else {
          image.StopTimer();
        }
      }
    }
  }

  /** Enable with a 33 ms interval, change the interval while running, let two
      periods elapse, disable, let one more elapse: the command ran twice, the
      running timer kept 33 ms, and nothing ran after the stop. */
  method EnableTickDisable() returns (intervalWhileRunning: int, ticksWhileRunning: nat, ticksAfterStop: nat)
    ensures intervalWhileRunning == 33
    ensures ticksWhileRunning == 2 && ticksAfterStop == 0
  {
    var image := new ImageWithTimer();
    var refresh := Command("ImageUpdateTimerCommand");
    image.SetTimerCommand(Some(refresh));
    image.SetTimerInterval(33);
    var started := image.SetIsTimerEnabled(true);
    image.SetTimerInterval(100);
    intervalWhileRunning := image.commandTriggerTimerInterval;
    image.TimerTick();
    image.TimerTick();
    ticksWhileRunning := |image.executedCommands|;
    var stopped := image.SetIsTimerEnabled(false);
    image.TimerTick();
    ticksAfterStop := |image.executedCommands| - ticksWhileRunning;
  }

  /** Enable with a negative interval: the timer rejects it, so the property is
      true while the timer stays stopped, and a tick runs nothing. */
  method EnableWithNegativeInterval() returns (enabled: bool, running: bool, error: Outcome, ticks: nat)
    ensures enabled && !running
    ensures error == Fail(ArgumentOutOfRangeException)
    ensures ticks == 0
  {
    var image := new ImageWithTimer();
    image.SetTimerCommand(Some(Command("ImageUpdateTimerCommand")));
    image.SetTimerInterval(-5);
    error := image.SetIsTimerEnabled(true);
    image.TimerTick();
    enabled, running, ticks := image.isTimerEnabled, image.commandTriggerTimerIsEnabled, |image.executedCommands|;
  }
}
