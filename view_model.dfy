/**
 * PowerStateViewModel as an object whose methods update its fields in place.
 *
 * Each method is proved against the event function of the same name in
 * Transitions: its new State() is that function of the old one. Valid() is
 * the invariant Transitions.Inv on the object's state.
 */
module ViewModel {
  import opened Readings
  import opened Transitions

  class PowerStateViewModel {
    var isPowerConnected: bool
    var isPowerAdapterConnected: bool
    var showUnplugConfirmation: bool
    var unpluggedIntentionally: bool
    /** Whether the looping alarm player is playing. */
    var playing: bool
    /** Deferred alarm checks that asyncAfter has queued and that have not run yet. */
    var pendingChecks: nat

    function State(): MonitorState
      reads this
    {
      MonitorState(isPowerConnected, isPowerAdapterConnected, showUnplugConfirmation,
                   unpluggedIntentionally, playing, pendingChecks)
    }

    ghost predicate Valid()
      reads this
    {
      Inv(State())
    }

    /**
     * The field initialisers. The first poll that init requests is delivered
     * later on the main queue, so it is an ordinary UpdatePowerState call.
     */
    constructor ()
      ensures Valid() && State() == Initial
    {
      isPowerConnected := true;
      isPowerAdapterConnected := true;
      showUnplugConfirmation := false;
      unpluggedIntentionally := false;
      playing := false;
      pendingChecks := 0;
    }

    /** One poll, with the IOKit readings given as the source descriptions and the adapter details. */
    method UpdatePowerState(sources: seq<Description>, adapterDetails: Option<Description>)
      modifies this
      ensures Valid()
      ensures State() == AfterUpdate(old(State()), SomeSourceCharging(sources), adapterDetails.Some?)
    {
      isPowerConnected := IsPowerCableConnected(sources);
      isPowerAdapterConnected := CheckPowerAdapterConnection(adapterDetails);
      if !isPowerAdapterConnected && !unpluggedIntentionally {
        showUnplugConfirmation := true;
        // the alarm check is queued to run after the grace period
        pendingChecks := pendingChecks + 1;
      } else {
        HideUnplugConfirmation();
        StopSound();
      }
    }

    /** One queued alarm check running; it reads the flags as they are when it runs. */
    method AlarmCheckFires()
      requires Valid() && pendingChecks > 0
      modifies this
      ensures Valid()
      ensures State() == AfterAlarmCheck(old(State()))
    {
      pendingChecks := pendingChecks - 1;
      if showUnplugConfirmation && !unpluggedIntentionally {
        PlaySound();
        HideUnplugConfirmation();
      }
    }

    /** Some source reports that it is charging; an empty list of sources gives false. */
    static method IsPowerCableConnected(sources: seq<Description>) returns (connected: bool)
      ensures connected <==> SomeSourceCharging(sources)
      ensures sources == [] ==> !connected
    {
      for i := 0 to |sources|
        invariant forall j :: 0 <= j < i ==> ChargingFlag(sources[j]) != Some(true)
      {
        match ChargingFlag(sources[i])
        case Some(isCharging) =>
          if isCharging {
            return true;
          }
        case None =>
      }
      return false;
    }

    /** An external adapter is attached exactly when IOKit returns adapter details. */
    static function CheckPowerAdapterConnection(adapterDetails: Option<Description>): (connected: bool)
      ensures connected <==> adapterDetails != None
    {
      adapterDetails.Some?
    }

    method PlaySound()
      modifies this
      ensures old(Valid()) ==> Valid()
      ensures State() == AfterPlay(old(State()))
    {
      if !playing {
        playing := true;
      }
    }

    method StopSound()
      modifies this
      ensures old(Valid()) ==> Valid()
      ensures State() == AfterStop(old(State()))
    {
      if playing {
        playing := false;
      }
    }

    method HideUnplugConfirmation()
      modifies this
      ensures Valid()
      ensures State() == AfterHide(old(State()))
    {
      showUnplugConfirmation := false;
    }

    method ConfirmUnpluggedIntentionally()
      modifies this
      ensures Valid()
      ensures State() == AfterConfirm(old(State()))
    {
      HideUnplugConfirmation();
      unpluggedIntentionally := true;
    }
  }
}
