/**
 * The popup's side of the protocol: the interval check it runs before asking
 * the background script to start, and the disabled flags of its three controls.
 * `parseInt` of the input text is taken as given: `None` stands for NaN.
 */
module Popup {
  import opened Wrappers
  import opened Refresh

  const MinInterval: int := 1
  const MaxInterval: int := 3600

  /** `validateInterval`: reject NaN, anything below 1 and anything above 3600. */
  function ValidateInterval(parsed: Option<int>): (valid: bool)
    ensures valid <==> parsed.Some? && MinInterval <= parsed.value <= MaxInterval
  {
    if parsed.None? || parsed.value < 1 || parsed.value > 3600 then false else true
  }

  /** The popup's start button, stop button and interval input. */
  class Controls {
    var startDisabled: bool
    var stopDisabled: bool
    var inputDisabled: bool

    /** What `updateUI(true, …)` shows: only stopping is possible. */
    predicate ShowsActive()
      reads this
    {
      startDisabled && !stopDisabled && inputDisabled
    }

    /** What `updateUI(false)` shows: only starting is possible. */
    predicate ShowsStopped()
      reads this
    {
      !startDisabled && stopDisabled && !inputDisabled
    }

    constructor (startDisabled: bool, stopDisabled: bool, inputDisabled: bool)
      ensures this.startDisabled == startDisabled
      ensures this.stopDisabled == stopDisabled
      ensures this.inputDisabled == inputDisabled
    {
      this.startDisabled := startDisabled;
      this.stopDisabled := stopDisabled;
      this.inputDisabled := inputDisabled;
    }

    method UpdateUI(active: bool)
      modifies this
      ensures active ==> ShowsActive()
      ensures !active ==> ShowsStopped()
    {
      if active {
        startDisabled := true;
        stopDisabled := false;
        inputDisabled := true;
      } else {
        startDisabled := false;
        stopDisabled := true;
        inputDisabled := false;
      }
    }

    /** `validateInput`: start is enabled only for a valid interval while stop is disabled. */
    method ValidateInput(parsed: Option<int>)
      modifies this`startDisabled
      ensures startDisabled <==> !ValidateInterval(parsed) || !stopDisabled
    {
      var isValid := ValidateInterval(parsed);
      startDisabled := !isValid || stopDisabled == false;
    }

    /**
     * The start handler: with a valid interval and an active tab in the current
     * window, the `startRefresh` request it sends; otherwise nothing is sent.
     */
    method StartClicked(parsed: Option<int>, activeTab: Option<TabId>) returns (sent: Option<Request>)
      ensures sent.Some? <==> ValidateInterval(parsed) && activeTab.Some?
      ensures sent.Some? ==> sent.value == StartRefresh(parsed.value, activeTab.value)
      ensures sent.Some? ==> MinInterval <= sent.value.interval <= MaxInterval
    {
      if !ValidateInterval(parsed) {
        return None;
      }
      var interval := parsed.value;
      if activeTab.Some? {
        sent := Some(StartRefresh(interval, activeTab.value));
      } else {
        sent := None;
      }
    }

    /** The reply to `startRefresh`: success shows the active state; failure only shows an error. */
    method OnStartReply(reply: Option<Reply>)
      modifies this
      ensures reply == Some(Done(true)) ==> ShowsActive()
      ensures reply != Some(Done(true)) ==> unchanged(this)
    {
      if reply == Some(Done(true)) {
        UpdateUI(true);
      }
    }

    /** The reply to `stopRefresh`: success shows the stopped state; failure only shows an error. */
    method OnStopReply(reply: Option<Reply>)
      modifies this
      ensures reply == Some(Done(true)) ==> ShowsStopped()
      ensures reply != Some(Done(true)) ==> unchanged(this)
    {
      if reply == Some(Done(true)) {
        UpdateUI(false);
      }
    }

    /** `loadCurrentState`: the reply to `getStatus` decides which state is shown. */
    method OnStatusReply(reply: Option<Reply>)
      modifies this
      ensures (reply.Some? && reply.value.Status? && reply.value.isActive) ==> ShowsActive()
      ensures !(reply.Some? && reply.value.Status? && reply.value.isActive) ==> ShowsStopped()
    {
      if reply.Some? && reply.value.Status? && reply.value.isActive {
        UpdateUI(true);
      } else {
        UpdateUI(false);
      }
    }

    /** The `refreshStopped` listener. */
    method OnRefreshStopped()
      modifies this
      ensures ShowsStopped()
    {
      UpdateUI(false);
    }
  }

  /** The two states `updateUI` sets are complementary: no control is enabled in both. */
  lemma ShownStatesComplementary(c: Controls)
    ensures c.ShowsActive() ==> !c.ShowsStopped()
    ensures c.ShowsActive() || c.ShowsStopped() ==>
      c.startDisabled != c.stopDisabled && c.inputDisabled == c.startDisabled
  {
  }

  /** Every integer from 1 to 3600, both ends included, passes validation. */
  lemma ValidateIntervalAccepts(n: int)
    requires 1 <= n <= 3600
    ensures ValidateInterval(Some(n))
  {
  }

  /** NaN, anything below 1 and anything above 3600 fail validation. */
  lemma ValidateIntervalRejects(parsed: Option<int>)
    requires parsed.None? || parsed.value < 1 || parsed.value > 3600
    ensures !ValidateInterval(parsed)
  {
  }

  /**
   * Once the active state is shown, typing into the input can never enable
   * start; once the stopped state is shown, start is enabled exactly for a
   * valid interval.
   */
  method EnableRuleAfterUpdate(c: Controls, active: bool, parsed: Option<int>)
    modifies c
    ensures active ==> c.startDisabled && !c.stopDisabled
    ensures !active ==> (c.startDisabled <==> !ValidateInterval(parsed)) && c.stopDisabled
  {
    c.UpdateUI(active);
    c.ValidateInput(parsed);
  }
}
