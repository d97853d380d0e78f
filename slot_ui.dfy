/** The slot page: the bet gate in front of the spin button, the spin's lifecycle
    flag, and the manual mode in which the player stops the reels one at a time on the
    symbols the server already chose. */
module SlotPage {
  import opened Wrappers
  import opened ClientRules
  import Slot

  /** The symbol keys the page animates with while the reels run. */
  const AnimationSymbols: seq<string> := ["7", "BAR", "CHERRY", "LEMON", "ORANGE", "GRAPE"]

  /** The emoji the page shows for a symbol key. */
  function Emoji(key: string): Option<string> {
    if key == "7" then Some("7\U{FE0F}\U{20E3}")
    else if key == "BAR" then Some("\U{2B1B}\U{FE0F}")
    else if key == "CHERRY" then Some("\U{1F352}")
    else if key == "LEMON" then Some("\U{1F34B}")
    else if key == "ORANGE" then Some("\U{1F34A}")
    else if key == "GRAPE" then Some("\U{1F347}")
    else None
  }

  /** formatSymbol: the emoji of a known key, an unknown key as it is, and '-' for an
      empty one. */
  function FormatSymbol(symbol: string): (text: string)
    ensures text != ""
    ensures Emoji(symbol).Some? ==> text == Emoji(symbol).value
    ensures Emoji(symbol).None? ==> text == (if symbol == "" then "-" else symbol)
  {
    match Emoji(symbol)
    case Some(e) => e
    case None => if symbol == "" then "-" else symbol
  }

  /** The page's animation uses exactly the server's keys, in the server's order. */
  lemma AnimationUsesServerKeys()
    ensures AnimationSymbols == Slot.KeysOf(Slot.Symbols)
  {
    var keys := Slot.KeysOf(Slot.Symbols);
    assert |keys| == 6;
    forall i | 0 <= i < 6 ensures keys[i] == AnimationSymbols[i] {
      assert keys[i] == Slot.Symbols[i].key;
    }
  }

  /** Every key the server can put on a reel shows as an emoji, never as the raw key. */
  lemma ServerSymbolsHaveEmoji()
    ensures forall s :: s in Slot.Symbols ==> Emoji(s.key).Some? && FormatSymbol(s.key) != s.key
  {
    var shown := seq(6, i requires 0 <= i < 6 => FormatSymbol(Slot.Symbols[i].key));
    assert shown == ["7\U{FE0F}\U{20E3}", "\U{2B1B}\U{FE0F}", "\U{1F352}", "\U{1F34B}", "\U{1F34A}", "\U{1F347}"];
    forall i | 0 <= i < |Slot.Symbols|
      ensures Emoji(Slot.Symbols[i].key).Some? && shown[i] != Slot.Symbols[i].key
    {
    }
  }

  /** No two of the keys look alike on the page. */
  lemma EmojisDistinct()
    ensures forall i, j :: 0 <= i < j < |AnimationSymbols| ==>
      FormatSymbol(AnimationSymbols[i]) != FormatSymbol(AnimationSymbols[j])
  {
    var initials := seq(6, i requires 0 <= i < 6 => FormatSymbol(AnimationSymbols[i])[0]);
    assert initials == ['7', '\U{2B1B}', '\U{1F352}', '\U{1F34B}', '\U{1F34A}', '\U{1F347}'];
    forall i, j | 0 <= i < j < |AnimationSymbols|
      ensures FormatSymbol(AnimationSymbols[i]) != FormatSymbol(AnimationSymbols[j])
    {
      assert initials[i] != initials[j];
    }
  }

  /** What the three reels show once the animation stops on `symbols`: missing
      entries show '-'. */
  function Stopped(symbols: seq<string>): (shown: seq<string>)
    ensures |shown| == 3
    ensures forall i :: 0 <= i < 3 ==> shown[i] == FormatSymbol(if i < |symbols| then symbols[i] else "")
  {
    seq(3, i requires 0 <= i < 3 => FormatSymbol(if i < |symbols| then symbols[i] else ""))
  }

  /** The page's module-level state and the parts of the document it drives. */
  class Page {
    var isSpinning: bool
    var currentBalance: real
    var betInput: real                     // the bet field, parsed; an empty field reads as 0
    var hint: Hint
    var spinDisabled: bool
    var manualModeEnabled: bool
    var manualResult: Option<seq<string>>  // the reels of the spin the player is stopping
    var manualStopIndex: nat
    var manualFinalized: bool
    var finishPending: Option<seq<string>> // the finish timer, with the reels it will report
    var reelText: seq<string>              // what the three reels show

    /** The manual-mode bookkeeping: no result means nothing stopped and nothing
        finalised; a result belongs to a running spin and the stop index never passes
        its last reel; the spin is finalised exactly when the finish timer is set, and
        only after the last reel has stopped. */
    ghost predicate Valid()
      reads this
    {
      && |reelText| == 3
      && (manualResult.None? ==> manualStopIndex == 0 && !manualFinalized)
      && (manualResult.Some? ==> isSpinning && manualStopIndex <= |manualResult.value|)
      && (manualFinalized ==> manualResult.Some? && manualStopIndex == |manualResult.value|)
      && (finishPending.Some? <==> manualFinalized)
      && (finishPending.Some? ==> finishPending == manualResult)
    }

    /** The page as loaded: no spin, a zero balance until the server answers, the
        hint computed once, the reels as the markup shows them. */
    constructor (bet: real, reels: seq<string>)
      requires |reels| == 3
      ensures Valid()
      ensures !isSpinning && currentBalance == 0.0 && betInput == bet && !manualModeEnabled
      ensures hint == BetHint(0.0, bet) && spinDisabled
      ensures manualResult.None? && reelText == reels
    {
      isSpinning, currentBalance, betInput, manualModeEnabled := false, 0.0, bet, false;
      manualResult, manualStopIndex, manualFinalized, finishPending := None, 0, false, None;
      reelText := reels;
      hint := BetHint(0.0, bet);
      spinDisabled := true;
    }

    /** updateBetHint: the hint from the balance and the bet, and the button enabled
        only when the hint is `Ready`. */
    method UpdateBetHint()
      requires Valid()
      modifies this
      ensures Valid()
      ensures hint == BetHint(currentBalance, betInput) && (spinDisabled <==> hint != Ready)
      ensures isSpinning == old(isSpinning) && currentBalance == old(currentBalance) && betInput == old(betInput)
      ensures manualModeEnabled == old(manualModeEnabled) && manualResult == old(manualResult)
      ensures manualStopIndex == old(manualStopIndex) && manualFinalized == old(manualFinalized)
      ensures finishPending == old(finishPending) && reelText == old(reelText)
    {
      hint := BetHint(currentBalance, betInput);
      spinDisabled := hint != Ready;
    }

    /** The balance the server reported, followed by a fresh hint. */
    method BalanceLoaded(balance: real)
      requires Valid()
      modifies this
      ensures Valid()
      ensures currentBalance == balance && hint == BetHint(balance, betInput) && (spinDisabled <==> hint != Ready)
      ensures isSpinning == old(isSpinning) && betInput == old(betInput) && manualResult == old(manualResult)
      ensures manualStopIndex == old(manualStopIndex) && finishPending == old(finishPending)
      ensures manualFinalized == old(manualFinalized) && manualModeEnabled == old(manualModeEnabled)
      ensures reelText == old(reelText)
    {
      currentBalance := balance;
      UpdateBetHint();
    }

    /** The manual-mode switch, which the page disables while a spin runs. */
    method SetManualMode(on: bool)
      requires Valid()
      modifies this
      ensures Valid()
      ensures manualModeEnabled == if old(isSpinning) then old(manualModeEnabled) else on
      ensures isSpinning == old(isSpinning) && manualResult == old(manualResult)
      ensures manualStopIndex == old(manualStopIndex) && finishPending == old(finishPending)
      ensures manualFinalized == old(manualFinalized) && reelText == old(reelText)
      ensures currentBalance == old(currentBalance) && betInput == old(betInput)
      ensures hint == old(hint) && spinDisabled == old(spinDisabled)
    {
      if !isSpinning {
        manualModeEnabled := on;
      }
    }

    /** resetManualState: forget the result, rewind the stop index, clear the
        finalised flag and the finish timer. */
    method ResetManualState()
      requires |reelText| == 3
      modifies this
      ensures Valid()
      ensures manualResult.None? && manualStopIndex == 0 && !manualFinalized && finishPending.None?
      ensures isSpinning == old(isSpinning) && currentBalance == old(currentBalance) && betInput == old(betInput)
      ensures hint == old(hint) && spinDisabled == old(spinDisabled) && manualModeEnabled == old(manualModeEnabled)
      ensures reelText == old(reelText)
    {
      manualResult := None;
      manualStopIndex := 0;
      manualFinalized := false;
      finishPending := None;
    }

    /** spinSlot: nothing while a spin runs; a bet that is zero or under the minimum,
        a balance under the minimum or a bet over the balance only refreshes the hint;
        otherwise the spin starts and the bet is sent. */
    method SpinSlot() returns (request: Option<real>)
      requires Valid()
      modifies this
      ensures Valid()
      ensures request.Some? <==> !old(isSpinning) && BetHint(old(currentBalance), old(betInput)) == Ready
      ensures old(isSpinning) ==> unchanged(this)
      ensures request.Some? ==>
        && request.value == betInput && request.value >= MinBet && request.value <= currentBalance
        && isSpinning && spinDisabled && hint == old(hint)
        && manualResult.None? && manualStopIndex == 0 && !manualFinalized && finishPending.None?
      ensures !old(isSpinning) && request.None? ==>
        && !isSpinning && hint == BetHint(currentBalance, betInput) && spinDisabled
        && manualResult == old(manualResult) && manualStopIndex == old(manualStopIndex)
        && manualFinalized == old(manualFinalized) && finishPending == old(finishPending)
      ensures currentBalance == old(currentBalance) && betInput == old(betInput)
      ensures manualModeEnabled == old(manualModeEnabled) && reelText == old(reelText)
    {
      if isSpinning {
        return None;
      }
      if betInput == 0.0 || betInput < MinBet {
        UpdateBetHint();
        return None;
      }
      if currentBalance < MinBet || betInput > currentBalance {
        UpdateBetHint();
        return None;
      }
      isSpinning := true;
      spinDisabled := true;
      ResetManualState();
      request := Some(betInput);
    }

    /** finishSlotSpin: the spin is over, the button is enabled and the manual state
        reset (the result display, the balance and history refreshes are left out). */
    method FinishSlotSpin()
      requires |reelText| == 3
      modifies this
      ensures Valid()
      ensures !isSpinning && !spinDisabled && manualResult.None? && finishPending.None?
      ensures manualStopIndex == 0 && !manualFinalized
      ensures currentBalance == old(currentBalance) && betInput == old(betInput) && hint == old(hint)
      ensures manualModeEnabled == old(manualModeEnabled) && reelText == old(reelText)
    {
      isSpinning := false;
      spinDisabled := false;
      ResetManualState();
    }

    /** A refused spin (the server's error reply): the reels show '-', the spin ends,
        the manual state is reset and the hint refreshed. */
    method SpinRefused()
      requires Valid()
      modifies this
      ensures Valid()
      ensures reelText == ["-", "-", "-"] && !isSpinning && manualResult.None? && finishPending.None?
      ensures manualStopIndex == 0 && !manualFinalized
      ensures hint == BetHint(currentBalance, betInput) && (spinDisabled <==> hint != Ready)
      ensures currentBalance == old(currentBalance) && betInput == old(betInput)
      ensures manualModeEnabled == old(manualModeEnabled)
    {
      reelText := Stopped([]);
      isSpinning := false;
      spinDisabled := false;
      ResetManualState();
      UpdateBetHint();
    }

    /** A spin whose request failed to reach the server: as a refusal, but the button
        is simply enabled again. */
    method ConnectionFailed()
      requires Valid()
      modifies this
      ensures Valid()
      ensures reelText == ["-", "-", "-"] && !isSpinning && !spinDisabled
      ensures manualResult.None? && manualStopIndex == 0 && !manualFinalized && finishPending.None?
      ensures currentBalance == old(currentBalance) && betInput == old(betInput) && hint == old(hint)
      ensures manualModeEnabled == old(manualModeEnabled)
    {
      reelText := Stopped([]);
      isSpinning := false;
      spinDisabled := false;
      ResetManualState();
    }

    /** The server's result for the running spin. In manual mode it is kept for the
        player to stop the reels on; otherwise the reels stop on it and the spin
        finishes (the animation delays are left out). */
    method ResultReceived(reels: seq<string>)
      requires Valid() && isSpinning && manualResult.None?
      modifies this
      ensures Valid()
      ensures old(manualModeEnabled) ==>
        && isSpinning && manualResult == Some(reels) && manualStopIndex == 0 && !manualFinalized
        && reelText == old(reelText) && spinDisabled == old(spinDisabled) && finishPending == old(finishPending)
      ensures !old(manualModeEnabled) ==>
        && !isSpinning && !spinDisabled && reelText == Stopped(reels)
        && manualResult.None? && manualStopIndex == 0 && !manualFinalized && finishPending.None?
      ensures manualModeEnabled == old(manualModeEnabled) && currentBalance == old(currentBalance)
      ensures betInput == old(betInput) && hint == old(hint)
    {
      if manualModeEnabled {
        manualResult := Some(reels);
        manualStopIndex := 0;
        manualFinalized := false;
        return;
      }
      reelText := Stopped(reels);
      FinishSlotSpin();
    }

    /** finalizeManualSpin: only the first call sets the finish timer. */
    method FinalizeManualSpin()
      requires |reelText| == 3 && manualResult.Some? && manualStopIndex == |manualResult.value| && isSpinning
      requires finishPending.Some? <==> manualFinalized
      requires finishPending.Some? ==> finishPending == manualResult
      modifies this
      ensures Valid()
      ensures manualFinalized && finishPending == manualResult
      ensures old(manualFinalized) ==> unchanged(this)
      ensures isSpinning == old(isSpinning) && manualResult == old(manualResult)
      ensures manualStopIndex == old(manualStopIndex) && reelText == old(reelText)
      ensures manualModeEnabled == old(manualModeEnabled) && currentBalance == old(currentBalance)
      ensures betInput == old(betInput) && hint == old(hint) && spinDisabled == old(spinDisabled)
    {
      if manualFinalized {
        return;
      }
      manualFinalized := true;
      finishPending := manualResult;
    }

    /** The stop button has an effect: manual mode, a running spin, its result, and
        a reel still running. */
    predicate Stoppable()
      reads this
    {
      manualModeEnabled && isSpinning && manualResult.Some? && manualStopIndex < |manualResult.value|
    }

    /** stopNextReel: only in manual mode, during a spin, with a result, and while a
        reel is still running. It stops the next reel on the server's symbol for it
        and, after the last reel, finalises the spin. */
    method StopNextReel()
      requires Valid()
      modifies this
      ensures Valid()
      ensures !old(Stoppable()) ==> unchanged(this)
      ensures old(Stoppable()) ==>
        var reels := old(manualResult).value;
        var i := old(manualStopIndex);
        && manualStopIndex == i + 1
        && reelText == (if i < 3 then old(reelText)[i := FormatSymbol(reels[i])] else old(reelText))
        && (manualFinalized <==> manualStopIndex == |reels|)
        && finishPending == (if manualStopIndex == |reels| then Some(reels) else None)
        && manualResult == old(manualResult) && isSpinning
      ensures manualModeEnabled == old(manualModeEnabled) && currentBalance == old(currentBalance)
      ensures betInput == old(betInput) && hint == old(hint) && spinDisabled == old(spinDisabled)
    {
      if !manualModeEnabled || !isSpinning || manualResult.None? {
        return;
      }
      var reels := manualResult.value;
      if manualStopIndex >= |reels| {
        return;
      }
      if manualStopIndex < 3 {
        reelText := reelText[manualStopIndex := FormatSymbol(reels[manualStopIndex])];
      }
      manualStopIndex := manualStopIndex + 1;
      if manualStopIndex >= |reels| {
        FinalizeManualSpin();
      }
    }

    /** The finish timer firing: the pending spin finishes. */
    method FinishTimerFired()
      requires Valid()
      modifies this
      ensures Valid()
      ensures old(finishPending).Some? ==>
        && !isSpinning && !spinDisabled
        && manualResult.None? && manualStopIndex == 0 && !manualFinalized && finishPending.None?
      ensures old(finishPending).None? ==> unchanged(this)
      ensures currentBalance == old(currentBalance) && betInput == old(betInput) && hint == old(hint)
      ensures manualModeEnabled == old(manualModeEnabled) && reelText == old(reelText)
    {
      if finishPending.Some? {
        FinishSlotSpin();
      }
    }
  }

  /** A manual round from the server's three reels: each press stops the next reel on
      its symbol, the third press sets the finish timer once, a fourth press changes
      nothing, and the timer ends the spin with all three reels showing the result. */
  method ManualRound(page: Page, a: string, b: string, c: string)
    requires page.Valid() && page.manualModeEnabled && page.isSpinning
    requires page.manualResult == Some([a, b, c]) && page.manualStopIndex == 0
    modifies page
    ensures page.Valid()
    ensures page.reelText == [FormatSymbol(a), FormatSymbol(b), FormatSymbol(c)]
    ensures !page.isSpinning && page.manualResult.None? && page.manualStopIndex == 0
  {
    page.StopNextReel();
    page.StopNextReel();
    assert !page.manualFinalized;
    page.StopNextReel();
    assert page.finishPending == Some([a, b, c]);
    page.StopNextReel();
    assert page.reelText == [FormatSymbol(a), FormatSymbol(b), FormatSymbol(c)];
    page.FinishTimerFired();
  }
}
