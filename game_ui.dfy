/** The roulette page: the bet gate in front of the spin button, the request a spin
    sends, the spin's lifecycle flag, the colours the wheel is drawn with, the angle
    the ball stops at, and the signed amount each history row shows. */
module RoulettePage {
  import opened Wrappers
  import opened Models
  import opened ClientRules
  import Roulette

  /** The colour the page draws each pocket in, pocket by pocket from 0 to 36, in the
      page's own rows. */
  const PageRow0: seq<string> := ["green"]
  const PageRow1: seq<string> := ["red", "black", "red", "black", "red", "black"]
  const PageRow2: seq<string> := ["red", "black", "red", "black", "black", "red"]
  const PageRow3: seq<string> := ["black", "red", "black", "red", "black", "red"]
  const PageRow4: seq<string> := ["red", "black", "red", "black", "red", "black"]
  const PageRow5: seq<string> := ["red", "black", "red", "black", "black", "red"]
  const PageRow6: seq<string> := ["black", "red", "black", "red", "black", "red"]
  const PocketColors: seq<string> :=
    PageRow0 + PageRow1 + PageRow2 + PageRow3 + PageRow4 + PageRow5 + PageRow6

  /** The server's colour names of a run of pockets. */
  function Names(row: seq<Roulette.Color>): (names: seq<string>)
    ensures |names| == |row|
    ensures forall i :: 0 <= i < |row| ==> names[i] == Roulette.ColorName(row[i])
  {
    seq(|row|, i requires 0 <= i < |row| => Roulette.ColorName(row[i]))
  }

  lemma NamesAppend(a: seq<Roulette.Color>, b: seq<Roulette.Color>)
    ensures Names(a + b) == Names(a) + Names(b)
  {
  }

  /** The page draws the same wheel the server spins: one colour per pocket, each the
      name of the server's colour for that pocket. */
  lemma PocketColorsMatchServer()
    ensures |PocketColors| == |Roulette.Wheel| == 37
    ensures forall n :: 0 <= n < 37 ==> PocketColors[n] == Roulette.ColorName(Roulette.Wheel[n])
  {
    assert PageRow0 == Names(Roulette.Row0);
    assert PageRow1 == Names(Roulette.Row1);
    assert PageRow2 == Names(Roulette.Row2);
    assert PageRow3 == Names(Roulette.Row3);
    assert PageRow4 == Names(Roulette.Row4);
    assert PageRow5 == Names(Roulette.Row5);
    assert PageRow6 == Names(Roulette.Row6);
    NamesAppend(Roulette.Row0, Roulette.Row1);
    NamesAppend(Roulette.Row0 + Roulette.Row1, Roulette.Row2);
    NamesAppend(Roulette.Row0 + Roulette.Row1 + Roulette.Row2, Roulette.Row3);
    NamesAppend(Roulette.Row0 + Roulette.Row1 + Roulette.Row2 + Roulette.Row3, Roulette.Row4);
    NamesAppend(Roulette.Row0 + Roulette.Row1 + Roulette.Row2 + Roulette.Row3 + Roulette.Row4, Roulette.Row5);
    NamesAppend(Roulette.Row0 + Roulette.Row1 + Roulette.Row2 + Roulette.Row3 + Roulette.Row4 + Roulette.Row5,
                Roulette.Row6);
    assert PocketColors == Names(Roulette.Wheel);
  }

  /** getTargetAngle: the pocket's index times a 37th of a full turn, or 0 for a value
      that is not one of the pockets 0..36. */
  function TargetAngle(number: real): (angle: real)
    ensures 0.0 <= angle < 360.0
    ensures !(number.Floor as real == number && 0 <= number.Floor <= 36) ==> angle == 0.0
    ensures number == 0.0 ==> angle == 0.0
  {
    if number.Floor as real == number && 0 <= number.Floor <= 36 then number * (360.0 / 37.0) else 0.0
  }

  /** Distinct pockets stop the ball at distinct angles. */
  lemma TargetAngleInjective(m: int, n: int)
    requires 0 <= m <= 36 && 0 <= n <= 36 && m != n
    ensures TargetAngle(m as real) != TargetAngle(n as real)
  {
  }

  /** The body a spin posts: the bet, the bet type, and the chosen number only for a
      straight bet. */
  datatype SpinRequest = SpinRequest(betAmount: real, betType: string, betValue: Option<string>)

  /** What a history row shows: the win with a plus sign, the stake with a minus. */
  function ShownDelta(r: GameRecord): (delta: real)
    ensures r.isWin ==> delta == r.winAmount
    ensures !r.isWin ==> delta == -r.betAmount
  {
    if r.isWin then r.winAmount else -r.betAmount
  }

  /** The signed amount a row shows is exactly how the spin moved the balance. */
  lemma ShownDeltaIsBalanceChange(before: real, r: GameRecord)
    requires Settled(before, r)
    ensures before + ShownDelta(r) == r.balanceAfter
  {
  }

  /** The page's module-level state and the button it drives. */
  class Page {
    var isSpinning: bool
    var currentBalance: real
    var betInput: real          // the bet field as a number; an empty field reads as 0
    var hint: Hint
    var spinDisabled: bool

    /** The page as loaded: no spin and a zero balance until the server answers. */
    constructor (bet: real)
      ensures !isSpinning && currentBalance == 0.0 && betInput == bet
      ensures hint == BetHint(0.0, bet) && spinDisabled
    {
      isSpinning, currentBalance, betInput := false, 0.0, bet;
      hint := BetHint(0.0, bet);
      spinDisabled := true;
    }

    /** updateBetHelp: the hint from the balance and the bet; the button is enabled
        only when the hint is `Ready`. */
    method UpdateBetHelp()
      modifies this
      ensures hint == BetHint(currentBalance, betInput) && (spinDisabled <==> hint != Ready)
      ensures isSpinning == old(isSpinning) && currentBalance == old(currentBalance) && betInput == old(betInput)
    {
      hint := BetHint(currentBalance, betInput);
      spinDisabled := hint != Ready;
    }

    /** The balance the server reported, followed by a fresh hint. */
    method BalanceLoaded(balance: real)
      modifies this
      ensures currentBalance == balance && hint == BetHint(balance, betInput) && (spinDisabled <==> hint != Ready)
      ensures isSpinning == old(isSpinning) && betInput == old(betInput)
    {
      currentBalance := balance;
      UpdateBetHelp();
    }

    /** spinRoulette: nothing while a spin runs; a bet that is missing or under the
        minimum, a balance under the minimum or a bet over the balance only refreshes
        the hint; otherwise the spin starts and the request is sent. */
    method SpinRoulette(betType: string, betValueField: string) returns (request: Option<SpinRequest>)
      modifies this
      ensures request.Some? <==> !old(isSpinning) && BetHint(old(currentBalance), old(betInput)) == Ready
      ensures old(isSpinning) ==> unchanged(this)
      ensures request.Some? ==>
        && request.value.betAmount == betInput && MinBet <= betInput <= currentBalance
        && request.value.betType == betType
        && request.value.betValue == (if betType == "number" then Some(betValueField) else None)
        && isSpinning && spinDisabled && hint == old(hint)
      ensures !old(isSpinning) && request.None? ==>
        !isSpinning && hint == BetHint(currentBalance, betInput) && spinDisabled
      ensures currentBalance == old(currentBalance) && betInput == old(betInput)
    {
      if isSpinning {
        return None;
      }
      var betValue := if betType == "number" then Some(betValueField) else None;
      if betInput == 0.0 || betInput < MinBet {
        UpdateBetHelp();
        return None;
      }
      if currentBalance < MinBet || betInput > currentBalance {
        UpdateBetHelp();
        return None;
      }
      isSpinning := true;
      spinDisabled := true;
      request := Some(SpinRequest(betInput, betType, betValue));
    }

    /** The server refused the spin: the spin ends and the hint is refreshed. */
    method SpinRefused()
      modifies this
      ensures !isSpinning && hint == BetHint(currentBalance, betInput) && (spinDisabled <==> hint != Ready)
      ensures currentBalance == old(currentBalance) && betInput == old(betInput)
    {
      isSpinning := false;
      spinDisabled := false;
      UpdateBetHelp();
    }

    /** The request never reached the server: the spin ends and the button is
        enabled again. */
    method ConnectionFailed()
      modifies this
      ensures !isSpinning && !spinDisabled
      ensures currentBalance == old(currentBalance) && betInput == old(betInput) && hint == old(hint)
    {
      isSpinning := false;
      spinDisabled := false;
    }

    /** The animation finished on the server's result: the spin ends and the button
        is enabled again (the result display and the refreshes are left out). */
    method SpinCompleted()
      modifies this
      ensures !isSpinning && !spinDisabled
      ensures currentBalance == old(currentBalance) && betInput == old(betInput) && hint == old(hint)
    {
      isSpinning := false;
      spinDisabled := false;
    }
  }

  /** Every way a started spin can end leaves the page ready for the next one, and a
      second press during a spin sends nothing. */
  method SpinLifecycle(page: Page, betType: string, field: string, outcome: nat)
    requires !page.isSpinning && BetHint(page.currentBalance, page.betInput) == Ready
    requires outcome < 3
    modifies page
    ensures !page.isSpinning
  {
    var first := page.SpinRoulette(betType, field);
    assert first.Some?;
    var second := page.SpinRoulette(betType, field);
    assert second.None? && page.isSpinning;
    if outcome == 0 {
      page.SpinRefused();
    } else if outcome == 1 {
      page.ConnectionFailed();
    } else {
      page.SpinCompleted();
    }
  }
}
