/** The roulette engine of the game controller: the colour table, the win-rate and
    organic-mode resolution, the manipulation step, the filter-and-pick generators,
    the payout table, and the validation and settlement of the spin handler.
    Every `Math.random()` draw is a parameter in [0, 1). */
module Roulette {
  import opened Wrappers
  import opened Models
  import Js
  import opened Odds

  datatype Color = Green | Red | Black

  /** The colour as the engine spells it. */
  function ColorName(c: Color): string {
    match c
    case Green => "green"
    case Red => "red"
    case Black => "black"
  }

  // The colour table, laid out in the rows the engine uses: 0, then 1-6, 7-12, ..., 31-36.
  const Row0: seq<Color> := [Green]
  const Row1: seq<Color> := [Red, Black, Red, Black, Red, Black]
  const Row2: seq<Color> := [Red, Black, Red, Black, Black, Red]
  const Row3: seq<Color> := [Black, Red, Black, Red, Black, Red]
  const Row4: seq<Color> := [Red, Black, Red, Black, Red, Black]
  const Row5: seq<Color> := [Red, Black, Red, Black, Black, Red]
  const Row6: seq<Color> := [Black, Red, Black, Red, Black, Red]
  const Wheel: seq<Color> := Row0 + Row1 + Row2 + Row3 + Row4 + Row5 + Row6

  function Count(s: seq<Color>, c: Color): nat {
    if s == [] then 0 else (if s[0] == c then 1 else 0) + Count(s[1..], c)
  }

  lemma {:induction false} CountAppend(a: seq<Color>, b: seq<Color>, c: Color)
    ensures Count(a + b, c) == Count(a, c) + Count(b, c)
  {
    if a == [] {
      assert a + b == b;
    } else {
      assert (a + b)[0] == a[0] && (a + b)[1..] == a[1..] + b;
      CountAppend(a[1..], b, c);
    }
  }

  /** The table covers the pockets 0..36: 0 is the only green pocket, and 18
      pockets each are red and black. */
  lemma WheelCounts()
    ensures |Wheel| == 37 && Wheel[0] == Green
    ensures Count(Wheel, Green) == 1 && Count(Wheel, Red) == 18 && Count(Wheel, Black) == 18
  {
    forall c: Color
      ensures Count(Wheel, c) == Count(Row0, c) + Count(Row1, c) + Count(Row2, c)
        + Count(Row3, c) + Count(Row4, c) + Count(Row5, c) + Count(Row6, c)
    {
      CountAppend(Row0 + Row1 + Row2 + Row3 + Row4 + Row5, Row6, c);
      CountAppend(Row0 + Row1 + Row2 + Row3 + Row4, Row5, c);
      CountAppend(Row0 + Row1 + Row2 + Row3, Row4, c);
      CountAppend(Row0 + Row1 + Row2, Row3, c);
      CountAppend(Row0 + Row1, Row2, c);
      CountAppend(Row0, Row1, c);
    }
  }

  /** The colour table's entry for n: a colour for the keys 0..36, none for any other n. */
  function ColorAt(n: int): (r: Option<Color>)
    ensures r.Some? <==> 0 <= n <= 36
  {
    if 0 <= n < |Wheel| then Some(Wheel[n]) else None
  }

  /** The table's keys read back as numbers: the pockets 0..36 in ascending order. */
  function Numbers(): (r: seq<int>)
    ensures |r| == 37
    ensures forall i :: 0 <= i < 37 ==> r[i] == i
    ensures forall n :: n in r <==> 0 <= n <= 36
  {
    var r := seq(37, i => i);
    assert forall n :: n in r <==> 0 <= n <= 36 by {
      forall n | 0 <= n <= 36 ensures n in r {
        assert r[n] == n;
      }
      forall n | n in r ensures 0 <= n <= 36 {
        var i :| 0 <= i < |r| && r[i] == n;
      }
    }
    r
  }

  /** The bet types the win check recognises. */
  const Recognised: set<string> := {"number", "red", "black", "odd", "even"}

  /** The win check of the spin handler. The switch has no default branch, so any
      other bet type never wins; parity uses JavaScript's `%` and excludes 0. */
  predicate Wins(betType: string, betValue: int, result: int) {
    if betType == "number" then result == betValue
    else if betType == "red" then ColorAt(result) == Some(Red)
    else if betType == "black" then ColorAt(result) == Some(Black)
    else if betType == "odd" then result != 0 && Js.Rem(result, 2) == 1
    else if betType == "even" then result != 0 && Js.Rem(result, 2) == 0
    else false
  }

  /** A uniform pick from a non-empty pool, indexed by the scaled draw. */
  function Pick(pool: seq<int>, u: real): (r: int)
    requires 0.0 <= u < 1.0
    requires pool != []
    ensures r in pool
  {
    pool[Js.RandomIndex(u, |pool|)]
  }

  /** generateWinningNumber: the chosen number itself for a straight bet, a draw from
      the pockets that satisfy the bet for the four outside bets, and an
      unconstrained draw from 0..36 for any other bet type. */
  function WinningNumber(betType: string, betValue: int, u: real): (r: int)
    requires 0.0 <= u < 1.0
    ensures betType in Recognised ==> Wins(betType, betValue, r)
    ensures betType == "number" ==> r == betValue
    ensures betType != "number" ==> 0 <= r <= 36
  {
    var numbers := Numbers();
    assert 1 in numbers && 2 in numbers;
    assert Wheel[1] == Red && Wheel[2] == Black;
    if betType == "number" then betValue
    else if betType == "red" then Pick(Js.Filter(numbers, n => ColorAt(n) == Some(Red)), u)
    else if betType == "black" then Pick(Js.Filter(numbers, n => ColorAt(n) == Some(Black)), u)
    else if betType == "odd" then Pick(Js.Filter(numbers, n => n != 0 && Js.Rem(n, 2) == 1), u)
    else if betType == "even" then Pick(Js.Filter(numbers, n => n != 0 && Js.Rem(n, 2) == 0), u)
    else Js.RandomIndex(u, 37)
  }

  /** generateLosingNumber: a draw from the pockets that fail the bet (0 among them
      for the outside bets), and an unconstrained draw for any other bet type. */
  function LosingNumber(betType: string, betValue: int, u: real): (r: int)
    requires 0.0 <= u < 1.0
    ensures betType in Recognised ==> !Wins(betType, betValue, r)
    ensures 0 <= r <= 36
  {
    var numbers := Numbers();
    assert 0 in numbers && 1 in numbers;
    assert Wheel[0] == Green;
    if betType == "number" then Pick(Js.Filter(numbers, n => n != betValue), u)
    else if betType == "red" then Pick(Js.Filter(numbers, n => ColorAt(n) != Some(Red)), u)
    else if betType == "black" then Pick(Js.Filter(numbers, n => ColorAt(n) != Some(Black)), u)
    else if betType == "odd" then Pick(Js.Filter(numbers, n => n == 0 || Js.Rem(n, 2) == 0), u)
    else if betType == "even" then Pick(Js.Filter(numbers, n => n == 0 || Js.Rem(n, 2) == 1), u)
    else Js.RandomIndex(u, 37)
  }

  /** generateResult: decide the outcome first, then synthesise a pocket to match it.
      For a recognised bet type the spin is a win exactly when the roll is below the rate. */
  function GenerateResult(winRate: real, winRoll: real, pickRoll: real, betType: string, betValue: int): (r: int)
    requires 0.0 <= pickRoll < 1.0
    ensures betType in Recognised ==> (Wins(betType, betValue, r) <==> ShouldWin(winRate, winRoll))
  {
    if ShouldWin(winRate, winRoll) then WinningNumber(betType, betValue, pickRoll)
    else LosingNumber(betType, betValue, pickRoll)
  }

  /** getUserWinRate for roulette: 45 without a user; otherwise the user's roulette
      override, then the legacy override, then the 'roulette_win_rate' setting, then
      the 'default_win_rate' setting, then 45. */
  function WinRate(user: Option<User>, settings: seq<SettingRow>, parseFloat: string -> real): (rate: real)
    ensures user.None? ==> rate == 45.0
    ensures user.Some? ==> rate == FirstPresent(
      [user.value.rouletteWinRate, user.value.winRate,
       ParsedSetting(settings, "roulette_win_rate", parseFloat),
       ParsedSetting(settings, "default_win_rate", parseFloat)], 45.0)
  {
    if user.None? then 45.0
    else if user.value.rouletteWinRate.Some? then user.value.rouletteWinRate.value
    else if user.value.winRate.Some? then user.value.winRate.value
    else match FindSetting(settings, "roulette_win_rate")
      case Some(s) =>
        var cs := [user.value.rouletteWinRate, user.value.winRate,
                   ParsedSetting(settings, "roulette_win_rate", parseFloat),
                   ParsedSetting(settings, "default_win_rate", parseFloat)];
        assert cs[0].None? && cs[1].None? && cs[2] == Some(parseFloat(s));
        parseFloat(s)
      case None =>
        var cs := [user.value.rouletteWinRate, user.value.winRate,
                   ParsedSetting(settings, "roulette_win_rate", parseFloat),
                   ParsedSetting(settings, "default_win_rate", parseFloat)];
        assert cs[0].None? && cs[1].None? && cs[2].None?;
        match FindSetting(settings, "default_win_rate")
        case Some(s) =>
          assert cs[3] == Some(parseFloat(s));
          parseFloat(s)
        case None => 45.0
  }

  /** isRouletteOrganic: the user's override when set, else whether the setting
      holds the text 'true'; false when there is no such setting. */
  function UseOrganic(user: Option<User>, settings: seq<SettingRow>): (organic: bool)
    ensures user.Some? && user.value.rouletteUseOrganic.Some? ==> organic == user.value.rouletteUseOrganic.value
    ensures !(user.Some? && user.value.rouletteUseOrganic.Some?) ==>
      (organic <==> FindSetting(settings, "roulette_use_organic") == Some("true"))
  {
    if user.Some? && user.value.rouletteUseOrganic.Some? then user.value.rouletteUseOrganic.value
    else FindSetting(settings, "roulette_use_organic") == Some("true")
  }

  /** The payout multiplier: 35 for a straight bet, 1 for every other type (the
      outside bets are in the table at 1, the rest fall back to 1). */
  function Multiplier(betType: string): (m: nat)
    ensures m >= 1
    ensures m == 35 <==> betType == "number"
  {
    if betType == "number" then 35 else 1
  }

  /** calculateWinnings: the profit of a winning bet. */
  function CalculateWinnings(betAmount: real, betType: string): real {
    betAmount * Multiplier(betType) as real
  }

  /** The pocket a spin lands on: an unconstrained draw in organic mode, otherwise
      the manipulated result. */
  function SpinResult(user: User, settings: seq<SettingRow>, bet: Bet, rolls: Rolls, parseFloat: string -> real): int
    requires rolls.Valid()
  {
    if UseOrganic(Some(user), settings) then Js.RandomIndex(rolls.pick, 37)
    else GenerateResult(WinRate(Some(user), settings, parseFloat), rolls.win, rolls.pick, bet.betType, bet.betValue)
  }

  /** The request body: the amount (None when missing), the bet type, the chosen
      number as `parseInt` reads it (used by straight bets only), and the bet value
      as the text `toString` gives it (None when the field is missing or null). */
  datatype Bet = Bet(amount: Option<real>, betType: string, betValue: int, betText: Option<string>)

  /** The history column of the bet value, `betValue?.toString() || null`: a missing,
      null or empty value is stored as null, any other value as its text. */
  function StoredBetValue(text: Option<string>): (stored: Option<string>)
    ensures stored.Some? <==> text.Some? && text.value != ""
    ensures stored.Some? ==> stored == text
  {
    if text.Some? && text.value != "" then text else None
  }

  /** The `Math.random()` draws of one spin: the manipulation roll and the pick. */
  datatype Rolls = Rolls(win: real, pick: real) {
    predicate Valid() { 0.0 <= win < 1.0 && 0.0 <= pick < 1.0 }
  }

  datatype SpinReply =
    | InvalidBetAmount                                   // 400
    | UserNotFound                                       // 404
    | InsufficientBalance(balance: real, required: real) // 400
    | SpinFailed                                         // 500
    | Spun(result: int, resultColor: Option<string>, isWin: bool, winAmount: real, balance: real)

  predicate ValidAmount(bet: Bet) {
    bet.amount.Some? && bet.amount.value > 0.0
  }

  /** The balance a settled bet leaves: the winnings on top of the balance on a win,
      the stake taken off it on a loss. */
  function BalanceAfter(before: real, amount: real, betType: string, isWin: bool): real {
    if isWin then before + CalculateWinnings(amount, betType) else before - amount
  }

  /** The spin handler: validate the amount, find the user and check the balance, each
      refusal leaving the store as it was; then play the spin. */
  method Spin(db: Db, userId: int, bet: Bet, rolls: Rolls, parseFloat: string -> real) returns (reply: SpinReply)
    requires db.Valid() && rolls.Valid()
    modifies db
    ensures db.Valid()
    ensures db.deposits == old(db.deposits) && db.settings == old(db.settings)
    ensures reply == InvalidBetAmount <==> !ValidAmount(bet)
    ensures reply == UserNotFound <==> ValidAmount(bet) && userId !in old(db.users)
    ensures reply.InsufficientBalance? <==>
      ValidAmount(bet) && userId in old(db.users) && old(db.users[userId].balance) < bet.amount.value
    ensures reply.InsufficientBalance? ==>
      reply.balance == old(db.users[userId].balance) && reply.required == bet.amount.value
    ensures reply == SpinFailed <==>
      && ValidAmount(bet) && userId in old(db.users) && old(db.users[userId].balance) >= bet.amount.value
      && ColorAt(SpinResult(old(db.users[userId]), old(db.settings), bet, rolls, parseFloat)).None?
    ensures reply == InvalidBetAmount || reply == UserNotFound || reply.InsufficientBalance? ==>
      db.users == old(db.users) && db.history == old(db.history)
    ensures reply == SpinFailed ==>
      var user := old(db.users[userId]);
      var result := SpinResult(user, old(db.settings), bet, rolls, parseFloat);
      var balance := BalanceAfter(user.balance, bet.amount.value, bet.betType, Wins(bet.betType, bet.betValue, result));
      && db.users == old(db.users)[userId := user.(balance := balance)]
      && db.history == old(db.history)
    ensures reply.Spun? ==>
      var user := old(db.users[userId]);
      var amount := bet.amount.value;
      var record := RouletteRecord(userId, amount, bet.betType, StoredBetValue(bet.betText), reply.result,
                                   reply.resultColor, reply.isWin, reply.winAmount, reply.balance);
      && reply.result == SpinResult(user, old(db.settings), bet, rolls, parseFloat)
      && reply.resultColor == (match ColorAt(reply.result) case Some(c) => Some(ColorName(c)) case None => None)
      && reply.resultColor.Some?
      && reply.isWin == Wins(bet.betType, bet.betValue, reply.result)
      && reply.winAmount == (if reply.isWin then CalculateWinnings(amount, bet.betType) else 0.0)
      && Settled(user.balance, record)
      && db.users == old(db.users)[userId := user.(balance := reply.balance)]
      && db.history == old(db.history) + [record]
  {
    if bet.amount.None? || bet.amount.value <= 0.0 {
      reply := InvalidBetAmount;
    } else if userId !in db.users {
      reply := UserNotFound;
    } else if db.users[userId].balance < bet.amount.value {
      reply := InsufficientBalance(db.users[userId].balance, bet.amount.value);
    } else {
      reply := Play(db, userId, bet, rolls, parseFloat);
    }
  }

  /** The spin proper, once the bet and the balance have passed: draw the pocket,
      check the bet, settle and store the balance, then append the history row. The
      row's colour column refuses null, so a pocket off the wheel fails the request
      after the balance has already been stored, and no row is written. */
  method Play(db: Db, userId: int, bet: Bet, rolls: Rolls, parseFloat: string -> real) returns (reply: SpinReply)
    requires db.Valid() && rolls.Valid()
    requires ValidAmount(bet) && userId in db.users && db.users[userId].balance >= bet.amount.value
    modifies db
    ensures db.Valid()
    ensures db.deposits == old(db.deposits) && db.settings == old(db.settings)
    ensures reply == SpinFailed || reply.Spun?
    ensures reply == SpinFailed <==>
      ColorAt(SpinResult(old(db.users[userId]), old(db.settings), bet, rolls, parseFloat)).None?
    ensures reply == SpinFailed ==>
      var user := old(db.users[userId]);
      var result := SpinResult(user, old(db.settings), bet, rolls, parseFloat);
      var balance := BalanceAfter(user.balance, bet.amount.value, bet.betType, Wins(bet.betType, bet.betValue, result));
      && db.users == old(db.users)[userId := user.(balance := balance)]
      && db.history == old(db.history)
    ensures reply.Spun? ==>
      var user := old(db.users[userId]);
      var amount := bet.amount.value;
      var record := RouletteRecord(userId, amount, bet.betType, StoredBetValue(bet.betText), reply.result,
                                   reply.resultColor, reply.isWin, reply.winAmount, reply.balance);
      && reply.result == SpinResult(user, old(db.settings), bet, rolls, parseFloat)
      && reply.resultColor == (match ColorAt(reply.result) case Some(c) => Some(ColorName(c)) case None => None)
      && reply.resultColor.Some?
      && reply.isWin == Wins(bet.betType, bet.betValue, reply.result)
      && reply.winAmount == (if reply.isWin then CalculateWinnings(amount, bet.betType) else 0.0)
      && Settled(user.balance, record)
      && db.users == old(db.users)[userId := user.(balance := reply.balance)]
      && db.history == old(db.history) + [record]
  {
    var user := db.users[userId];
    var result, resultColor, isWin, winAmount, newBalance := Settle(user, db.settings, bet, rolls, parseFloat);
    db.users := db.users[userId := user.(balance := newBalance)];
    if resultColor.None? {
      reply := SpinFailed;
    } else {
      db.history := db.history + [RouletteRecord(userId, bet.amount.value, bet.betType, StoredBetValue(bet.betText), result,
                                                 resultColor, isWin, winAmount, newBalance)];
      reply := Spun(result, resultColor, isWin, winAmount, newBalance);
    }
  }

  /** Draw the pocket for a user's bet and settle it: the pocket, its colour name (none
      off the wheel), whether the bet wins, the winnings and the balance after. */
  method Settle(user: User, settings: seq<SettingRow>, bet: Bet, rolls: Rolls, parseFloat: string -> real)
    returns (result: int, resultColor: Option<string>, isWin: bool, winAmount: real, newBalance: real)
    requires rolls.Valid() && ValidAmount(bet)
    ensures result == SpinResult(user, settings, bet, rolls, parseFloat)
    ensures resultColor == (match ColorAt(result) case Some(c) => Some(ColorName(c)) case None => None)
    ensures isWin == Wins(bet.betType, bet.betValue, result)
    ensures winAmount == (if isWin then CalculateWinnings(bet.amount.value, bet.betType) else 0.0)
    ensures newBalance == BalanceAfter(user.balance, bet.amount.value, bet.betType, isWin)
  {
    var useOrganic := UseOrganic(Some(user), settings);
    result := if useOrganic then Js.RandomIndex(rolls.pick, 37)
      else GenerateResult(WinRate(Some(user), settings, parseFloat), rolls.win, rolls.pick, bet.betType, bet.betValue);
    resultColor, isWin, winAmount, newBalance := Judge(result, bet.betType, bet.betValue, bet.amount.value, user.balance);
  }

  /** Check a bet against the pocket drawn and settle it from the balance before. */
  method Judge(result: int, betType: string, betValue: int, betAmount: real, currentBalance: real)
    returns (resultColor: Option<string>, isWin: bool, winAmount: real, newBalance: real)
    ensures resultColor == (match ColorAt(result) case Some(c) => Some(ColorName(c)) case None => None)
    ensures isWin == Wins(betType, betValue, result)
    ensures winAmount == (if isWin then CalculateWinnings(betAmount, betType) else 0.0)
    ensures newBalance == BalanceAfter(currentBalance, betAmount, betType, isWin)
  {
    resultColor := match ColorAt(result) case Some(c) => Some(ColorName(c)) case None => None;

    isWin := false;
    if betType == "number" {
      isWin := result == betValue;
    } else if betType == "red" {
      isWin := resultColor == Some("red");
    } else if betType == "black" {
      isWin := resultColor == Some("black");
    } else if betType == "odd" {
      isWin := result != 0 && Js.Rem(result, 2) == 1;
    } else if betType == "even" {
      isWin := result != 0 && Js.Rem(result, 2) == 0;
    }

    winAmount := 0.0;
    newBalance := currentBalance - betAmount;
    if isWin {
      winAmount := CalculateWinnings(betAmount, betType);
      newBalance := currentBalance + winAmount;
    }
  }

  /** Pocket 0 loses every outside bet, and it is in every pool a losing outside bet
      draws from. */
  lemma ZeroLosesOutsideBets(betType: string, betValue: int)
    requires betType in {"red", "black", "odd", "even"}
    ensures !Wins(betType, betValue, 0)
  {
    assert Wheel[0] == Green;
  }

  /** For a bet type outside the switch, the manipulation decision has no effect: both
      generators make the same unconstrained draw, and the spin never wins. */
  lemma UnrecognisedBetIgnoresDecision(betType: string, betValue: int, winRate: real, winRoll: real, pickRoll: real)
    requires betType !in Recognised
    requires 0.0 <= pickRoll < 1.0
    ensures WinningNumber(betType, betValue, pickRoll) == LosingNumber(betType, betValue, pickRoll)
    ensures 0 <= GenerateResult(winRate, winRoll, pickRoll, betType, betValue) <= 36
    ensures forall r :: !Wins(betType, betValue, r)
  {
  }

  /** A straight bet is never range-checked: on a number off the wheel the forced
      win returns that number, which has no colour and still wins 35 to 1, so the
      spin stores the credit and then fails on the history row (see OffTheWheelSpin). */
  lemma StraightBetOffTheWheel(u: real)
    requires 0.0 <= u < 1.0
    ensures WinningNumber("number", 99, u) == 99
    ensures ColorAt(99) == None && Wins("number", 99, 99)
    ensures CalculateWinnings(1000.0, "number") == 35000.0
  {
  }

  /** A forced straight win on a number off the wheel: the pocket drawn is that number,
      it has no colour and the bet wins, so Spin replies SpinFailed with the stake's
      35-fold winnings already added to the balance and no history row written. */
  lemma OffTheWheelSpin(user: User, settings: seq<SettingRow>, bet: Bet, rolls: Rolls, parseFloat: string -> real)
    requires rolls.Valid() && ValidAmount(bet)
    requires !UseOrganic(Some(user), settings) && ShouldWin(WinRate(Some(user), settings, parseFloat), rolls.win)
    requires bet.betType == "number" && !(0 <= bet.betValue <= 36)
    ensures SpinResult(user, settings, bet, rolls, parseFloat) == bet.betValue
    ensures ColorAt(SpinResult(user, settings, bet, rolls, parseFloat)).None?
    ensures Wins(bet.betType, bet.betValue, SpinResult(user, settings, bet, rolls, parseFloat))
    ensures BalanceAfter(user.balance, bet.amount.value, bet.betType, true) == user.balance + 35.0 * bet.amount.value
  {
  }
}
