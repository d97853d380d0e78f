/** The rules both game pages apply before a spin and after a win: the ordered bet
    gate behind the spin button and the tier of the win sound. The two pages carry
    identical copies of these rules; they are stated once here. */
module ClientRules {
  /** The smallest bet either page lets through. */
  const MinBet: real := 1000.0

  /** The win-sound thresholds. */
  const WinMediumThreshold: real := 50000.0
  const WinHighThreshold: real := 200000.0

  /** The hint under the bet field; only `Ready` enables the spin button. */
  datatype Hint = LowBalance | BelowMinimum | OverBalance | Ready

  /** updateBetHint / updateBetHelp: a balance under the minimum first, then a bet
      under the minimum, then a bet over the balance; otherwise the spin is allowed. */
  function BetHint(balance: real, bet: real): (h: Hint)
    ensures h == Ready <==> MinBet <= bet <= balance
    ensures h == LowBalance <==> balance < MinBet
    ensures h == BelowMinimum <==> MinBet <= balance && bet < MinBet
    ensures h == OverBalance <==> MinBet <= balance && MinBet <= bet && balance < bet
  {
    if balance < MinBet then LowBalance
    else if bet < MinBet then BelowMinimum
    else if bet > balance then OverBalance
    else Ready
  }

  /** The spin guard of both pages: a missing or zero bet, or one under the minimum,
      stops first; then a balance under the minimum or a bet over the balance. */
  predicate SpinAllowed(balance: real, bet: real) {
    !(bet == 0.0 || bet < MinBet) && !(balance < MinBet || bet > balance)
  }

  /** The spin guard and the hint agree: a spin starts exactly when the hint would
      enable the button. */
  lemma SpinAllowedIffReady(balance: real, bet: real)
    ensures SpinAllowed(balance, bet) <==> BetHint(balance, bet) == Ready
  {
  }

  datatype Sound = Silent | WinLow | WinMedium | WinHigh

  /** The sounds ordered by loudness. */
  function Rank(s: Sound): (n: nat)
    ensures n <= 3
  {
    match s
    case Silent => 0
    case WinLow => 1
    case WinMedium => 2
    case WinHigh => 3
  }

  /** playWinSound: nothing for an amount of zero or less, then the high sound from
      200000, the medium sound from 50000, the low sound below. */
  function WinSound(amount: real): (s: Sound)
    ensures s == Silent <==> amount <= 0.0
    ensures s == WinHigh <==> amount >= WinHighThreshold
    ensures s == WinMedium <==> WinMediumThreshold <= amount < WinHighThreshold
    ensures s == WinLow <==> 0.0 < amount < WinMediumThreshold
  {
    if amount <= 0.0 then Silent
    else if amount >= WinHighThreshold then WinHigh
    else if amount >= WinMediumThreshold then WinMedium
    else WinLow
  }

  /** A larger win never plays a quieter sound. */
  lemma WinSoundMonotone(a: real, b: real)
    requires a <= b
    ensures Rank(WinSound(a)) <= Rank(WinSound(b))
  {
  }
}
