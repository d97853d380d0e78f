/** The pieces the roulette and slot engines share: the first-present fallback of
    the win-rate chains, a setting read through `parseFloat`, and the manipulation
    roll. The two controllers each write these out; the model defines them once. */
module Odds {
  import opened Wrappers
  import opened Models

  /** The first present candidate, else the fallback. */
  function FirstPresent(candidates: seq<Option<real>>, fallback: real): (r: real)
    ensures (forall i :: 0 <= i < |candidates| ==> candidates[i].None?) ==> r == fallback
    ensures forall i :: (0 <= i < |candidates| && candidates[i].Some? &&
                         (forall j :: 0 <= j < i ==> candidates[j].None?)) ==> r == candidates[i].value
  {
    if candidates == [] then fallback
    else if candidates[0].Some? then candidates[0].value
    else FirstPresent(candidates[1..], fallback)
  }

  /** A setting parsed with `parseFloat`, when the row exists. */
  function ParsedSetting(settings: seq<SettingRow>, key: string, parseFloat: string -> real): Option<real> {
    match FindSetting(settings, key)
    case None => None
    case Some(s) => Some(parseFloat(s))
  }

  /** shouldWin (in both controllers): the manipulation step wins when a hundred times the
      draw falls below the win rate. */
  predicate ShouldWin(winRate: real, u: real) {
    u * 100.0 < winRate
  }

  /** The rate decides the forced outcome: a rate of 0 or below never forces a win,
      a rate of 100 or above always does, and a higher rate forces a win on every
      roll a lower one does. */
  lemma {:induction false} ShouldWinMonotone(low: real, high: real, u: real)
    requires 0.0 <= u < 1.0
    ensures low <= 0.0 ==> !ShouldWin(low, u)
    ensures high >= 100.0 ==> ShouldWin(high, u)
    ensures low <= high && ShouldWin(low, u) ==> ShouldWin(high, u)
  {
  }
}
