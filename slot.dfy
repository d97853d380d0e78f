/** The slot engine of the slot controller: the weighted symbol table, the
    cumulative-weight pick, the forced-win and forced-lose reels, the payout
    evaluator, the validation and settlement of the spin handler, and the reel
    split of the history reader. Every `Math.random()` draw is a parameter. */
module Slot {
  import opened Wrappers
  import opened Models
  import Js
  import opened Odds

  /** MIN_BET of the slot controller, in rupiah. */
  const MinBet: real := 1000.0

  datatype Symbol = Symbol(key: string, name: string, weight: nat, multiplier: nat)

  /** The symbol table, in table order: rarer symbols pay more. The engine calls the
      `name` field `label`, a word Dafny reserves. */
  const Symbols: seq<Symbol> := [
    Symbol("7", "7", 1, 10),
    Symbol("BAR", "BAR", 2, 6),
    Symbol("CHERRY", "CHERRY", 4, 4),
    Symbol("LEMON", "LEMON", 8, 3),
    Symbol("ORANGE", "ORANGE", 10, 2),
    Symbol("GRAPE", "GRAPE", 12, 1)
  ]

  /** The sum of the weights, added from the front as `reduce` does. */
  function SumWeights(s: seq<Symbol>): nat {
    if s == [] then 0 else s[0].weight + SumWeights(s[1..])
  }

  /** totalWeight. */
  function TotalWeight(): nat {
    SumWeights(Symbols)
  }

  /** The cumulative weight of the symbols before index i. */
  function WeightBefore(i: nat): nat
    requires i <= |Symbols|
  {
    if i == 0 then 0 else WeightBefore(i - 1) + Symbols[i - 1].weight
  }

  /** The table: six symbols with distinct keys, every multiplier at least 1, no key
      containing the history separator, a total weight of 37, and cumulative weights
      0, 1, 3, 7, 15, 25, 37. */
  lemma SymbolTable()
    ensures |Symbols| == 6
    ensures forall i, j :: 0 <= i < j < |Symbols| ==> Symbols[i].key != Symbols[j].key
    ensures forall s :: s in Symbols ==> s.multiplier >= 1 && '|' !in s.key && s.key != ""
    ensures TotalWeight() == 37
    ensures WeightBefore(0) == 0 && WeightBefore(1) == 1 && WeightBefore(2) == 3 && WeightBefore(3) == 7
    ensures WeightBefore(4) == 15 && WeightBefore(5) == 25 && WeightBefore(6) == 37
  {
    assert SumWeights(Symbols[5..]) == 12;
    assert SumWeights(Symbols[4..]) == 22;
    assert SumWeights(Symbols[3..]) == 30;
    assert SumWeights(Symbols[2..]) == 34;
    assert SumWeights(Symbols[1..]) == 36;
  }

  /** Cumulative weights never decrease. */
  lemma {:induction false} WeightBeforeMonotone(j: nat, k: nat)
    requires j <= k <= |Symbols|
    ensures WeightBefore(j) <= WeightBefore(k)
  {
    if j < k {
      WeightBeforeMonotone(j, k - 1);
    }
  }

  /** The index a weighted roll lands on, searching from index i: the first symbol
      whose cumulative weight exceeds the roll, or the last symbol when none does. */
  function BandFrom(roll: real, i: nat): (b: nat)
    requires i < |Symbols|
    ensures i <= b < |Symbols|
    decreases |Symbols| - i
  {
    if i == |Symbols| - 1 || roll < WeightBefore(i + 1) as real then i
    else BandFrom(roll, i + 1)
  }

  function Band(roll: real): nat {
    BandFrom(roll, 0)
  }

  /** The symbol a draw u selects: the roll is u scaled to the total weight. */
  function Draw(u: real): (s: Symbol)
    requires 0.0 <= u
    ensures s in Symbols
  {
    Symbols[Band(u * TotalWeight() as real)]
  }

  lemma {:induction false} BandFromBounds(roll: real, i: nat)
    requires i < |Symbols|
    requires WeightBefore(i) as real <= roll < 37.0
    ensures WeightBefore(BandFrom(roll, i)) as real <= roll < WeightBefore(BandFrom(roll, i) + 1) as real
    decreases |Symbols| - i
  {
    SymbolTable();
    if i < |Symbols| - 1 && roll >= WeightBefore(i + 1) as real {
      BandFromBounds(roll, i + 1);
    }
  }

  /** A roll in [0, 37) lands on symbol i exactly when it lies in [WeightBefore(i),
      WeightBefore(i + 1)), an interval whose width is the symbol's weight. */
  lemma {:induction false} BandIff(roll: real, i: nat)
    requires 0.0 <= roll < 37.0
    requires i < |Symbols|
    ensures Band(roll) == i <==> WeightBefore(i) as real <= roll < WeightBefore(i + 1) as real
    ensures WeightBefore(i + 1) - WeightBefore(i) == Symbols[i].weight
  {
    BandFromBounds(roll, 0);
    var b := Band(roll);
    if b < i {
      WeightBeforeMonotone(b + 1, i);
    } else if i < b {
      WeightBeforeMonotone(i + 1, b);
    }
  }

  /** pickSymbol: walk the table, subtracting each weight from the roll, and return the
      first symbol whose weight exceeds what is left; the last symbol is the fallback. */
  method PickSymbol(u: real) returns (s: Symbol)
    requires 0.0 <= u
    ensures s == Draw(u)
  {
    var roll := u * TotalWeight() as real;
    ghost var start := roll;
    var i := 0;
    while i < |Symbols|
      invariant 0 <= i <= |Symbols|
      invariant roll == start - WeightBefore(i) as real
      invariant i < |Symbols| ==> Band(start) == BandFrom(start, i)
      invariant i == |Symbols| ==> Band(start) == |Symbols| - 1
    {
      if roll < Symbols[i].weight as real {
        return Symbols[i];
      }
      roll := roll - Symbols[i].weight as real;
      i := i + 1;
    }
    return Symbols[|Symbols| - 1];
  }

  /** Three of a kind: all three reels carry the same key. */
  predicate ThreeOfAKind(reels: seq<Symbol>) {
    |reels| == 3 && reels[0].key == reels[1].key && reels[1].key == reels[2].key
  }

  predicate FromTable(reels: seq<Symbol>) {
    forall i :: 0 <= i < |reels| ==> reels[i] in Symbols
  }

  /** The reels of an unconstrained spin. */
  function SpunReels(u0: real, u1: real, u2: real): (reels: seq<Symbol>)
    requires 0.0 <= u0 && 0.0 <= u1 && 0.0 <= u2
    ensures |reels| == 3 && FromTable(reels)
  {
    [Draw(u0), Draw(u1), Draw(u2)]
  }

  /** The reels of a forced win: one drawn symbol on all three reels. */
  function WinningReels(u: real): (reels: seq<Symbol>)
    requires 0.0 <= u
    ensures ThreeOfAKind(reels) && FromTable(reels)
  {
    [Draw(u), Draw(u), Draw(u)]
  }

  /** The symbols whose key differs from the given one; never empty, since the
      table holds six distinct keys. */
  function Alternatives(key: string): (r: seq<Symbol>)
    ensures r != []
    ensures forall s :: s in r <==> s in Symbols && s.key != key
  {
    var r := Js.Filter(Symbols, (s: Symbol) => s.key != key);
    assert Symbols[0].key != key ==> Symbols[0] in r;
    assert Symbols[1].key != key ==> Symbols[1] in r;
    r
  }

  /** The reels of a forced loss: an unconstrained spin, and when that spin happens to
      be three of a kind, reel 2 replaced by a draw from the symbols with another key. */
  function LosingReels(u0: real, u1: real, u2: real, alt: real): (reels: seq<Symbol>)
    requires 0.0 <= u0 && 0.0 <= u1 && 0.0 <= u2
    requires 0.0 <= alt < 1.0
    ensures |reels| == 3 && !ThreeOfAKind(reels) && FromTable(reels)
    ensures reels[0] == Draw(u0) && reels[1] == Draw(u1)
    ensures !ThreeOfAKind(SpunReels(u0, u1, u2)) ==> reels[2] == Draw(u2)
  {
    var first, second, third := Draw(u0), Draw(u1), Draw(u2);
    if first.key == second.key && second.key == third.key then [first, second, Replacement(first.key, alt)]
    else [first, second, third]
  }

  /** The replacement symbol of a forced loss: a uniform draw from the symbols whose
      key differs from the given one. */
  function Replacement(key: string, alt: real): (s: Symbol)
    requires 0.0 <= alt < 1.0
    ensures s in Symbols && s.key != key
  {
    var alternatives := Alternatives(key);
    var s := alternatives[Js.RandomIndex(alt, |alternatives|)];
    assert s in alternatives;
    s
  }

  /** spinReels. */
  method SpinReels(u0: real, u1: real, u2: real) returns (reels: seq<Symbol>)
    requires 0.0 <= u0 && 0.0 <= u1 && 0.0 <= u2
    ensures reels == SpunReels(u0, u1, u2)
  {
    var first := PickSymbol(u0);
    var second := PickSymbol(u1);
    var third := PickSymbol(u2);
    reels := [first, second, third];
  }

  /** generateWinningReels. */
  method GenerateWinningReels(u: real) returns (reels: seq<Symbol>)
    requires 0.0 <= u
    ensures reels == WinningReels(u)
  {
    var symbol := PickSymbol(u);
    reels := [symbol, symbol, symbol];
  }

  /** generateLosingReels: spin, and overwrite reel 2 when the spin is three of a kind. */
  method GenerateLosingReels(u0: real, u1: real, u2: real, alt: real) returns (reels: seq<Symbol>)
    requires 0.0 <= u0 && 0.0 <= u1 && 0.0 <= u2
    requires 0.0 <= alt < 1.0
    ensures reels == LosingReels(u0, u1, u2, alt)
  {
    reels := SpinReels(u0, u1, u2);
    if reels[0].key == reels[1].key && reels[1].key == reels[2].key {
      var alternatives := Alternatives(reels[0].key);
      reels := reels[2 := alternatives[Js.RandomIndex(alt, |alternatives|)]];
      assert reels[2] == Replacement(reels[0].key, alt);
    }
  }

  /** evaluateReels: the shared symbol's multiplier for three of a kind, else 0. Since
      every multiplier in the table is at least 1, table reels pay exactly when they
      are three of a kind. */
  function EvaluateReels(reels: seq<Symbol>): (m: nat)
    requires |reels| == 3
    ensures m == 0 || m == reels[0].multiplier
    ensures ThreeOfAKind(reels) ==> m == reels[0].multiplier
    ensures FromTable(reels) ==> (m > 0 <==> ThreeOfAKind(reels))
  {
    if reels[0].key == reels[1].key && reels[1].key == reels[2].key then
      SymbolTable();
      reels[0].multiplier
    else 0
  }

  /** getUserWinRate for slots: the user's slot override, then the legacy override,
      then the 'slot_win_rate' setting, then the 'default_win_rate' setting, then 45.
      Without a user only the settings and the default remain. */
  function WinRate(user: Option<User>, settings: seq<SettingRow>, parseFloat: string -> real): (rate: real)
    ensures rate == FirstPresent(
      [if user.Some? then user.value.slotWinRate else None,
       if user.Some? then user.value.winRate else None,
       ParsedSetting(settings, "slot_win_rate", parseFloat),
       ParsedSetting(settings, "default_win_rate", parseFloat)], 45.0)
  {
    var cs := [if user.Some? then user.value.slotWinRate else None,
               if user.Some? then user.value.winRate else None,
               ParsedSetting(settings, "slot_win_rate", parseFloat),
               ParsedSetting(settings, "default_win_rate", parseFloat)];
    if user.Some? && user.value.slotWinRate.Some? then user.value.slotWinRate.value
    else if user.Some? && user.value.winRate.Some? then user.value.winRate.value
    else
      assert cs[0].None? && cs[1].None?;
      match FindSetting(settings, "slot_win_rate")
      case Some(s) =>
        assert cs[2] == Some(parseFloat(s));
        parseFloat(s)
      case None =>
        assert cs[2].None?;
        match FindSetting(settings, "default_win_rate")
        case Some(s) =>
          assert cs[3] == Some(parseFloat(s));
          parseFloat(s)
        case None => 45.0
  }

  /** isSlotOrganic: the user's override when set, else whether the setting holds the
      text 'true'; false when there is no such setting. */
  function UseOrganic(user: Option<User>, settings: seq<SettingRow>): (organic: bool)
    ensures user.Some? && user.value.slotUseOrganic.Some? ==> organic == user.value.slotUseOrganic.value
    ensures !(user.Some? && user.value.slotUseOrganic.Some?) ==>
      (organic <==> FindSetting(settings, "slot_use_organic") == Some("true"))
  {
    if user.Some? && user.value.slotUseOrganic.Some? then user.value.slotUseOrganic.value
    else FindSetting(settings, "slot_use_organic") == Some("true")
  }

  /** The draws of one slot spin: the manipulation roll, one roll per reel, and the
      roll that picks the replacement symbol of a forced loss. */
  datatype SlotRolls = SlotRolls(win: real, reel0: real, reel1: real, reel2: real, alt: real) {
    predicate Valid() {
      0.0 <= win < 1.0 && 0.0 <= reel0 < 1.0 && 0.0 <= reel1 < 1.0 && 0.0 <= reel2 < 1.0 && 0.0 <= alt < 1.0
    }
  }

  /** The reels a spin shows: unconstrained in organic mode, otherwise forced to win or
      to lose by the manipulation roll. */
  function Outcome(user: User, settings: seq<SettingRow>, rolls: SlotRolls, parseFloat: string -> real): (reels: seq<Symbol>)
    requires rolls.Valid()
    ensures |reels| == 3 && FromTable(reels)
  {
    if UseOrganic(Some(user), settings) then SpunReels(rolls.reel0, rolls.reel1, rolls.reel2)
    else if ShouldWin(WinRate(Some(user), settings, parseFloat), rolls.win) then WinningReels(rolls.reel0)
    else LosingReels(rolls.reel0, rolls.reel1, rolls.reel2, rolls.alt)
  }

  /** In manipulated mode the spin pays exactly when the roll is below the resolved rate. */
  lemma ManipulatedOutcome(user: User, settings: seq<SettingRow>, rolls: SlotRolls, parseFloat: string -> real)
    requires rolls.Valid()
    requires !UseOrganic(Some(user), settings)
    ensures |Outcome(user, settings, rolls, parseFloat)| == 3
    ensures EvaluateReels(Outcome(user, settings, rolls, parseFloat)) > 0
        <==> ShouldWin(WinRate(Some(user), settings, parseFloat), rolls.win)
  {
  }

  /** The reel choice of the spin handler: an unconstrained spin in organic mode,
      otherwise the manipulation roll forces a win or a loss. */
  method SpinOutcome(user: User, settings: seq<SettingRow>, rolls: SlotRolls, parseFloat: string -> real)
    returns (reels: seq<Symbol>)
    requires rolls.Valid()
    ensures reels == Outcome(user, settings, rolls, parseFloat)
  {
    var useOrganic := UseOrganic(Some(user), settings);
    if useOrganic {
      reels := SpinReels(rolls.reel0, rolls.reel1, rolls.reel2);
    } else {
      var winRequested := ShouldWin(WinRate(Some(user), settings, parseFloat), rolls.win);
      if winRequested {
        reels := GenerateWinningReels(rolls.reel0);
      } else {
        reels := GenerateLosingReels(rolls.reel0, rolls.reel1, rolls.reel2, rolls.alt);
      }
    }
  }

  /** The key of each reel, in reel order. */
  function KeysOf(reels: seq<Symbol>): (keys: seq<string>)
    ensures |keys| == |reels|
    ensures forall i :: 0 <= i < |reels| ==> keys[i] == reels[i].key
  {
    seq(|reels|, i requires 0 <= i < |reels| => reels[i].key)
  }

  /** The profit of a winning spin: the bet times the multiplier. */
  function Payout(betAmount: real, multiplier: nat): real {
    betAmount * multiplier as real
  }

  datatype SlotReply =
    | BelowMinimum                                       // 400
    | UserNotFound                                       // 404
    | InsufficientBalance(balance: real, required: real) // 400
    | Spun(reels: seq<string>, isWin: bool, multiplier: nat, winAmount: real, balance: real)

  /** The bet guard: a missing, zero or non-numeric bet (None), or one under the minimum. */
  predicate Rejected(amount: Option<real>) {
    amount.None? || amount.value == 0.0 || amount.value < MinBet
  }

  /** The spin handler: reject a bet below the minimum before looking the user up, then
      a bet above the balance; otherwise spin, evaluate, settle, store the balance and
      append the history row with the reel keys joined by '|'. */
  method Spin(db: Db, userId: int, amount: Option<real>, rolls: SlotRolls, parseFloat: string -> real)
    returns (reply: SlotReply)
    requires db.Valid() && rolls.Valid()
    modifies db
    ensures db.Valid()
    ensures db.deposits == old(db.deposits) && db.settings == old(db.settings)
    ensures reply == BelowMinimum <==> Rejected(amount)
    ensures reply == UserNotFound <==> !Rejected(amount) && userId !in old(db.users)
    ensures reply.InsufficientBalance? <==>
      !Rejected(amount) && userId in old(db.users) && old(db.users[userId].balance) < amount.value
    ensures reply.InsufficientBalance? ==>
      reply.balance == old(db.users[userId].balance) && reply.required == amount.value
    ensures !reply.Spun? ==> db.users == old(db.users) && db.history == old(db.history)
    ensures reply.Spun? ==>
      var user := old(db.users[userId]);
      var reels := Outcome(user, old(db.settings), rolls, parseFloat);
      var record := SlotRecord(userId, amount.value, Js.Join(reply.reels, '|'), reply.multiplier,
                               reply.isWin, reply.winAmount, reply.balance);
      && |reels| == 3
      && reply.reels == KeysOf(reels)
      && reply.multiplier == EvaluateReels(reels)
      && (reply.isWin <==> ThreeOfAKind(reels))
      && reply.winAmount == (if reply.isWin then Payout(amount.value, reply.multiplier) else 0.0)
      && Settled(user.balance, record)
      && db.users == old(db.users)[userId := user.(balance := reply.balance)]
      && db.history == old(db.history) + [record]
  {
    if amount.None? || amount.value == 0.0 || amount.value < MinBet {
      reply := BelowMinimum;
    } else if userId !in db.users {
      reply := UserNotFound;
    } else if db.users[userId].balance < amount.value {
      reply := InsufficientBalance(db.users[userId].balance, amount.value);
    } else {
      reply := Play(db, userId, amount.value, rolls, parseFloat);
    }
  }

  /** The spin proper, once the bet and the balance have passed: spin, evaluate,
      settle, store the balance and append the history row. */
  method Play(db: Db, userId: int, betAmount: real, rolls: SlotRolls, parseFloat: string -> real)
    returns (reply: SlotReply)
    requires db.Valid() && rolls.Valid()
    requires userId in db.users && MinBet <= betAmount <= db.users[userId].balance
    modifies db
    ensures db.Valid()
    ensures db.deposits == old(db.deposits) && db.settings == old(db.settings)
    ensures reply.Spun?
    ensures
      var user := old(db.users[userId]);
      var reels := Outcome(user, old(db.settings), rolls, parseFloat);
      var record := SlotRecord(userId, betAmount, Js.Join(reply.reels, '|'), reply.multiplier,
                               reply.isWin, reply.winAmount, reply.balance);
      && |reels| == 3
      && reply.reels == KeysOf(reels)
      && reply.multiplier == EvaluateReels(reels)
      && (reply.isWin <==> ThreeOfAKind(reels))
      && reply.winAmount == (if reply.isWin then Payout(betAmount, reply.multiplier) else 0.0)
      && Settled(user.balance, record)
      && db.users == old(db.users)[userId := user.(balance := reply.balance)]
      && db.history == old(db.history) + [record]
  {
    var user := db.users[userId];
    var currentBalance := user.balance;
    var reels := SpinOutcome(user, db.settings, rolls, parseFloat);
    var multiplier := EvaluateReels(reels);
    var isWin := multiplier > 0;

    var winAmount := if isWin then Payout(betAmount, multiplier) else 0.0;
    var newBalance := if isWin then currentBalance + winAmount else currentBalance - betAmount;

    var keys := KeysOf(reels);
    assert user.id == userId;
    db.users := db.users[userId := user.(balance := newBalance)];
    db.history := db.history + [SlotRecord(userId, betAmount, Js.Join(keys, '|'), multiplier,
                                           isWin, winAmount, newBalance)];
    reply := Spun(keys, isWin, multiplier, winAmount, newBalance);
  }

  /** The reel split of the history reader: an absent or empty stored value reads
      back as no reels, anything else is split on '|'. */
  function ReadReels(betValue: Option<string>): seq<string> {
    if betValue.None? || betValue.value == "" then [] else Js.Split(betValue.value, '|')
  }

  /** What a spin stores is what the history reader shows: the reel keys. */
  lemma {:induction false} HistoryRoundTrip(reels: seq<Symbol>)
    requires |reels| == 3 && FromTable(reels)
    ensures ReadReels(Some(Js.Join(KeysOf(reels), '|'))) == KeysOf(reels)
  {
    SymbolTable();
    var keys := KeysOf(reels);
    assert forall k :: k in keys ==> '|' !in k;
    assert Js.Join(keys, '|') == keys[0] + ['|'] + Js.Join(keys[1..], '|');
    Js.SplitJoin(keys, '|');
  }
}
