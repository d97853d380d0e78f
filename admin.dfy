/** The admin controller: partial user updates, the self-deletion guard, reading and
    upserting the game settings, the deposit approval state machine, and the profit
    arithmetic of the statistics page. */
module Admin {
  import opened Wrappers
  import opened Models
  import opened Js
  import Roulette
  import Slot

  // ---------------------------------------------------------------- users

  /** The fields an update request may carry. `Absent` is a field the body leaves
      undefined; a present override may be null (`Given(None)`), which clears it. */
  datatype UserUpdate = UserUpdate(
    balance: Field<real>,
    winRate: Field<Option<real>>,
    rouletteWinRate: Field<Option<real>>,
    slotWinRate: Field<Option<real>>,
    rouletteUseOrganic: Field<Option<bool>>,
    slotUseOrganic: Field<Option<bool>>,
    role: Field<Role>)

  /** The supplied value, or the current one when the field is absent. */
  function Or<T>(f: Field<T>, current: T): T {
    if f.Given? then f.value else current
  }

  /** The user after an update: every supplied field replaced, everything else kept. */
  function Applied(u: User, upd: UserUpdate): User {
    User(u.id, u.username, Or(upd.balance, u.balance), Or(upd.role, u.role),
         Or(upd.winRate, u.winRate), Or(upd.rouletteWinRate, u.rouletteWinRate),
         Or(upd.slotWinRate, u.slotWinRate), Or(upd.rouletteUseOrganic, u.rouletteUseOrganic),
         Or(upd.slotUseOrganic, u.slotUseOrganic))
  }

  /** The names of the fields that differ between two versions of a user. */
  function ChangedFields(a: User, b: User): (r: set<string>)
    ensures r == {} <==> a == b
  {
    (if a.id != b.id then {"id"} else {}) +
    (if a.username != b.username then {"username"} else {}) +
    (if a.balance != b.balance then {"balance"} else {}) +
    (if a.role != b.role then {"role"} else {}) +
    (if a.winRate != b.winRate then {"winRate"} else {}) +
    (if a.rouletteWinRate != b.rouletteWinRate then {"rouletteWinRate"} else {}) +
    (if a.slotWinRate != b.slotWinRate then {"slotWinRate"} else {}) +
    (if a.rouletteUseOrganic != b.rouletteUseOrganic then {"rouletteUseOrganic"} else {}) +
    (if a.slotUseOrganic != b.slotUseOrganic then {"slotUseOrganic"} else {})
  }

  /** The names of the fields a request supplies. */
  function Supplied(upd: UserUpdate): set<string> {
    (if upd.balance.Given? then {"balance"} else {}) +
    (if upd.role.Given? then {"role"} else {}) +
    (if upd.winRate.Given? then {"winRate"} else {}) +
    (if upd.rouletteWinRate.Given? then {"rouletteWinRate"} else {}) +
    (if upd.slotWinRate.Given? then {"slotWinRate"} else {}) +
    (if upd.rouletteUseOrganic.Given? then {"rouletteUseOrganic"} else {}) +
    (if upd.slotUseOrganic.Given? then {"slotUseOrganic"} else {})
  }

  /** Only supplied fields change, each to the supplied value; the id and the username
      never change; an empty request changes nothing; applying a request twice is the
      same as applying it once. */
  lemma AppliedChangesOnlySupplied(u: User, upd: UserUpdate)
    ensures ChangedFields(u, Applied(u, upd)) <= Supplied(upd)
    ensures upd.balance.Given? ==> Applied(u, upd).balance == upd.balance.value
    ensures upd.role.Given? ==> Applied(u, upd).role == upd.role.value
    ensures Supplied(upd) == {} ==> Applied(u, upd) == u
    ensures Applied(Applied(u, upd), upd) == Applied(u, upd)
  {
  }

  datatype UpdateReply = UpdateUserNotFound | UserUpdated(user: User)

  /** updateUser: look the user up, collect the supplied fields one by one, and apply them. */
  method UpdateUser(db: Db, id: int, upd: UserUpdate) returns (reply: UpdateReply)
    requires db.Valid()
    modifies db
    ensures db.Valid()
    ensures db.deposits == old(db.deposits) && db.settings == old(db.settings) && db.history == old(db.history)
    ensures reply == UpdateUserNotFound <==> id !in old(db.users)
    ensures reply == UpdateUserNotFound ==> db.users == old(db.users)
    ensures reply.UserUpdated? ==>
      && reply.user == Applied(old(db.users[id]), upd)
      && db.users == old(db.users)[id := reply.user]
  {
    if id !in db.users {
      return UpdateUserNotFound;
    }
    var user := db.users[id];
    if upd.balance.Given? { user := user.(balance := upd.balance.value); }
    if upd.winRate.Given? { user := user.(winRate := upd.winRate.value); }
    if upd.rouletteWinRate.Given? { user := user.(rouletteWinRate := upd.rouletteWinRate.value); }
    if upd.slotWinRate.Given? { user := user.(slotWinRate := upd.slotWinRate.value); }
    if upd.rouletteUseOrganic.Given? { user := user.(rouletteUseOrganic := upd.rouletteUseOrganic.value); }
    if upd.slotUseOrganic.Given? { user := user.(slotUseOrganic := upd.slotUseOrganic.value); }
    if upd.role.Given? { user := user.(role := upd.role.value); }
    db.users := db.users[id := user];
    reply := UserUpdated(user);
  }

  datatype DeleteReply = DeleteUserNotFound | CannotDeleteSelf | UserDeleted

  /** A deposit once the account that verified it is deleted: the nullable
      `verifiedBy` column is set to null (ON DELETE SET NULL). */
  function WithoutVerifier(d: Deposit, id: int): (r: Deposit)
    ensures r.verifiedBy != Some(id)
    ensures d.verifiedBy != Some(id) ==> r == d
    ensures r == d.(verifiedBy := r.verifiedBy)
  {
    if d.verifiedBy == Some(id) then d.(verifiedBy := None) else d
  }

  /** The deposit table after a user is deleted: the user's own requests go with the
      user (ON DELETE CASCADE on the non-null `userId`), and the requests the user
      verified lose their verifier. */
  function DepositsAfterDelete(deposits: map<int, Deposit>, id: int): (r: map<int, Deposit>)
    ensures forall k :: k in r <==> k in deposits && deposits[k].userId != id
    ensures forall k :: k in r ==> r[k].userId != id && r[k].verifiedBy != Some(id)
    ensures forall k :: k in r ==> r[k] == deposits[k].(verifiedBy := r[k].verifiedBy)
  {
    map k | k in deposits && deposits[k].userId != id :: WithoutVerifier(deposits[k], id)
  }

  /** The game history after a user is deleted: the user's records go with the user
      (ON DELETE CASCADE on the non-null `userId`). */
  function HistoryAfterDelete(history: seq<GameRecord>, id: int): (r: seq<GameRecord>)
    ensures |r| <= |history|
    ensures forall x :: x in r <==> x in history && x.userId != id
  {
    Filter(history, (x: GameRecord) => x.userId != id)
  }

  /** deleteUser: an unknown id is not found, and an admin may not delete their own
      account; otherwise the user row goes, and the foreign keys the associations
      declare take the user's deposits and game records with it and clear the
      verifier of the deposits the user verified. */
  method DeleteUser(db: Db, id: int, requesterId: int) returns (reply: DeleteReply)
    requires db.Valid()
    modifies db
    ensures db.Valid()
    ensures db.settings == old(db.settings)
    ensures reply == DeleteUserNotFound <==> id !in old(db.users)
    ensures reply == CannotDeleteSelf <==> id in old(db.users) && id == requesterId
    ensures reply == UserDeleted <==> id in old(db.users) && id != requesterId
    ensures reply == UserDeleted ==>
      && db.users == old(db.users) - {id}
      && db.deposits == DepositsAfterDelete(old(db.deposits), id)
      && db.history == HistoryAfterDelete(old(db.history), id)
    ensures reply != UserDeleted ==>
      db.users == old(db.users) && db.deposits == old(db.deposits) && db.history == old(db.history)
  {
    if id !in db.users {
      return DeleteUserNotFound;
    }
    var user := db.users[id];
    if user.id == requesterId {
      return CannotDeleteSelf;
    }
    db.users := db.users - {id};
    db.deposits := DepositsAfterDelete(db.deposits, id);
    db.history := HistoryAfterDelete(db.history, id);
    reply := UserDeleted;
  }

  // ---------------------------------------------------------------- settings

  /** getSettings: fold the rows into an object, key by key. Setting keys are unique,
      so the object answers every key exactly as the engines' lookup does. */
  method GetSettings(db: Db) returns (obj: map<string, string>)
    requires db.Valid()
    ensures forall k :: k in obj <==> k in Keys(db.settings)
    ensures forall k :: k in obj ==> FindSetting(db.settings, k) == Some(obj[k])
  {
    var rows := db.settings;
    obj := map[];
    var i := 0;
    while i < |rows|
      invariant 0 <= i <= |rows|
      invariant forall k :: k in obj <==> exists j :: 0 <= j < i && rows[j].key == k
      invariant forall j :: 0 <= j < i ==> obj[rows[j].key] == rows[j].value
    {
      obj := obj[rows[i].key := rows[i].value];
      i := i + 1;
    }
    forall k | k in obj
      ensures FindSetting(rows, k) == Some(obj[k])
    {
      var j :| 0 <= j < |rows| && rows[j].key == k;
      FindSettingUnique(rows, j);
    }
  }

  /** The body of updateSettings. The numeric fields are stored as the text of their
      value (`Given(None)` is a null, whose conversion to text throws); the organic
      flags are given by their truthiness. */
  datatype SettingsRequest = SettingsRequest(
    defaultWinRate: Field<Option<string>>,
    rouletteWinRate: Field<Option<string>>,
    slotWinRate: Field<Option<string>>,
    rouletteUseOrganic: Field<JsValue>,
    slotUseOrganic: Field<JsValue>,
    houseEdge: Field<Option<string>>)

  /** How a flag is stored. */
  function OrganicText(on: bool): string {
    if on then "true" else "false"
  }

  /** An organic flag's step: skipped when undefined, otherwise the text of its
      truthiness, so null stores 'false' and the string 'false' stores 'true'. */
  function OrganicStep(f: Field<JsValue>): (step: Field<Option<string>>)
    ensures step.Absent? <==> f.Absent? || f.value == JUndefined
    ensures step.Given? ==> step == Given(Some(OrganicText(IsTruthy(f.value))))
  {
    match f
    case Absent => Absent
    case Given(JUndefined) => Absent
    case Given(v) => Given(Some(OrganicText(IsTruthy(v))))
  }

  /** Flags are stored by truthiness, not by value: a null flag switches organic
      play off and the text 'false' switches it on; no flag is ever a null step. */
  lemma OrganicStepByTruthiness(f: Field<JsValue>)
    ensures OrganicStep(f) != Given(None)
    ensures OrganicStep(Given(JNull)) == Given(Some("false"))
    ensures OrganicStep(Given(JStr("false"))) == Given(Some("true"))
    ensures OrganicStep(Given(JNum(0.0))) == Given(Some("false"))
  {
  }

  /** The keys the handler writes, in the order it writes them. */
  const SettingKeys: seq<string> :=
    ["default_win_rate", "roulette_win_rate", "slot_win_rate",
     "roulette_use_organic", "slot_use_organic", "house_edge"]

  /** The six fields in handler order, each as the text it would store. */
  function Steps(req: SettingsRequest): seq<Field<Option<string>>> {
    [req.defaultWinRate, req.rouletteWinRate, req.slotWinRate,
     OrganicStep(req.rouletteUseOrganic), OrganicStep(req.slotUseOrganic), req.houseEdge]
  }

  /** How many steps run, counting from step k, before the first null value stops
      the handler. */
  function ReachedFrom(steps: seq<Field<Option<string>>>, k: nat): (n: nat)
    requires k <= |steps|
    ensures k <= n <= |steps|
    ensures forall i :: k <= i < n ==> steps[i] != Given(None)
    ensures n < |steps| ==> steps[n] == Given(None)
    decreases |steps| - k
  {
    if k == |steps| || steps[k] == Given(None) then k else ReachedFrom(steps, k + 1)
  }

  /** How many steps run before the first null value stops the handler. */
  function Reached(steps: seq<Field<Option<string>>>): (n: nat)
    ensures n <= |steps|
    ensures forall i :: 0 <= i < n ==> steps[i] != Given(None)
    ensures n < |steps| ==> steps[n] == Given(None)
  {
    ReachedFrom(steps, 0)
  }

  /** The rows after the first k steps, step i writing under keys[i]: each step that
      carries a value upserts it under its key. */
  function Written(keys: seq<string>, before: seq<SettingRow>, steps: seq<Field<Option<string>>>, k: nat): seq<SettingRow>
    requires |steps| == |keys| && k <= |steps|
  {
    if k == 0 then before
    else
      var prev := Written(keys, before, steps, k - 1);
      match steps[k - 1]
      case Given(Some(text)) => Upsert(prev, keys[k - 1], text)
      case _ => prev
  }

  ghost predicate Distinct(keys: seq<string>) {
    forall a, b :: 0 <= a < b < |keys| ==> keys[a] != keys[b]
  }

  /** The handler's keys are pairwise distinct. */
  lemma SettingKeysDistinct()
    ensures Distinct(SettingKeys)
  {
  }

  /** The written rows keep the keys unique. */
  lemma {:induction false} WrittenKeepsKeysUnique(keys: seq<string>, before: seq<SettingRow>,
                                                   steps: seq<Field<Option<string>>>, k: nat)
    requires |steps| == |keys| && k <= |steps|
    requires UniqueKeys(before)
    ensures UniqueKeys(Written(keys, before, steps, k))
  {
    if k > 0 {
      WrittenKeepsKeysUnique(keys, before, steps, k - 1);
      if steps[k - 1].Given? && steps[k - 1].value.Some? {
        UpsertKeepsKeysUnique(Written(keys, before, steps, k - 1), keys[k - 1], steps[k - 1].value.value);
      }
    }
  }

  /** One of the distinct keys after k steps: the value of its step when that step
      ran with one, otherwise what the key answered before. */
  lemma {:induction false} WrittenAt(keys: seq<string>, before: seq<SettingRow>,
                                     steps: seq<Field<Option<string>>>, k: nat, i: nat)
    requires Distinct(keys) && |steps| == |keys| && k <= |steps| && i < |steps|
    ensures FindSetting(Written(keys, before, steps, k), keys[i]) ==
      (if i < k && steps[i].Given? && steps[i].value.Some? then steps[i].value else FindSetting(before, keys[i]))
  {
    if k > 0 {
      WrittenAt(keys, before, steps, k - 1, i);
      if steps[k - 1].Given? && steps[k - 1].value.Some? {
        UpsertLookup(Written(keys, before, steps, k - 1), keys[k - 1], steps[k - 1].value.value, keys[i]);
        if i < k - 1 {
          assert keys[i] != keys[k - 1];
        } else if i > k - 1 {
          assert keys[k - 1] != keys[i];
        }
      }
    }
  }

  /** A key outside the list answers after k steps what it answered before. */
  lemma {:induction false} WrittenElsewhere(keys: seq<string>, before: seq<SettingRow>,
                                            steps: seq<Field<Option<string>>>, k: nat, key: string)
    requires |steps| == |keys| && k <= |steps|
    requires key !in keys
    ensures FindSetting(Written(keys, before, steps, k), key) == FindSetting(before, key)
  {
    if k > 0 {
      WrittenElsewhere(keys, before, steps, k - 1, key);
      if steps[k - 1].Given? && steps[k - 1].value.Some? {
        assert key != keys[k - 1];
        UpsertLookup(Written(keys, before, steps, k - 1), keys[k - 1], steps[k - 1].value.value, key);
      }
    }
  }

  datatype SettingsReply = SettingsUpdated | SettingsFailed

  /** The state before step k: the rows hold the first k steps, and no step before k
      stopped the handler. */
  ghost predicate StepReady(rows: seq<SettingRow>, before: seq<SettingRow>, steps: seq<Field<Option<string>>>, k: nat) {
    && |steps| == |SettingKeys| && k <= |steps|
    && rows == Written(SettingKeys, before, steps, k)
    && Reached(steps) == ReachedFrom(steps, k)
  }

  /** One block of updateSettings: when field k is supplied, convert it to text and
      upsert it under its key; a null value throws instead (ok is false). */
  method UpsertField(db: Db, steps: seq<Field<Option<string>>>, k: nat, ghost before: seq<SettingRow>)
    returns (ok: bool)
    requires db.Valid() && k < |steps| && StepReady(db.settings, before, steps, k)
    modifies db
    ensures db.Valid()
    ensures db.users == old(db.users) && db.deposits == old(db.deposits) && db.history == old(db.history)
    ensures ok <==> steps[k] != Given(None)
    ensures ok ==> StepReady(db.settings, before, steps, k + 1)
    ensures !ok ==> Reached(steps) == k && db.settings == Written(SettingKeys, before, steps, k)
  {
    var f := steps[k];
    if f.Given? {
      if f.value.None? {
        return false;
      }
      UpsertKeepsKeysUnique(db.settings, SettingKeys[k], f.value.value);
      db.settings := Upsert(db.settings, SettingKeys[k], f.value.value);
    }
    ok := true;
  }

  /** updateSettings: upsert each supplied key in turn. A null numeric value throws
      when it is converted to text, after the earlier upserts have been made, and the
      later blocks do not run. */
  method UpdateSettings(db: Db, req: SettingsRequest) returns (reply: SettingsReply)
    requires db.Valid()
    modifies db
    ensures db.Valid()
    ensures db.users == old(db.users) && db.deposits == old(db.deposits) && db.history == old(db.history)
    ensures reply == SettingsFailed <==> Reached(Steps(req)) < 6
    ensures db.settings == Written(SettingKeys, old(db.settings), Steps(req), Reached(Steps(req)))
  {
    var steps := Steps(req);
    ghost var before := db.settings;
    var ok := UpsertField(db, steps, 0, before);
    if ok {
      ok := UpsertField(db, steps, 1, before);
    }
    if ok {
      ok := UpsertField(db, steps, 2, before);
    }
    if ok {
      ok := UpsertField(db, steps, 3, before);
    }
    if ok {
      ok := UpsertField(db, steps, 4, before);
    }
    if ok {
      ok := UpsertField(db, steps, 5, before);
    }
    reply := if ok then SettingsUpdated else SettingsFailed;
  }

  /** A stored organic flag reads back as what was stored: for a user without an
      override, each engine's organic check answers the flag written by the settings
      handler, and a key nobody wrote reads as manipulated mode. */
  lemma {:induction false} OrganicFlagRoundTrip(user: User, settings: seq<SettingRow>, on: bool)
    requires user.rouletteUseOrganic.None? && user.slotUseOrganic.None?
    ensures FindSetting(settings, "roulette_use_organic") == Some(OrganicText(on)) ==>
      Roulette.UseOrganic(Some(user), settings) == on
    ensures FindSetting(settings, "slot_use_organic") == Some(OrganicText(on)) ==>
      Slot.UseOrganic(Some(user), settings) == on
    ensures FindSetting(settings, "roulette_use_organic").None? ==> !Roulette.UseOrganic(Some(user), settings)
  {
  }

  // ---------------------------------------------------------------- deposits

  datatype ApproveReply =
    | DepositNotFound            // 404
    | AlreadyProcessed           // 400
    | OwnerMissing               // the owner lookup yields null and the handler throws: 500
    | DepositApproved(newBalance: real)

  /** approveDeposit: only a pending deposit can be approved; approving credits the
      owner with the amount and records the approving admin. Notes that are not sent
      leave the stored notes as they were. */
  method ApproveDeposit(db: Db, id: int, adminId: int, notes: Option<string>) returns (reply: ApproveReply)
    requires db.Valid()
    modifies db
    ensures db.Valid()
    ensures db.settings == old(db.settings) && db.history == old(db.history)
    ensures reply == DepositNotFound <==> id !in old(db.deposits)
    ensures reply == AlreadyProcessed <==> id in old(db.deposits) && old(db.deposits[id].status) != Pending
    ensures reply == OwnerMissing <==>
      id in old(db.deposits) && old(db.deposits[id].status) == Pending && old(db.deposits[id].userId) !in old(db.users)
    ensures !reply.DepositApproved? ==> db.users == old(db.users) && db.deposits == old(db.deposits)
    ensures reply.DepositApproved? ==>
      var d := old(db.deposits[id]);
      var owner := old(db.users[d.userId]);
      && reply.newBalance == owner.balance + d.amount
      && db.users == old(db.users)[d.userId := owner.(balance := reply.newBalance)]
      && db.deposits == old(db.deposits)[id := d.(status := Approved,
                                                  adminNotes := if notes.Some? then notes else d.adminNotes,
                                                  verifiedBy := Some(adminId))]
  {
    if id !in db.deposits {
      return DepositNotFound;
    }
    var deposit := db.deposits[id];
    if deposit.status != Pending {
      return AlreadyProcessed;
    }
    if deposit.userId !in db.users {
      return OwnerMissing;
    }
    var user := db.users[deposit.userId];
    var newBalance := user.balance + deposit.amount;
    db.users := db.users[deposit.userId := user.(balance := newBalance)];
    db.deposits := db.deposits[id := deposit.(status := Approved,
                                              adminNotes := if notes.Some? then notes else deposit.adminNotes,
                                              verifiedBy := Some(adminId))];
    reply := DepositApproved(newBalance);
  }

  datatype RejectReply = RejectNotFound | RejectAlreadyProcessed | DepositRejected

  /** The notes a rejection stores: the admin's notes, or 'Deposit rejected' when they
      are missing or empty. */
  function RejectionNotes(notes: Option<string>): (r: string)
    ensures r != ""
    ensures notes.Some? && notes.value != "" ==> r == notes.value
    ensures notes.None? || notes.value == "" ==> r == "Deposit rejected"
  {
    if notes.Some? && notes.value != "" then notes.value else "Deposit rejected"
  }

  /** rejectDeposit: only a pending deposit can be rejected; no balance changes. */
  method RejectDeposit(db: Db, id: int, adminId: int, notes: Option<string>) returns (reply: RejectReply)
    requires db.Valid()
    modifies db
    ensures db.Valid()
    ensures db.users == old(db.users) && db.settings == old(db.settings) && db.history == old(db.history)
    ensures reply == RejectNotFound <==> id !in old(db.deposits)
    ensures reply == RejectAlreadyProcessed <==> id in old(db.deposits) && old(db.deposits[id].status) != Pending
    ensures reply != DepositRejected ==> db.deposits == old(db.deposits)
    ensures reply == DepositRejected ==>
      db.deposits == old(db.deposits)[id := old(db.deposits[id]).(status := Rejected,
                                                                  adminNotes := Some(RejectionNotes(notes)),
                                                                  verifiedBy := Some(adminId))]
  {
    if id !in db.deposits {
      return RejectNotFound;
    }
    var deposit := db.deposits[id];
    if deposit.status != Pending {
      return RejectAlreadyProcessed;
    }
    db.deposits := db.deposits[id := deposit.(status := Rejected,
                                              adminNotes := Some(RejectionNotes(notes)),
                                              verifiedBy := Some(adminId))];
    reply := DepositRejected;
  }

  /** A deposit is credited at most once: after an approval, a second approval and a
      rejection are both refused, and the owner's balance has grown by the amount
      exactly once. */
  method ApproveTwice(db: Db, id: int, adminId: int)
    returns (first: ApproveReply, second: ApproveReply, third: RejectReply)
    requires db.Valid()
    modifies db
    ensures db.Valid()
    ensures first.DepositApproved? ==> second == AlreadyProcessed && third == RejectAlreadyProcessed
    ensures first.DepositApproved? ==>
      && id in old(db.deposits)
      && old(db.deposits[id].userId) in old(db.users)
      && var d := old(db.deposits[id]);
         var owner := old(db.users[d.userId]);
         db.users == old(db.users)[d.userId := owner.(balance := owner.balance + d.amount)]
    ensures !first.DepositApproved? ==> db.users == old(db.users)
  {
    first := ApproveDeposit(db, id, adminId, None);
    second := ApproveDeposit(db, id, adminId, None);
    third := RejectDeposit(db, id, adminId, None);
  }

  // ---------------------------------------------------------------- statistics

  /** The sum of the stakes, an empty history summing to 0. */
  function TotalBets(h: seq<GameRecord>): real {
    if h == [] then 0.0 else TotalBets(h[..|h| - 1]) + h[|h| - 1].betAmount
  }

  /** The sum of the prizes, an empty history summing to 0. */
  function TotalWinnings(h: seq<GameRecord>): real {
    if h == [] then 0.0 else TotalWinnings(h[..|h| - 1]) + h[|h| - 1].winAmount
  }

  /** houseProfit as the statistics page computes it. */
  function HouseProfit(h: seq<GameRecord>): real {
    TotalBets(h) - TotalWinnings(h)
  }

  /** What the house actually gained: a lost stake, less a prize paid out. A winning
      player keeps the stake, so a win contributes only the prize. */
  function HouseTake(h: seq<GameRecord>): real {
    if h == [] then 0.0
    else HouseTake(h[..|h| - 1]) + (if h[|h| - 1].isWin then -h[|h| - 1].winAmount else h[|h| - 1].betAmount)
  }

  /** The stakes of the winning records. */
  function WinningStakes(h: seq<GameRecord>): real {
    if h == [] then 0.0
    else WinningStakes(h[..|h| - 1]) + (if h[|h| - 1].isWin then h[|h| - 1].betAmount else 0.0)
  }

  /** The corrected figure is the players' loss: a settled record moves the house's
      take by exactly what the player's balance went down. */
  lemma HouseTakeAppend(h: seq<GameRecord>, before: real, r: GameRecord)
    requires Settled(before, r)
    ensures HouseTake(h + [r]) == HouseTake(h) + (before - r.balanceAfter)
  {
    assert (h + [r])[..|h|] == h;
  }

  /** Over any history of settled records, the figure as written exceeds what the
      house gained by the stakes of the winning bets. */
  lemma {:induction false} HouseProfitOvercounts(h: seq<GameRecord>)
    requires forall i :: 0 <= i < |h| && !h[i].isWin ==> h[i].winAmount == 0.0
    ensures HouseProfit(h) == HouseTake(h) + WinningStakes(h)
  {
    if h != [] {
      HouseProfitOvercounts(h[..|h| - 1]);
    }
  }

  /** One winning 10000 bet on red: the player gains 10000, the house loses 10000,
      and the figure as written reports a profit of 0. */
  lemma HouseProfitOneWin()
    ensures var r := RouletteRecord(1, 10000.0, "red", None, 1, Some("red"), true, 10000.0, 20000.0);
      && Settled(10000.0, r)
      && HouseProfit([r]) == 0.0
      && HouseTake([r]) == -10000.0
  {
    var r := RouletteRecord(1, 10000.0, "red", None, 1, Some("red"), true, 10000.0, 20000.0);
    assert [r][..0] == [];
  }
}
