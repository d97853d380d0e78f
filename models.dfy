/** The persisted entities (the Sequelize models) and the store that holds them.
    DECIMAL columns are `real`; the nullable per-user overrides are `Option`s. */
module Models {
  import opened Wrappers

  datatype Role = Admin | Member

  datatype User = User(
    id: int,
    username: string,
    balance: real,
    role: Role,
    winRate: Option<real>,             // legacy override for every game
    rouletteWinRate: Option<real>,
    slotWinRate: Option<real>,
    rouletteUseOrganic: Option<bool>,  // None: follow the global setting
    slotUseOrganic: Option<bool>)

  datatype DepositStatus = Pending | Approved | Rejected

  datatype Deposit = Deposit(
    id: int,
    userId: int,
    amount: real,
    gopayNumber: string,
    proofImage: string,
    status: DepositStatus,
    adminNotes: Option<string>,
    verifiedBy: Option<int>)

  /** One row of the game-settings table: a unique key and its value as text. */
  datatype SettingRow = SettingRow(key: string, value: string)

  /** One row of the game history. A roulette row keeps the bet type, the bet value
      as text (null when none was sent), the pocket and its colour name; a slot row (bet type and colour both
      'slot') keeps the reel keys joined with '|' and the multiplier as its result. */
  datatype GameRecord =
    | RouletteRecord(userId: int, betAmount: real, betType: string, betValue: Option<string>,
                     result: int, resultColor: Option<string>,
                     isWin: bool, winAmount: real, balanceAfter: real)
    | SlotRecord(userId: int, betAmount: real, reels: string, result: int,
                 isWin: bool, winAmount: real, balanceAfter: real)

  /** The settlement both spin handlers perform: a loss takes the stake, a win adds
      the prize and leaves the stake with the player (the prize is profit). */
  predicate Settled(before: real, r: GameRecord) {
    if r.isWin then r.balanceAfter == before + r.winAmount
    else r.winAmount == 0.0 && r.balanceAfter == before - r.betAmount
  }

  predicate UniqueKeys(rows: seq<SettingRow>) {
    forall i, j :: 0 <= i < j < |rows| ==> rows[i].key != rows[j].key
  }

  function Keys(rows: seq<SettingRow>): (ks: set<string>)
    ensures forall k :: k in ks <==> exists i :: 0 <= i < |rows| && rows[i].key == k
  {
    if rows == [] then {} else {rows[0].key} + Keys(rows[1..])
  }

  /** The lookup of one setting by its key: the value of the first row that carries
      it, or None. */
  function FindSetting(rows: seq<SettingRow>, key: string): Option<string> {
    if rows == [] then None
    else if rows[0].key == key then Some(rows[0].value)
    else FindSetting(rows[1..], key)
  }

  /** The lookup finds a value exactly for the keys present, and the value it finds
      is one a row with that key holds. */
  lemma {:induction false} FindSettingFound(rows: seq<SettingRow>, key: string)
    ensures FindSetting(rows, key).None? <==> key !in Keys(rows)
    ensures FindSetting(rows, key).Some? ==>
      exists i :: 0 <= i < |rows| && rows[i] == SettingRow(key, FindSetting(rows, key).value)
  {
    if rows != [] {
      FindSettingFound(rows[1..], key);
      if rows[0].key != key && FindSetting(rows, key).Some? {
        var i :| 0 <= i < |rows[1..]| && rows[1..][i] == SettingRow(key, FindSetting(rows, key).value);
        assert rows[i + 1] == rows[1..][i];
      }
    }
  }

  /** The settings upsert: overwrite the row with this key, or add one at the end. */
  function Upsert(rows: seq<SettingRow>, key: string, value: string): seq<SettingRow> {
    if rows == [] then [SettingRow(key, value)]
    else if rows[0].key == key then [SettingRow(key, value)] + rows[1..]
    else [rows[0]] + Upsert(rows[1..], key, value)
  }

  /** After an upsert the key reads the new value and every other key reads what it
      read before. */
  lemma {:induction false} UpsertLookup(rows: seq<SettingRow>, key: string, value: string, other: string)
    ensures FindSetting(Upsert(rows, key, value), other) ==
      (if other == key then Some(value) else FindSetting(rows, other))
  {
    if rows != [] {
      var r := Upsert(rows, key, value);
      if rows[0].key == key {
        assert r[1..] == rows[1..];
      } else {
        assert r[1..] == Upsert(rows[1..], key, value);
        UpsertLookup(rows[1..], key, value, other);
      }
    }
  }

  /** An upsert adds its key to the keys and no other. */
  lemma {:induction false} UpsertKeys(rows: seq<SettingRow>, key: string, value: string)
    ensures Keys(Upsert(rows, key, value)) == Keys(rows) + {key}
  {
    if rows != [] {
      var r := Upsert(rows, key, value);
      if rows[0].key == key {
        assert r[1..] == rows[1..];
      } else {
        assert r[1..] == Upsert(rows[1..], key, value);
        UpsertKeys(rows[1..], key, value);
      }
    }
  }

  /** Upserting keeps the keys unique, as the table's unique constraint demands. */
  lemma {:induction false} UpsertKeepsKeysUnique(rows: seq<SettingRow>, key: string, value: string)
    requires UniqueKeys(rows)
    ensures UniqueKeys(Upsert(rows, key, value))
  {
    if rows != [] && rows[0].key != key {
      UpsertKeepsKeysUnique(rows[1..], key, value);
      forall i | 0 <= i < |rows[1..]|
        ensures rows[1..][i].key != rows[0].key
      {
        assert rows[1..][i] == rows[i + 1];
      }
      UpsertKeepsAbsent(rows[1..], key, value, rows[0].key);
      ConsKeepsKeysUnique(rows[0], Upsert(rows[1..], key, value));
    } else if rows != [] {
      var r := Upsert(rows, key, value);
      forall i, j | 0 <= i < j < |r| ensures r[i].key != r[j].key {
        assert r[j] == rows[j];
        if i > 0 { assert r[i] == rows[i]; }
      }
    }
  }

  /** Upserting one key never brings in another. */
  lemma {:induction false} UpsertKeepsAbsent(rows: seq<SettingRow>, key: string, value: string, other: string)
    requires other != key
    requires forall i :: 0 <= i < |rows| ==> rows[i].key != other
    ensures forall i :: 0 <= i < |Upsert(rows, key, value)| ==> Upsert(rows, key, value)[i].key != other
  {
    if rows != [] && rows[0].key != key {
      var tail := Upsert(rows[1..], key, value);
      UpsertKeepsAbsent(rows[1..], key, value, other);
      forall i | 0 <= i < |[rows[0]] + tail|
        ensures ([rows[0]] + tail)[i].key != other
      {
        if i > 0 { assert ([rows[0]] + tail)[i] == tail[i - 1]; }
      }
    }
  }

  /** A row in front of unique rows that do not carry its key keeps the keys unique. */
  lemma ConsKeepsKeysUnique(row: SettingRow, rows: seq<SettingRow>)
    requires UniqueKeys(rows)
    requires forall i :: 0 <= i < |rows| ==> rows[i].key != row.key
    ensures UniqueKeys([row] + rows)
  {
    var r := [row] + rows;
    forall i, j | 0 <= i < j < |r| ensures r[i].key != r[j].key {
      assert r[j] == rows[j - 1];
      if i > 0 { assert r[i] == rows[i - 1]; }
    }
  }

  /** With unique keys, the lookup finds the one row that carries the key. */
  lemma {:induction false} FindSettingUnique(rows: seq<SettingRow>, i: int)
    requires UniqueKeys(rows) && 0 <= i < |rows|
    ensures FindSetting(rows, rows[i].key) == Some(rows[i].value)
  {
    if i > 0 {
      assert rows[0].key != rows[i].key;
      assert rows[1..][i - 1] == rows[i];
      FindSettingUnique(rows[1..], i - 1);
    }
  }

  /** The database: the user, deposit, settings and history tables. */
  class Db {
    var users: map<int, User>
    var deposits: map<int, Deposit>
    var settings: seq<SettingRow>
    var history: seq<GameRecord>

    /** Primary keys match the stored ids, and setting keys are unique. */
    ghost predicate Valid()
      reads this
    {
      && (forall id :: id in users ==> users[id].id == id)
      && (forall id :: id in deposits ==> deposits[id].id == id)
      && UniqueKeys(settings)
    }

    constructor ()
      ensures Valid()
      ensures users == map[] && deposits == map[] && settings == [] && history == []
    {
      users, deposits, settings, history := map[], map[], [], [];
    }
  }
}
