/** The admin page: the three-way mode selector of the user dialog and the body its
    submit sends, the fallbacks the settings form shows, and the organic toggles with
    the win-rate inputs they lock. */
module AdminPage {
  import opened Wrappers
  import opened Models
  import opened Js
  import Admin
  import Roulette
  import Slot

  /** How a nullable override arrives from the user list. */
  function OverrideJs(o: Option<bool>): JsValue {
    match o
    case None => JNull
    case Some(b) => JBool(b)
  }

  /** normalizeTriState: true, 1 and 'true' are on; false, 0 and 'false' are off;
      anything else is no value. */
  function NormalizeTriState(v: JsValue): (r: Option<bool>)
    ensures r == Some(true) <==> v == JBool(true) || v == JNum(1.0) || v == JStr("true")
    ensures r == Some(false) <==> v == JBool(false) || v == JNum(0.0) || v == JStr("false")
  {
    if v == JBool(true) || v == JNum(1.0) || v == JStr("true") then Some(true)
    else if v == JBool(false) || v == JNum(0.0) || v == JStr("false") then Some(false)
    else None
  }

  /** The three modes of the selector. */
  const Modes: set<string> := {"organic", "custom", "inherit"}

  /** mapModeValue: on is 'organic', off is 'custom', no value is 'inherit'. */
  function MapModeValue(v: JsValue): (mode: string)
    ensures mode in Modes
    ensures mode == "organic" <==> NormalizeTriState(v) == Some(true)
    ensures mode == "custom" <==> NormalizeTriState(v) == Some(false)
  {
    match NormalizeTriState(v)
    case Some(true) => "organic"
    case Some(false) => "custom"
    case None => "inherit"
  }

  /** mapModeToOrganic: 'organic' is on, 'custom' is off, anything else is null. */
  function MapModeToOrganic(mode: string): (r: Option<bool>)
    ensures r == Some(true) <==> mode == "organic"
    ensures r == Some(false) <==> mode == "custom"
  {
    if mode == "organic" then Some(true)
    else if mode == "custom" then Some(false)
    else None
  }

  /** Each mode survives being sent as an override and shown again. */
  lemma ModeRoundTrip(mode: string)
    requires mode in Modes
    ensures MapModeValue(OverrideJs(MapModeToOrganic(mode))) == mode
  {
  }

  /** Showing a value and sending the shown mode back is the value normalised. */
  lemma OrganicRoundTrip(v: JsValue)
    ensures MapModeToOrganic(MapModeValue(v)) == NormalizeTriState(v)
  {
  }

  /** Opening a user's dialog and saving it without touching the selectors keeps
      both organic overrides. */
  lemma ResaveKeepsOverrides(u: User, balance: string, rouletteRate: string, slotRate: string,
                              parseFloat: string -> real)
    ensures var upd := EditPayload(EditForm(balance, rouletteRate, slotRate,
                                            MapModeValue(OverrideJs(u.rouletteUseOrganic)),
                                            MapModeValue(OverrideJs(u.slotUseOrganic))), parseFloat);
      && Admin.Applied(u, upd).rouletteUseOrganic == u.rouletteUseOrganic
      && Admin.Applied(u, upd).slotUseOrganic == u.slotUseOrganic
  {
    OrganicRoundTrip(OverrideJs(u.rouletteUseOrganic));
    OrganicRoundTrip(OverrideJs(u.slotUseOrganic));
  }

  /** The user dialog's fields as text, and its two mode selectors. */
  datatype EditForm = EditForm(balance: string, rouletteWinRate: string, slotWinRate: string,
                               rouletteMode: string, slotMode: string)

  /** A per-game rate is sent only in custom mode with a non-empty field; otherwise
      it is sent as null, which clears the override. */
  function RateField(mode: string, text: string, parseFloat: string -> real): (r: Option<real>)
    ensures r.Some? <==> mode == "custom" && text != ""
    ensures r.Some? ==> r.value == parseFloat(text)
  {
    if mode == "custom" && text != "" then Some(parseFloat(text)) else None
  }

  /** The body the dialog's submit sends: the balance, both rates by the rule above,
      and both modes as overrides. The legacy rate and the role are not sent. */
  function EditPayload(form: EditForm, parseFloat: string -> real): (upd: Admin.UserUpdate)
    ensures upd.balance == Given(parseFloat(form.balance))
    ensures upd.winRate.Absent? && upd.role.Absent?
    ensures upd.rouletteWinRate == Given(RateField(form.rouletteMode, form.rouletteWinRate, parseFloat))
    ensures upd.slotWinRate == Given(RateField(form.slotMode, form.slotWinRate, parseFloat))
    ensures upd.rouletteUseOrganic == Given(MapModeToOrganic(form.rouletteMode))
    ensures upd.slotUseOrganic == Given(MapModeToOrganic(form.slotMode))
  {
    Admin.UserUpdate(
      Given(parseFloat(form.balance)), Absent,
      Given(RateField(form.rouletteMode, form.rouletteWinRate, parseFloat)),
      Given(RateField(form.slotMode, form.slotWinRate, parseFloat)),
      Given(MapModeToOrganic(form.rouletteMode)), Given(MapModeToOrganic(form.slotMode)),
      Absent)
  }

  /** Saving the dialog in a non-custom mode leaves the engine to the mode's source:
      an organic or inherited game has no per-game rate afterwards. */
  lemma NonCustomClearsRate(u: User, form: EditForm, parseFloat: string -> real)
    requires form.rouletteMode != "custom"
    ensures Admin.Applied(u, EditPayload(form, parseFloat)).rouletteWinRate.None?
    ensures Admin.Applied(u, EditPayload(form, parseFloat)).rouletteUseOrganic ==
      MapModeToOrganic(form.rouletteMode)
  {
  }

  // ---------------------------------------------------------------- settings form

  /** A value of the settings object, if it is present and non-empty (the form's
      `||` skips an empty text). */
  function Truthy(settings: map<string, string>, key: string): Option<string> {
    if key in settings && settings[key] != "" then Some(settings[key]) else None
  }

  /** The rate the form shows for a game: its own setting, then the default rate,
      then 45. */
  function DisplayedRate(settings: map<string, string>, key: string): (shown: string)
    ensures Truthy(settings, key).Some? ==> shown == settings[key]
    ensures Truthy(settings, key).None? && Truthy(settings, "default_win_rate").Some? ==>
      shown == settings["default_win_rate"]
    ensures Truthy(settings, key).None? && Truthy(settings, "default_win_rate").None? ==> shown == "45"
  {
    match Truthy(settings, key)
    case Some(v) => v
    case None =>
      match Truthy(settings, "default_win_rate")
      case Some(v) => v
      case None => "45"
  }

  /** The house edge the form shows: the setting, or 2.7. */
  function DisplayedHouseEdge(settings: map<string, string>): (shown: string)
    ensures Truthy(settings, "house_edge").Some? ==> shown == settings["house_edge"]
    ensures Truthy(settings, "house_edge").None? ==> shown == "2.7"
  {
    match Truthy(settings, "house_edge")
    case Some(v) => v
    case None => "2.7"
  }

  /** The object the settings request returns, in terms of the rows it was read
      from. */
  ghost predicate ObjectOf(obj: map<string, string>, rows: seq<SettingRow>) {
    && (forall k :: k in obj <==> k in Keys(rows))
    && (forall k :: k in obj ==> FindSetting(rows, k) == Some(obj[k]))
  }

  /** For a player without overrides, the rate the form shows is the rate the engine
      plays with, as long as the stored rates are not empty and 45 parses to 45. */
  lemma {:induction false} DisplayedRateIsEngineRate(obj: map<string, string>, rows: seq<SettingRow>,
                                                      u: User, parseFloat: string -> real)
    requires ObjectOf(obj, rows)
    requires FindSetting(rows, "roulette_win_rate") != Some("") && FindSetting(rows, "slot_win_rate") != Some("")
    requires FindSetting(rows, "default_win_rate") != Some("")
    requires u.rouletteWinRate.None? && u.slotWinRate.None? && u.winRate.None?
    requires parseFloat("45") == 45.0
    ensures parseFloat(DisplayedRate(obj, "roulette_win_rate")) == Roulette.WinRate(Some(u), rows, parseFloat)
    ensures parseFloat(DisplayedRate(obj, "slot_win_rate")) == Slot.WinRate(Some(u), rows, parseFloat)
  {
    FindSettingFound(rows, "default_win_rate");
    FindSettingFound(rows, "roulette_win_rate");
    FindSettingFound(rows, "slot_win_rate");
    var d := FindSetting(rows, "default_win_rate");
    assert d.Some? ==> Truthy(obj, "default_win_rate") == d;
    assert d.None? ==> Truthy(obj, "default_win_rate").None?;
    var r := FindSetting(rows, "roulette_win_rate");
    assert r.Some? ==> Truthy(obj, "roulette_win_rate") == r;
    assert r.None? ==> Truthy(obj, "roulette_win_rate").None?;
    var s := FindSetting(rows, "slot_win_rate");
    assert s.Some? ==> Truthy(obj, "slot_win_rate") == s;
    assert s.None? ==> Truthy(obj, "slot_win_rate").None?;
  }

  // ---------------------------------------------------------------- organic toggles

  datatype Game = RouletteGame | SlotGame

  /** The settings body the form submits: the two rates and the house edge as the
      text of the numbers typed, and each organic flag as its hidden input reads. */
  datatype SettingsPayload = SettingsPayload(rouletteWinRate: string, slotWinRate: string,
                                             rouletteUseOrganic: bool, slotUseOrganic: bool,
                                             houseEdge: string)

  /** The request the settings handler receives from that body: no default rate, and
      every other field present and not null. */
  function RequestOf(p: SettingsPayload): (req: Admin.SettingsRequest)
    ensures req.defaultWinRate.Absent?
    ensures req.rouletteUseOrganic == Given(JBool(p.rouletteUseOrganic))
    ensures req.slotUseOrganic == Given(JBool(p.slotUseOrganic))
  {
    Admin.SettingsRequest(Absent, Given(Some(p.rouletteWinRate)), Given(Some(p.slotWinRate)),
                          Given(JBool(p.rouletteUseOrganic)), Given(JBool(p.slotUseOrganic)),
                          Given(Some(p.houseEdge)))
  }

  /** A submitted form is stored whole, and for a player without organic overrides
      each engine then plays in the mode the toggles showed. */
  lemma {:induction false} SubmittedTogglesReachEngines(p: SettingsPayload, rows: seq<SettingRow>, u: User)
    requires u.rouletteUseOrganic.None? && u.slotUseOrganic.None?
    ensures Admin.Reached(Admin.Steps(RequestOf(p))) == 6
    ensures var written := Admin.Written(Admin.SettingKeys, rows, Admin.Steps(RequestOf(p)), 6);
      && Roulette.UseOrganic(Some(u), written) == p.rouletteUseOrganic
      && Slot.UseOrganic(Some(u), written) == p.slotUseOrganic
  {
    var steps := Admin.Steps(RequestOf(p));
    assert forall i :: 0 <= i < 6 ==> steps[i] != Given(None);
    var written := Admin.Written(Admin.SettingKeys, rows, steps, 6);
    Admin.SettingKeysDistinct();
    Admin.WrittenAt(Admin.SettingKeys, rows, steps, 6, 3);
    Admin.WrittenAt(Admin.SettingKeys, rows, steps, 6, 4);
    Admin.OrganicFlagRoundTrip(u, written, p.rouletteUseOrganic);
    Admin.OrganicFlagRoundTrip(u, written, p.slotUseOrganic);
  }

  /** The settings form: the rate fields, the hidden organic inputs with their toggle
      buttons, and whether each rate field is locked. */
  class SettingsForm {
    var rouletteRate: string
    var slotRate: string
    var houseEdge: string
    var rouletteOrganic: string   // the hidden input's value
    var slotOrganic: string
    var rouletteToggleOn: bool    // the toggle reads ON and is highlighted
    var slotToggleOn: bool
    var rouletteRateLocked: bool
    var slotRateLocked: bool

    /** Every toggle shows its input, and a rate is locked exactly when its game plays
        organically. */
    ghost predicate Valid()
      reads this
    {
      && (rouletteToggleOn <==> rouletteOrganic == "true") && (slotToggleOn <==> slotOrganic == "true")
      && (rouletteRateLocked <==> rouletteOrganic == "true") && (slotRateLocked <==> slotOrganic == "true")
    }

    /** The form as the markup has it: both games manipulated, nothing locked. */
    constructor ()
      ensures Valid() && rouletteOrganic == "false" && slotOrganic == "false"
    {
      rouletteRate, slotRate, houseEdge := "", "", "";
      rouletteOrganic, slotOrganic := "false", "false";
      rouletteToggleOn, slotToggleOn := false, false;
      rouletteRateLocked, slotRateLocked := false, false;
    }

    /** setOrganicToggle: store the flag as text and show it on the button. */
    method SetOrganicToggle(game: Game, enabled: bool)
      modifies this
      ensures game == RouletteGame ==>
        rouletteOrganic == (if enabled then "true" else "false") && rouletteToggleOn == enabled
        && slotOrganic == old(slotOrganic) && slotToggleOn == old(slotToggleOn)
      ensures game == SlotGame ==>
        slotOrganic == (if enabled then "true" else "false") && slotToggleOn == enabled
        && rouletteOrganic == old(rouletteOrganic) && rouletteToggleOn == old(rouletteToggleOn)
      ensures rouletteRateLocked == old(rouletteRateLocked) && slotRateLocked == old(slotRateLocked)
      ensures rouletteRate == old(rouletteRate) && slotRate == old(slotRate) && houseEdge == old(houseEdge)
    {
      if game == RouletteGame {
        rouletteOrganic := if enabled then "true" else "false";
        rouletteToggleOn := enabled;
      } else {
        slotOrganic := if enabled then "true" else "false";
        slotToggleOn := enabled;
      }
    }

    /** updateOrganicInputs: lock each rate whose game plays organically. */
    method UpdateOrganicInputs()
      modifies this
      ensures rouletteRateLocked == (rouletteOrganic == "true") && slotRateLocked == (slotOrganic == "true")
      ensures rouletteOrganic == old(rouletteOrganic) && slotOrganic == old(slotOrganic)
      ensures rouletteToggleOn == old(rouletteToggleOn) && slotToggleOn == old(slotToggleOn)
      ensures rouletteRate == old(rouletteRate) && slotRate == old(slotRate) && houseEdge == old(houseEdge)
    {
      rouletteRateLocked := rouletteOrganic == "true";
      slotRateLocked := slotOrganic == "true";
    }

    /** toggleOrganic: anything but 'true' turns on, 'true' turns off; the other game
        is untouched. */
    method ToggleOrganic(game: Game)
      requires Valid()
      modifies this
      ensures Valid()
      ensures game == RouletteGame ==>
        rouletteOrganic == (if old(rouletteOrganic) == "true" then "false" else "true")
        && slotOrganic == old(slotOrganic)
      ensures game == SlotGame ==>
        slotOrganic == (if old(slotOrganic) == "true" then "false" else "true")
        && rouletteOrganic == old(rouletteOrganic)
      ensures rouletteRate == old(rouletteRate) && slotRate == old(slotRate) && houseEdge == old(houseEdge)
    {
      var current := if game == RouletteGame then rouletteOrganic else slotOrganic;
      SetOrganicToggle(game, current != "true");
      UpdateOrganicInputs();
    }

    /** renderSettings: the fields with their fallbacks, each toggle on exactly when
        its setting reads 'true', and the rates locked to match. */
    method RenderSettings(settings: map<string, string>)
      modifies this
      ensures Valid()
      ensures rouletteRate == DisplayedRate(settings, "roulette_win_rate")
      ensures slotRate == DisplayedRate(settings, "slot_win_rate")
      ensures houseEdge == DisplayedHouseEdge(settings)
      ensures rouletteOrganic == "true" <==> "roulette_use_organic" in settings && settings["roulette_use_organic"] == "true"
      ensures slotOrganic == "true" <==> "slot_use_organic" in settings && settings["slot_use_organic"] == "true"
    {
      rouletteRate := DisplayedRate(settings, "roulette_win_rate");
      slotRate := DisplayedRate(settings, "slot_win_rate");
      houseEdge := DisplayedHouseEdge(settings);
      SetOrganicToggle(RouletteGame, "roulette_use_organic" in settings && settings["roulette_use_organic"] == "true");
      SetOrganicToggle(SlotGame, "slot_use_organic" in settings && settings["slot_use_organic"] == "true");
      UpdateOrganicInputs();
    }

    /** The settings submit: the typed rates and house edge (their numeric parse and
        re-printing is left to `show`) and each flag as its input reads. No field of
        the body is null, so the handler stores all six. */
    method Submit(show: string -> string) returns (p: SettingsPayload)
      ensures p.rouletteUseOrganic <==> rouletteOrganic == "true"
      ensures p.slotUseOrganic <==> slotOrganic == "true"
      ensures p.rouletteWinRate == show(rouletteRate) && p.slotWinRate == show(slotRate)
      ensures p.houseEdge == show(houseEdge)
      ensures Admin.Reached(Admin.Steps(RequestOf(p))) == 6
    {
      p := SettingsPayload(show(rouletteRate), show(slotRate), rouletteOrganic == "true",
                           slotOrganic == "true", show(houseEdge));
    }
  }

  /** Two presses of a toggle restore a flag that was 'true' or 'false'. */
  method ToggleTwice(form: SettingsForm, game: Game)
    requires form.Valid()
    requires form.rouletteOrganic in {"true", "false"} && form.slotOrganic in {"true", "false"}
    modifies form
    ensures form.Valid()
    ensures form.rouletteOrganic == old(form.rouletteOrganic) && form.slotOrganic == old(form.slotOrganic)
  {
    form.ToggleOrganic(game);
    form.ToggleOrganic(game);
  }
}
