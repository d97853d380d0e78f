# Dummy-Judol core, modelled in Dafny

This project models the money path of a small Node.js gambling site. Players hold a
balance and spend it on two games:

- **Roulette:** a straight bet on a number, or a colour or parity.
- **Slot:** three weighted reels.

An admin edits players and the global odds, and approves or rejects deposit requests.
Each request carries a proof-of-payment image. Both engines are rigged. Unless a
player or the global settings say "organic", the server first decides whether the
player wins: the decision compares a random draw with a win rate, looked up from the
player, then the game's setting, then the default. The engine then manufactures a
result that agrees with the decision.

The model has three layers:

- **Engines.**
  - `Roulette`: `controllers/gameController.js`.
  - `Slot`: `controllers/slotController.js`.
  - `Odds`: the win-rate chain and coin flip the two engines share.
- **Admin and deposit handlers.**
  - `Admin`: `controllers/adminController.js`.
  - `DepositRules`: `controllers/depositController.js`.
  - They work on one `Models.Db` object that stands for the four tables: users, deposit
    requests, game settings and game history. Each handler is a method that `modifies`
    it and states the whole new state.
- **Browser rules.**
  - `RoulettePage`: `public/js/game.js`.
  - `SlotPage`: `public/js/slot.js`.
  - `AdminPage`: `public/js/admin.js`.
  - `ClientRules`: the bet hint and win-sound tiers both game pages share.
  - The pages' state (spinning flag, button state, manual-stop state, form fields) is a
    class whose methods mirror the event handlers.

`Js` holds the few JavaScript built-ins whose behaviour matters: `%` with the sign of the
dividend, `Math.floor(Math.random() * n)`, `toLowerCase`, `includes`, `indexOf`, `join`
and `split`. `Wrappers` holds `Option` and `Field`. A `Field` is a request field that may
be absent, distinct from one sent as `null`.

The model takes these as parameters:

- Every call of `Math.random()` is a real `u` with `0 <= u < 1`.
- `parseFloat` of a stored setting is a function parameter `string -> real`.

A winning spin credits `before + winnings` and does not take the stake. A losing one
debits the stake (`Models.Settled`).

## Model

| member | source | states |
|---|---|---|
| Roulette.WheelCounts | controllers/gameController.js:4-12 | the wheel has 37 pockets: pocket 0 is the only green one, 18 are red and 18 are black |
| Roulette.ColorAt | controllers/gameController.js:4-12 | a number has a colour exactly when it is a pocket, 0 to 36 |
| Roulette.Numbers | controllers/gameController.js:4-12 | the pocket list is 0..36, in order, and holds exactly those numbers |
| Odds.FirstPresent | controllers/gameController.js:15-44 | the win rate is the first configured candidate in the chain, and the fallback when none is configured |
| Roulette.WinRate | controllers/gameController.js:15-44 | no user gives 45; otherwise roulette rate, then the user's global rate, then roulette_win_rate, then default_win_rate, then 45 |
| Slot.WinRate | controllers/slotController.js:29-52 | the same chain with the slot's own keys |
| Slot.UseOrganic | controllers/slotController.js:54-64 | the user's override decides when set; otherwise organic play is on exactly when the setting holds the text "true" |
| Odds.ShouldWinMonotone | controllers/gameController.js:59-65 | a rate of 0 or less never wins, 100 or more always wins, and a higher rate wins whenever a lower one does |
| Roulette.WinningNumber | controllers/gameController.js:81-107 | for every recognised bet the number drawn wins it; a straight bet returns its own number even off the wheel; every other draw is a pocket |
| Roulette.LosingNumber | controllers/gameController.js:110-137 | for every recognised bet the number drawn loses it (a straight bet never gets its own number), and it is always a pocket |
| Roulette.GenerateResult | controllers/gameController.js:68-78 | for a recognised bet, the result wins exactly when the coin flip said win |
| Roulette.UseOrganic | controllers/gameController.js:46-56 | the user's override decides when set; otherwise organic play is on exactly when the setting holds the text "true" |
| Roulette.ZeroLosesOutsideBets | controllers/gameController.js:81-137 | zero loses every colour and parity bet |
| Roulette.UnrecognisedBetIgnoresDecision | controllers/gameController.js:104-105 | an unknown bet type draws the same pocket whatever the decision, and never wins |
| Roulette.StraightBetOffTheWheel | controllers/gameController.js:85-86 | a straight bet on 99 returns 99 as the result: it has no colour, wins, and pays 35 times, so the spin fails after the credit is stored |
| Roulette.Multiplier | controllers/gameController.js:140-150 | every payout multiplier is at least 1, and it is 35 exactly for a straight bet |
| Roulette.Spin | controllers/gameController.js:152-243 | bad amount, unknown user and short balance are refused, each exactly in its case, with nothing changed; a short balance reports the balance held and the stake asked for; a pocket with no colour fails the request after the settled balance is stored, with no record; otherwise the generated result is settled, only this user's balance changes, and one record, holding the bet value as stored text and a colour, is appended to the history |
| Roulette.Play | controllers/gameController.js:180-243 | once the bet passes, the settled balance is stored; the request fails with no record exactly when the pocket has no colour, and otherwise appends the one settled record |
| Roulette.Settle | controllers/gameController.js:180-184 | the pocket drawn is the organic or the generated result, as the settings decide |
| Roulette.Judge | controllers/gameController.js:184-212 | the colour column is the pocket's colour name (none off the wheel), the switch wins exactly as the bet's rule says, and a win pays the winnings on top of the balance while a loss debits the stake |
| Roulette.OffTheWheelSpin | models/GameHistory.js:37-41 | a forced straight win on a number off the wheel draws that number, which has no colour and wins: the spin fails with the 35-fold credit kept and no record |
| Roulette.StoredBetValue | controllers/gameController.js:222 | the history keeps the bet value as its text, and null exactly when it was missing, null or empty |
| Slot.SymbolTable | controllers/slotController.js:5-14 | six symbols with distinct keys, no '\|' in a key, every multiplier at least 1, total weight 37, and these cumulative weights |
| Slot.BandIff | controllers/slotController.js:16-25 | a roll lands on symbol i exactly when it lies in that symbol's cumulative-weight band, whose width is its weight |
| Slot.PickSymbol | controllers/slotController.js:16-25 | the subtracting loop returns the symbol whose band holds the roll |
| Slot.SpinReels | controllers/slotController.js:27 | three independent draws from the table |
| Slot.GenerateWinningReels | controllers/slotController.js:71-74 | three copies of one drawn symbol |
| Slot.WinningReels | controllers/slotController.js:71-74 | the reels are three of a kind, from the table |
| Slot.Replacement | controllers/slotController.js:79-81 | the replacement symbol is from the table and differs from the first reel |
| Slot.LosingReels | controllers/slotController.js:76-83 | never three of a kind; reels one and two are the plain draws, and so is reel three unless the draw was a triple |
| Slot.GenerateLosingReels | controllers/slotController.js:76-83 | the method computes LosingReels |
| Slot.EvaluateReels | controllers/slotController.js:85-91 | the multiplier is the symbol's own on three of a kind, otherwise 0; on table symbols it is positive exactly on three of a kind |
| Slot.ManipulatedOutcome | controllers/slotController.js:107-118 | with organic play off, the reels pay exactly when the coin flip said win |
| Slot.SpinOutcome | controllers/slotController.js:107-118 | the method picks organic, winning or losing reels as the settings and flip decide |
| Slot.Spin | controllers/slotController.js:93-150 | a bet below 1000, an unknown user and a short balance are refused, each exactly in its case, with nothing changed; a short balance reports the balance held and the stake asked for; otherwise the reels are settled as in Slot.Play |
| Slot.Play | controllers/slotController.js:107-141 | a bet is settled: a win pays stake times multiplier on top of the balance, a loss debits the stake, and one record holds the joined reel keys |
| Slot.HistoryRoundTrip | controllers/slotController.js:135 | splitting the stored reel string on '\|' gives back the reel keys the spin returned (line 171 splits it) |
| Models.FindSettingFound | controllers/gameController.js:15-44 | a setting lookup finds a value exactly when the key is stored, and the value is that row's |
| Models.FindSettingUnique | controllers/gameController.js:15-44 | with unique keys, looking up a row's key returns that row's value |
| Models.UpsertLookup | controllers/adminController.js:102-148 | after an upsert the key reads the new value and every other key reads as before |
| Models.UpsertKeys | controllers/adminController.js:102-148 | an upsert adds its key to the stored keys and nothing else |
| Models.UpsertKeepsKeysUnique | controllers/adminController.js:102-148 | an upsert keeps setting keys unique |
| Admin.AppliedChangesOnlySupplied | controllers/adminController.js:28-37 | an edit changes only the supplied fields, sets balance and role to what was sent, leaves a user untouched when nothing was sent, and applying it twice equals applying it once |
| Admin.UpdateUser | controllers/adminController.js:18-57 | an unknown id is refused with nothing changed; otherwise only that user changes, to the edit applied |
| Admin.DeleteUser | controllers/adminController.js:59-80 | an unknown id and the admin's own id are refused with nothing changed; any other user is removed together with their deposits and game records, the deposits they verified lose their verifier, and the settings are untouched |
| Admin.WithoutVerifier | models/index.js:13 | a deposit verified by the deleted user keeps every column but has no verifier; any other deposit is unchanged |
| Admin.DepositsAfterDelete | models/index.js:11-13 | exactly the deposits of other users survive, none of them refers to the deleted user, and each is unchanged except its verifier |
| Admin.HistoryAfterDelete | models/index.js:8-9 | exactly the game records of other users survive |
| Admin.GetSettings | controllers/adminController.js:82-96 | the settings object has exactly the stored keys, each with its stored value |
| Admin.ReachedFrom | controllers/adminController.js:102-148 | counting on from step k, the steps before the first null value, and that null value if there is one |
| Admin.Reached | controllers/adminController.js:102-148 | every step before the reached count is not null, and the step at it is null |
| Admin.WrittenKeepsKeysUnique | controllers/adminController.js:102-148 | the run of upserts keeps setting keys unique |
| Admin.WrittenAt | controllers/adminController.js:102-148 | after the first k steps, each handled key reads its sent value if it was sent and reached, and its old value otherwise |
| Admin.WrittenElsewhere | controllers/adminController.js:102-148 | keys the handler does not handle are untouched |
| Admin.UpsertField | controllers/adminController.js:102-148 | one step writes its value or skips an absent field, and fails exactly on a null value, which stops the run |
| Admin.OrganicStep | controllers/adminController.js:126-140 | an undefined flag is skipped, and any other is stored as the text of its truthiness |
| Admin.OrganicStepByTruthiness | controllers/adminController.js:126-140 | a flag is never a null step; null and 0 store "false", and the text "false" stores "true" |
| Admin.UpdateSettings | controllers/adminController.js:98-155 | the reply is a failure exactly when some field is null; the settings are the upserts of the steps before that point, and nothing else changes |
| Admin.OrganicFlagRoundTrip | controllers/adminController.js:126-140 | a stored "true" or "false" organic flag turns the engines' organic mode on or off, and a missing one leaves the game rigged |
| Admin.ApproveDeposit | controllers/adminController.js:177-212 | a missing, already processed or ownerless request is refused, each exactly in its case, with nothing changed; otherwise the owner is credited the amount and the request is marked approved by this admin |
| Admin.RejectionNotes | controllers/adminController.js:224-233 | the stored note is the one given when it is not empty, and "Deposit rejected" when it is missing or empty |
| Admin.RejectDeposit | controllers/adminController.js:214-240 | a missing or already processed request is refused; otherwise it is marked rejected with a note; no balance ever changes |
| Admin.ApproveTwice | controllers/adminController.js:183-202 | after one approval a second approval and a rejection are both refused, and the owner was credited exactly once |
| Admin.HouseTakeAppend | controllers/adminController.js:248-250 | the corrected house take grows by exactly what each settled game moved out of the player's balance |
| Admin.HouseProfitOvercounts | controllers/adminController.js:248-250 | the reported profit is the house's take plus the stakes of every winning game |
| Admin.HouseProfitOneWin | controllers/adminController.js:248-250 | one won 10000 red bet reports profit 0 while the house lost 10000 |
| DepositRules.UploadError | controllers/depositController.js:18-29 | an upload is refused as not an image exactly when its extension or its MIME type fails the pattern; no error exactly when there is no file or a small image |
| DepositRules.ExtName | controllers/depositController.js:21 | the extension is empty or starts with a dot, and holds no '/' |
| DepositRules.ExtNameOfStem | controllers/depositController.js:21 | a name stem.ext has extension .ext |
| DepositRules.ExtNameOfDotFile | controllers/depositController.js:21 | a dot-file has no extension |
| DepositRules.UnanchoredMatch | controllers/depositController.js:20-22 | the pattern is unanchored: any text containing jpeg, jpg, png or gif matches |
| DepositRules.CreateDepositRequest | controllers/depositController.js:32-56 | the upload's error comes first, with its message, then a missing or non-positive amount, then a missing proof; a created request has the next id, is pending, and stores the user, amount, GoPay number and file name with no notes and no verifier |
| DepositRules.GetDepositStatus | controllers/depositController.js:91-102 | a request is found exactly when it exists and belongs to the asking user |
| ClientRules.BetHint | public/js/slot.js:191-220 | ready exactly when 1000 <= bet <= balance; otherwise low balance, below minimum or over balance, each exactly in its case |
| ClientRules.SpinAllowedIffReady | public/js/game.js:149-178 | the spin button is enabled exactly when the hint says ready |
| ClientRules.WinSound | public/js/slot.js:63-72 | silent for no win, then low, medium or high tiers at the 50000 and 200000 thresholds, each exactly in its range |
| ClientRules.WinSoundMonotone | public/js/game.js:67-76 | a larger win never plays a lower tier |
| RoulettePage.PocketColorsMatchServer | public/js/game.js:10-18 | the page paints every pocket in the colour the server reports for it |
| RoulettePage.TargetAngle | public/js/game.js:327-332 | the angle is in [0, 360), and 0 for pocket 0 and for anything that is not a pocket |
| RoulettePage.TargetAngleInjective | public/js/game.js:327-332 | different pockets stop at different angles |
| RoulettePage.ShownDelta | public/js/game.js:215 | a win shows its winnings and a loss shows minus its stake |
| RoulettePage.ShownDeltaIsBalanceChange | public/js/game.js:215 | the signed amount shown is the balance change the server made |
| RoulettePage.Page.constructor | public/js/game.js:2-3 | a fresh page is idle with balance 0, so the button is off until a balance arrives |
| RoulettePage.Page.UpdateBetHelp | public/js/game.js:149-178 | the hint and button state follow the balance and the bet |
| RoulettePage.Page.BalanceLoaded | public/js/game.js:110-135 | a loaded balance refreshes the hint and button |
| RoulettePage.Page.SpinRoulette | public/js/game.js:364-405 | a spin is sent exactly when idle and ready, with a bet value only for a straight bet, and leaves the hint, balance and bet as they were; a spin while spinning does nothing |
| RoulettePage.Page.SpinRefused | public/js/game.js:407-429 | a refused spin ends the spin and recomputes the hint |
| RoulettePage.Page.ConnectionFailed | public/js/game.js:447-456 | a failed request ends the spin and re-enables the button |
| RoulettePage.Page.SpinCompleted | public/js/game.js:437-445 | a finished animation ends the spin and re-enables the button |
| RoulettePage.SpinLifecycle | public/js/game.js:364-457 | whichever way a sent spin ends, the page is no longer spinning |
| SlotPage.FormatSymbol | public/js/slot.js:474-476 | a known key shows its emoji, an unknown key shows itself, an empty one shows '-' |
| SlotPage.AnimationUsesServerKeys | public/js/slot.js:5 | the page animates with the server's symbol keys, in order |
| SlotPage.ServerSymbolsHaveEmoji | public/js/slot.js:6-13 | every server symbol has an emoji |
| SlotPage.EmojisDistinct | public/js/slot.js:6-13 | different symbols look different |
| SlotPage.Stopped | public/js/slot.js:222-232 | the reels show the three returned symbols, formatted |
| SlotPage.Page.constructor | public/js/slot.js:24-32 | a fresh page is idle, not in manual mode, with the button off until a balance arrives |
| SlotPage.Page.UpdateBetHint | public/js/slot.js:191-220 | the hint and button state follow the balance and the bet, and nothing else changes |
| SlotPage.Page.BalanceLoaded | public/js/slot.js:172-189 | a loaded balance refreshes the hint and button, and every other field is kept |
| SlotPage.Page.SetManualMode | public/js/slot.js:127-142 | the manual toggle takes effect only while not spinning, and every other field is kept |
| SlotPage.Page.ResetManualState | public/js/slot.js:158-163 | the manual result, stop index, finalized flag and finish timer are cleared |
| SlotPage.Page.SpinSlot | public/js/slot.js:343-377 | a spin is sent exactly when idle and ready, with the typed bet and a cleared manual state; the hint, balance, bet, mode and reels are kept; a spin while spinning does nothing |
| SlotPage.Page.SpinRefused | public/js/slot.js:378-396 | a refused spin resets the reels to '-', ends the spin and recomputes the hint |
| SlotPage.Page.ConnectionFailed | public/js/slot.js:418-427 | a failed request resets the reels and the manual state and re-enables the button; the hint, balance, bet and mode are kept |
| SlotPage.Page.ResultReceived | public/js/slot.js:404-417 | in manual mode the result waits for the player's stops, with the reels and button kept; otherwise the reels show it and the spin ends; the hint, balance, bet and mode are kept either way |
| SlotPage.Page.FinishSlotSpin | public/js/slot.js:284-293 | the spin ends, the button is enabled and the manual state is cleared; the hint, balance, bet, mode and reels are kept |
| SlotPage.Page.FinalizeManualSpin | public/js/slot.js:295-302 | once all reels stop, the finish is scheduled exactly once, and every other field is kept |
| SlotPage.Page.StopNextReel | public/js/slot.js:304-316 | each stop reveals the next reel's server symbol and the last one schedules the finish, with the hint, button, balance, bet and mode kept; a stop out of turn does nothing |
| SlotPage.Page.FinishTimerFired | public/js/slot.js:295-302 | the scheduled finish ends the spin and clears the manual state, with the hint, balance, bet, mode and reels kept; without one nothing changes |
| SlotPage.ManualRound | public/js/slot.js:295-316 | three stops reveal exactly the server's reels, and the spin then ends |
| AdminPage.NormalizeTriState | public/js/admin.js:368-372 | true, 1 and "true" read as on; false, 0 and "false" as off; anything else as unset |
| AdminPage.MapModeValue | public/js/admin.js:355-360 | the mode is organic exactly for an on flag, custom exactly for an off flag, and inherit otherwise |
| AdminPage.MapModeToOrganic | public/js/admin.js:362-366 | organic sends on, custom sends off, and inherit sends null |
| AdminPage.ModeRoundTrip | public/js/admin.js:355-366 | a mode sent and read back is the same mode |
| AdminPage.OrganicRoundTrip | public/js/admin.js:355-366 | a flag read into a mode and sent back is the flag, normalised |
| AdminPage.ResaveKeepsOverrides | public/js/admin.js:292-337 | opening a player's form and saving it unchanged keeps their organic overrides |
| AdminPage.RateField | public/js/admin.js:331-337 | a rate is sent exactly in custom mode with a non-empty field, as its parsed value |
| AdminPage.EditPayload | public/js/admin.js:317-353 | the edit sends the balance, both rates and both organic flags, and never the global rate or the role |
| AdminPage.NonCustomClearsRate | public/js/admin.js:331-337 | saving in organic or inherit mode clears the player's custom rate |
| AdminPage.DisplayedRate | public/js/admin.js:395-402 | the form shows the game's rate if set, else the default rate, else 45 |
| AdminPage.DisplayedHouseEdge | public/js/admin.js:395-402 | the form shows the house edge if set, else 2.7 |
| AdminPage.DisplayedRateIsEngineRate | public/js/admin.js:394-420 | for a player with no overrides, the rate the form shows is the rate the engine uses |
| AdminPage.RequestOf | public/js/admin.js:448-464 | the settings form always sends both organic flags as booleans, and never the default rate |
| AdminPage.SubmittedTogglesReachEngines | public/js/admin.js:445-479 | after saving the form, each engine's organic mode is the toggle the admin set |
| AdminPage.SettingsForm.SetOrganicToggle | public/js/admin.js:496-505 | the hidden value and the toggle of one game follow the flag, and the other game is untouched |
| AdminPage.SettingsForm.UpdateOrganicInputs | public/js/admin.js:481-494 | each rate input is locked exactly when its game is organic |
| AdminPage.SettingsForm.ToggleOrganic | public/js/admin.js:507-513 | a click flips one game's organic flag and leaves the other alone |
| AdminPage.SettingsForm.RenderSettings | public/js/admin.js:394-420 | the form shows the displayed rates and edge, and an organic flag exactly when the stored value is "true" |
| AdminPage.SettingsForm.Submit | public/js/admin.js:445-479 | the body carries each organic flag as whether its input reads "true" and the rates and edge as shown; no field is null, so the handler stores all six |
| AdminPage.ToggleTwice | public/js/admin.js:507-513 | two clicks restore the flag |

## Left out

- NaN and non-numeric input are not modelled. This covers `parseFloat`/`parseInt` of bad text, a NaN bet amount and a NaN win rate. Numbers are exact reals, and a stored setting's parse is a parameter.
- `Math.random()` is not modelled. Every draw is a parameter in [0, 1), and nothing is said about distributions or long-run win frequencies.
- DECIMAL column rounding and `toLocaleString` formatting are not modelled.
- Database concurrency and transactions are not modelled. Two requests racing on one balance are outside the model.
- The history listing's ordering and limits are left out: getHistory and the admin's history, user and deposit listings. So are the statistics counts other than the profit.
- Authentication (JWT, admin middleware) is left out. The caller's id and role are parameters.
- Multer's storage, the stored file name and the file's bytes are left out. The upload is its original name, MIME type and size, and the created request stores the name it is given.
- The clock is left out: `verifiedAt` and `createdAt` are not stored.
- Sequelize validation errors are not modelled, and neither are the error replies of `catch` blocks. One exception is the roulette history row's non-null colour: `Roulette.Spin` replies `SpinFailed` when the pocket has no colour.
- Admin.DeleteUser: the cascade on `userId` and the set-null on `verifiedBy` are the actions Sequelize derives for the associations at models/index.js:8-13. A database created with other constraints is not modelled. `Models.Db.Valid` does not require every row's user to exist, so the missing-owner branch of `Admin.ApproveDeposit` stays reachable, as the handler's own check allows.
- Roulette.Spin: the bet's parsed target (`parseInt(betValue)`) and its text (`betValue?.toString()`) are two inputs. The model does not state that the first is the parse of the second.
- DepositRules.ExtName: follows Node's `path.extname` for names without a directory part or a trailing slash. Lower-casing is ASCII-only.
- AdminPage.EditPayload: the `|| ''` prefill (admin.js:295-296) is taken as an empty field only for a missing rate. If the driver returns the DECIMAL column as a number, a stored rate of 0 is falsy too: the field shows empty, and saving the form unchanged clears the user's custom 0% rate. The model does not capture this.
- Admin.UpdateUser: a `balance: null` in the request is stored as a null balance (adminController.js:29; the column at models/User.js:28-31 has no `allowNull: false`). `UserUpdate.balance` is a `Field<real>` and cannot carry null, so the model does not express that case.
- SlotPage.FormatSymbol: does not model an emoji lookup on an inherited object key such as "constructor".
- AdminPage.SettingsForm.Submit: the numeric re-printing of the rate fields is the `show` parameter.
- The browser side leaves out the pages' sample-data fallback after a failed load (game.js:225-233 puts a sample balance in place), the DOM, audio, timers' delays, animations, alerts, the reload of balance and history after a spin, and the rendering of history tables. The page classes keep only the state the handlers decide on.

## Findings

| source | as written | input that shows it | evidently intended | confidence | as-written member | corrected member |
|---|---|---|---|---|---|---|
| controllers/adminController.js:248-250 | house profit is the sum of all stakes minus the sum of all winnings, but a winning spin keeps its stake in the player's balance, so each won stake is counted as house income that never came in | one won 10000 red bet (balance 10000 to 20000) reports profit 0 while the house lost 10000 | the house's take: the sum over games of the balance moved from players to the house | not executed | Admin.HouseProfitOneWin | Admin.HouseTakeAppend |
