# Daggerheart Death Moves — a Dafny model

Death Moves is a Foundry VTT module for the Daggerheart system. When a
character falls, the GM picks an active player. That player's client shows
an overlay with three options:

- **Avoid Death**: a d12 plus one with the Phoenix item, against the
  character's level. A low roll leaves a Scar. A high roll is Safe.
- **Blaze of Glory**: a heroic death with a fixed card, sound and image.
- **Risk It All**: a Hope d12 against a Fear d12, either in one roll or in
  two phases. The phases show a coloured border and pause between the dice.

The client that resolves an option plays its sounds and images locally and
announces them over the module's socket. The other clients replay what they
receive.

The model follows the scripts module by module:

- `Values`, `Constants`, `World`, `Messages`: JavaScript values and the
  `SOCKET_TYPES` table. Also what a client reads from its host (user,
  character, settings, localisation) and the socket payloads.
- `Outcome`: the outcome rules of `DeathLogic`, plus counts of the faces and
  dice pairs that give each result.
- `Odds`: `calculateProbabilitiesForActor` of `DeathUI`, with `Math.round`
  and the rendering of numbers.
- `ChatCard`: the chat cards, kept as substituted values between named
  markup pieces.
- `Effects`: an ordered log of what a client does (roll, wait, play, post,
  emit, show). Every handler is proved to append exactly a specification
  sequence to it.
- `Page`: the DOM state `DeathUI` changes, as a class. It holds the option
  overlay, with its buttons, spectator mode and cancel button, and the
  border overlay.
- `Handlers`: `handleAvoidDeath`, `handleRiskItAll`,
  `handleRiskItAllSequential`, `_processRiskResult` and `handleBlazeOfGlory`,
  as methods proved against functions over event sequences.
- `Controller`: `DeathMovesController`. It covers the socket switch,
  `_handleShowUI`, `gmTriggerFlow`, `_runCountdown`, the three option
  callbacks and the button listeners.
- `Sync`: what a receiving client replays of the payloads a handler emits,
  compared with what the sender itself did.
- `Settings`: `DeathSettings.register`, `_registerImages` and
  `_registerAudio` against a `GameSettings` class. Also the derivation of the
  localisation keys from the setting keys.

Dice results come in as parameters, so every roll outcome is covered. So do
the dialog's choice, the host's user list and the whole of the world
settings.

## Model

| member | source | states |
|---|---|---|
| Values.Prop | scripts/main.js:17-33 | reading an absent payload field gives `undefined` |
| Values.UpperChar | scripts/settings.js:48-50 | ASCII lower-case letters go to upper case, everything else is kept |
| Values.Upper | scripts/settings.js:48-50 | upper-casing keeps the length and maps every character |
| Constants.LookupMeaning | scripts/constants.js:4-7 | a table lookup is `undefined` exactly when no entry has the name, and otherwise gives that entry's value |
| Constants.Lookup | scripts/constants.js:4-7 | `SOCKET_TYPES.NAME`: the value of the entry with that name, or `undefined`; its meaning is Constants.LookupMeaning |
| Constants.BorderTypesUndefined | scripts/constants.js:4-7 | SOCKET_TYPES defines SHOW_UI, PLAY_MEDIA and PLAY_SOUND; SHOW_BORDER and REMOVE_BORDER are `undefined` |
| Constants.FixedTypesDefined | scripts/constants.js:4-7 | the corrected table keeps the three entries and adds SHOW_BORDER and REMOVE_BORDER |
| World.AssetPath | scripts/logic.js:175-182 | `DeathSettings.get(key) \|\| ""`: the setting's path when it is set, otherwise "" |
| World.Localize | scripts/logic.js:184-188 | a key with no translation reads as itself |
| Messages.PayloadFields | scripts/logic.js:88 | each payload carries its type from the table and its one field (targetUserId, mediaKey, soundKey, borderType); a removal carries no border type |
| Outcome.ClassifyRisk | scripts/logic.js:253-268 | Hope exactly when the Hope die is higher, Fear exactly when the Fear die is higher, Critical exactly on a tie |
| Outcome.RiskKeys | scripts/logic.js:253-268 | the image and sound setting keys of each Risk result (hopePath/soundHope, fearPath/soundFear, criticalPath/soundCritical) |
| Outcome.RiskKeysInjective | scripts/logic.js:253-268 | the three Risk results use three different images and three different sounds |
| Outcome.Bonus | scripts/logic.js:93-95 | the Phoenix bonus is 1 exactly when the item is held, otherwise 0 |
| Outcome.AvoidTotal | scripts/logic.js:95 | the total exceeds the raw d12 by the bonus |
| Outcome.LevelOrZero | scripts/logic.js:125-127 | an unset level counts as 0 |
| Outcome.ClassifyAvoid | scripts/logic.js:128-140 | Scar exactly when the total is at most the level, Safe exactly when it is above |
| Outcome.AvoidKeys | scripts/logic.js:128-140 | the image and sound setting keys of Scar and Safe |
| Outcome.AvoidKeysDistinct | scripts/logic.js:128-140 | Scar and Safe use different assets, none of them a Risk asset |
| Outcome.ScarOnRaw | scripts/logic.js:128-140 | Scar exactly when the raw d12 is at most the level less the bonus |
| Outcome.ScarFacesCount | scripts/ui.js:24-33 | the number of Scar faces of an n-sided die is the threshold clamped to 0..n |
| Outcome.ScarFacesOfD12 | scripts/ui.js:24-33 | the same count for the d12 |
| Outcome.FacesWithCount | scripts/logic.js:253-268 | for a fixed Hope value, how many Fear faces give Hope, Fear and Critical |
| Outcome.PairsWithCount | scripts/logic.js:253-268 | how many pairs of faces up to m give each result |
| Outcome.RiskPairCounts | scripts/ui.js:45-49 | of the 144 pairs of d12s, 66 give Hope, 66 give Fear and 12 give Critical |
| Outcome.Clamp | scripts/ui.js:24-33 | the clamped value lies in the range and equals the input when the input lies in it |
| Odds.RoundedPercent | scripts/ui.js:32-33 | `Math.round(100 * num / den)`: the nearest whole percent, with halves rounded up |
| Odds.ScarCount | scripts/ui.js:24-31 | between 0 and 12 Scar faces |
| Odds.AvoidPercent | scripts/ui.js:27-33 | `Math.round((outcomeCount / 12) * 100)` with the count clamped to 0..12; its meaning is Odds.AvoidPercentIsScarShare |
| Odds.PhoenixBadge | scripts/ui.js:37-40 | the badge with the item's name and "(+1)" appended to the Avoid line when the item is held |
| Odds.AvoidPercentIsScarShare | scripts/ui.js:24-33 | the Avoid percentage is the Scar faces' share of the d12, rounded |
| Odds.PercentOfTwelfths | scripts/ui.js:32-33 | the thirteen possible Avoid percentages, 0, 8, 17, ..., 92, 100 |
| Odds.AvoidPercentRange | scripts/ui.js:24-33 | the Avoid percentage lies in 0..100; it is 0 exactly when the threshold is at most 0 and 100 exactly when it is at least 12 |
| Odds.AvoidPercentMonotone | scripts/ui.js:24-33 | a higher level never lowers the Scar chance |
| Odds.PhoenixNeverRaises | scripts/ui.js:24-33 | holding the Phoenix item never raises the Scar chance |
| Odds.RoundedPercentMonotone | scripts/ui.js:32-33 | rounding keeps the order of the numerators |
| Odds.Digit | scripts/ui.js:32-36 | a digit's character has that digit's value |
| Odds.NatToString | scripts/ui.js:32-36 | a number is rendered as a non-empty run of decimal digits |
| Odds.NatToStringRoundTrip | scripts/ui.js:32-36 | reading the rendered digits back gives the number |
| Odds.RiskPercents | scripts/ui.js:45-49 | over the fair pairs, life (Hope or Critical) is 54% and death (Fear) is 46% |
| Odds.RiskOddsTextMatchesRule | scripts/ui.js:49 | the fixed Risk text is the one the pair counts give |
| Odds.RenderedOdds | scripts/ui.js:49 | the fixed Risk text shows 54 and 46 |
| Odds.CalculateProbabilities | scripts/ui.js:15-56 | nothing when the setting is off; otherwise Blaze is 100%, Risk is the fixed text, and Avoid is "?" without a character or the rounded Scar share with the Phoenix badge when the item is held |
| Odds.ProbsNonEmpty | scripts/ui.js:15-56 | with the setting on, every line is non-empty, so every button shows it |
| ChatCard.StyledCardRoundTrip | scripts/logic.js:15-79 | a styled card gives back the title, text and image it was made from |
| ChatCard.StyledCard | scripts/logic.js:15-79 | `_createStyledChatContent`: header with the title, body with the image as background, then the text; inverted by ChatCard.ParseCard (ChatCard.StyledCardRoundTrip) |
| ChatCard.AvoidDetails | scripts/logic.js:143-169 | the details block: raw d12 line, the Phoenix line when held, total line, level threshold line; what it shows is ChatCard.AvoidDetailsShow |
| ChatCard.DiceText | scripts/logic.js:270-274 | the dice line of `_processRiskResult`; ChatCard.DiceTextShows |
| ChatCard.AvoidDetailsShow | scripts/logic.js:143-169 | the details show the raw d12, the total and the level threshold in order, and name the Phoenix item exactly when it is held |
| ChatCard.DiceTextShows | scripts/logic.js:270-274 | the dice line shows the Hope value, then the Fear value, and no other text |
| Page.OptionButton | scripts/ui.js:145-160 | a new button has its id, is neither hidden nor disabled, and shows the probability line exactly when the value is truthy |
| Page.ChosenProbs | scripts/ui.js:74-77 | probabilities passed in win; otherwise a spectator gets none and a player gets those computed for their character |
| Page.NewOverlay | scripts/ui.js:63-124 | the overlay has the three buttons in order, each showing its line, neither hidden nor disabled, plus a cancel button, a background exactly when the path is non-empty, and the requested spectator mode |
| Page.ComputedProbsShown | scripts/ui.js:74-77 | with probabilities on, a player's overlay shows a line on every button |
| Page.HideButton | scripts/ui.js:183-194 | another button is hidden; the selected one only loses pointer events |
| Page.HideAll | scripts/ui.js:183-194 | every button is treated as HideButton says, in place |
| Page.HideOthersSpec | scripts/ui.js:183-194 | there is an overlay afterwards exactly when there was one before |
| Page.HideOthersEffect | scripts/ui.js:183-194 | afterwards every other button is hidden, the selected one takes no clicks, the cancel button is gone and nothing else changes |
| Page.HideOthersIdempotent | scripts/ui.js:183-194 | hiding the others twice is the same as once |
| Page.ChosenButtonAloneVisible | scripts/ui.js:170-176 | picking an option on a fresh overlay leaves exactly that button visible |
| Page.RemoveSpectatorSpec | scripts/ui.js:126-131 | no spectator overlay is left |
| Page.RemoveSpectatorRules | scripts/ui.js:126-131 | a player's overlay stays, a spectator's goes, and removing twice is the same as once |
| Page.CountdownEffect | scripts/ui.js:196-208 | the matching button shows the number and nothing else changes; with no such button the overlay is unchanged |
| Page.CountdownLastWins | scripts/ui.js:196-208 | a later number replaces an earlier one |
| Page.CountdownSpec | scripts/ui.js:196-208 | `updateCountdown`: the matching button's content becomes the number; Page.CountdownEffect |
| Page.BorderFor | scripts/ui.js:236-250 | the border overlay of `showBorderEffect(type)`: the border-<type> class and the upper-cased caption only when the type is truthy |
| Page.Page.constructor | scripts/ui.js:63-124 | a new page has neither overlay |
| Page.Page.CreateOverlay | scripts/ui.js:63-124 | any overlay is replaced by the new one, after the roll-screen sound plays |
| Page.Page.RemoveSpectatorOverlay | scripts/ui.js:126-131 | the overlay becomes RemoveSpectatorSpec of the old one |
| Page.Page.RemoveOverlay | scripts/main.js:70 | the option overlay is gone, the border stays |
| Page.Page.HideOthers | scripts/ui.js:183-194 | the loop over the buttons leaves the overlay HideOthersSpec says |
| Page.Page.UpdateCountdown | scripts/ui.js:196-208 | the overlay becomes CountdownSpec of the old one |
| Page.Page.ShowBorderEffect | scripts/ui.js:236-250 | any old border is replaced by one of the given type |
| Page.Page.RemoveBorderEffect | scripts/ui.js:252-255 | the border is gone, the option overlay stays |
| Handlers.AvoidResolution | scripts/logic.js:116-173 | no result exactly when there is no character; otherwise Scar or Safe as the rule says |
| Handlers.AvoidCard | scripts/logic.js:116-173 | the card of handleAvoidDeath: the result's title, message and details with its image, or the no-character card; Handlers.AvoidCardShowsRoll and Handlers.AvoidWithoutCharacter |
| Handlers.AvoidBegin | scripts/logic.js:85-88 | the steps of handleAvoidDeath before its first await: the hope border shown and announced |
| Handlers.AvoidFinish | scripts/logic.js:91-188 | the steps from the roll on: roll, three-second pause, border cleared, result image and sound when there is a character, then the card; Handlers.AvoidPlays |
| Handlers.RiskCard | scripts/logic.js:250-291 | the Risk card: the result's title, the dice line then the description, with the result's image |
| Handlers.ProcessRisk | scripts/logic.js:250-292 | `_processRiskResult`: sound, image, card; Handlers.ProcessRiskPlays |
| Handlers.RiskItAll | scripts/logic.js:195-210 | handleRiskItAll: one 1d12 + 1d12 roll, a two-second pause, then ProcessRisk; Handlers.RiskPlays |
| Handlers.SequentialRolls | scripts/logic.js:216-240 | the two phases: fear border, fear die, five seconds, hope border, hope die, four seconds, border cleared |
| Handlers.RiskItAllSequential | scripts/logic.js:216-243 | handleRiskItAllSequential: SequentialRolls then ProcessRisk; Handlers.SequentialOrder, Handlers.RiskModesShareResolution |
| Handlers.BlazeCard | scripts/logic.js:302-309 | the Blaze card: the localised title, the configured message and the Blaze image |
| Handlers.BlazeOfGlory | scripts/logic.js:298-317 | handleBlazeOfGlory: sound, card, the callback's removal when given, then the image; Handlers.BlazeOrder and Handlers.BlazePlays |
| Handlers.AvoidResultKeysMeaning | scripts/logic.js:116-173 | there are result keys exactly when there is a character, and they are the Scar or Safe assets as the rule says |
| Handlers.ShowBorderEverywhere | scripts/logic.js:86-88 | the border is shown locally, then announced |
| Handlers.ClearBorderEverywhere | scripts/logic.js:112-114 | the border is removed locally, then the removal announced |
| Handlers.RollAndWait | scripts/logic.js:97-110 | the roll is recorded, then the pause |
| Handlers.PlayAvoidResult | scripts/logic.js:175-180 | the result image and sound are announced and played, only when both keys are set |
| Handlers.AvoidDeathBegin | scripts/logic.js:85-88 | the steps before the first await, ending with the hope border |
| Handlers.DecideAvoid | scripts/logic.js:116-173 | its keys are the result's keys, and the card it builds is the Avoid card |
| Handlers.AvoidDeathFinish | scripts/logic.js:91-188 | the steps from the roll on, ending without a border |
| Handlers.HandleAvoidDeath | scripts/logic.js:85-189 | the whole handler, ending without a border |
| Handlers.PlaySoundEverywhere | scripts/logic.js:279-282 | the sound is announced, then played locally |
| Handlers.PlayMediaEverywhere | scripts/logic.js:284-285 | the image is announced, then played locally |
| Handlers.ProcessRiskResult | scripts/logic.js:250-292 | the result sound, the result image, then the card |
| Handlers.HandleRiskItAll | scripts/logic.js:195-210 | one roll of both dice, the pause, then the resolution |
| Handlers.HandleRiskItAllSequential | scripts/logic.js:216-243 | the fear phase, the hope phase, the border cleared, then the resolution |
| Handlers.HandleBlazeOfGlory | scripts/logic.js:298-317 | sound, card, overlay removed when a callback is given, then the image; the border is untouched |
| Handlers.StepsSilent | scripts/logic.js:86-114 | the border, roll and wait steps play nothing and post nothing |
| Handlers.EverywherePlaysOnce | scripts/logic.js:279-285 | announcing and playing a key plays it exactly once locally |
| Handlers.ProcessRiskPlays | scripts/logic.js:250-292 | the resolution plays the classification's sound and image once each and posts one card |
| Handlers.RiskPlays | scripts/logic.js:195-243 | either Risk mode plays exactly the classification's sound and image and posts one card |
| Handlers.RiskResultFollowsDice | scripts/logic.js:253-268 | Risk plays the Hope assets when the Hope die is higher, the Fear assets when the Fear die is higher, the Critical assets on a tie |
| Handlers.AvoidMediaPlays | scripts/logic.js:175-180 | the result step plays what its keys name, once each, and nothing without both keys |
| Handlers.AvoidPlays | scripts/logic.js:85-189 | with a character Avoid Death plays the result's image and sound once each, and it always posts one card |
| Handlers.AvoidWithoutCharacter | scripts/logic.js:170-173 | without a character nothing is played and the card is the no-character card |
| Handlers.AvoidResultFollowsRule | scripts/logic.js:128-140 | with a character the Scar assets play exactly when the d12 is at most the level less the bonus, the Safe assets otherwise |
| Handlers.AvoidCardShowsRoll | scripts/logic.js:143-169 | the card shows the raw d12, the total and the level in order, and names the Phoenix item when it is held |
| Handlers.RiskModesShareResolution | scripts/logic.js:195-243 | after their rolls the two modes do exactly the same |
| Handlers.SequentialOrder | scripts/logic.js:216-240 | fear border, fear die, hope border, hope die, border removed, in that order |
| Handlers.BlazeOrder | scripts/logic.js:298-317 | sound before card, overlay removal (when asked) after the card and before the image, no dice and no pause |
| Handlers.BlazePlays | scripts/logic.js:298-317 | Blaze plays its sound and image once each and posts one card |
| Controller.DispatchAsWritten | scripts/main.js:16-34 | with SOCKET_TYPES as written the REMOVE_BORDER arm is never reached and a message whose type is `undefined` takes the SHOW_BORDER arm |
| Controller.DispatchFixed | scripts/main.js:16-34 | with the corrected table each type reaches its own arm and `undefined` reaches none |
| Controller.Dispatch | scripts/main.js:17-33 | `switch (payload.type)`: the first case whose label is `===` to the type; Controller.DispatchAsWritten and Controller.DispatchFixed |
| Controller.ReceivedEvents | scripts/main.js:16-34 | what each arm of the switch does on the receiving client; Controller.OnSocketMessage |
| Controller.HandleShowUI | scripts/main.js:60-93 | only the named client opens the overlay; the others and the border are untouched |
| Controller.Eligible | scripts/main.js:50 | `game.users.filter(u => u.active && !u.isGM)`; Controller.EligibleMembers |
| Controller.TriggerEvents | scripts/main.js:48-57 | gmTriggerFlow: a warning for a non-GM or when no player is eligible, otherwise the dialog and, on a confirmed pick, the SHOW_UI emit and the notice; Controller.TriggerRules |
| Controller.OnSocketMessage | scripts/main.js:16-34 | a received payload changes the page as its arm says |
| Controller.EligibleMembers | scripts/main.js:48-57 | the users offered are exactly the active non-GM users |
| Controller.GmTriggerFlow | scripts/main.js:48-57 | the log gains the trigger's steps |
| Controller.TriggerRules | scripts/main.js:48-57 | only a GM with an eligible player opens the dialog, and a pick sends SHOW_UI to exactly that user |
| Controller.DialogOffersEligible | scripts/main.js:48-57 | every user offered is an active non-GM user |
| Controller.TicksExtend | scripts/main.js:96-108 | one more tick appends its number and a one-second wait |
| Controller.Ticks | scripts/main.js:104-107 | the countdown loop: each number shown on the button, then one second; Controller.TicksShape |
| Controller.CountdownEvents | scripts/main.js:96-108 | `_runCountdown`: stop the sound, then for a positive duration the suspense sound announced and played and the ticks; Controller.CountdownPlays |
| Controller.TicksShape | scripts/main.js:96-108 | the countdown shows d, d-1, ..., 1, each followed by one second |
| Controller.RunCountdown | scripts/main.js:96-108 | a positive duration stops the sound, plays the suspense sound and counts down on the chosen button; otherwise nothing happens |
| Controller.TicksQuiet | scripts/main.js:96-108 | ticks play nothing and roll nothing |
| Controller.CountdownPlays | scripts/main.js:96-108 | the countdown plays the suspense sound once, waits one second per tick and posts nothing |
| Controller.OnAvoid | scripts/main.js:67-71 | the countdown, Avoid Death up to its first await, the overlay removed, then the rest of Avoid Death; no overlay and no border remain |
| Controller.OnRisk | scripts/main.js:75-89 | the countdown, the overlay removed, then the configured mode |
| Controller.OnBlaze | scripts/main.js:72-74 | Blaze runs at once and removes the overlay |
| Controller.OnCancel | scripts/main.js:64-66 | the current sound stops |
| Controller.CountdownBeforeRoll | scripts/main.js:67-89 | every countdown number is shown before any die is rolled |
| Controller.AvoidQuiet | scripts/main.js:67-71 | Avoid Death shows no countdown numbers |
| Controller.RiskQuiet | scripts/main.js:75-89 | neither Risk mode shows countdown numbers |
| Controller.NoSecondChoice | scripts/ui.js:170-194 | once an option is picked no other button can be clicked and the cancel button is gone |
| Controller.ClickOption | scripts/ui.js:170-176 | a click on a clickable button hides the others and runs its callback, leaving no overlay; a click elsewhere changes nothing |
| Controller.ClickCancel | scripts/ui.js:163-166 | cancel stops the sound and removes the overlay when there is a cancel button |
| Sync.BroadcastAppend | scripts/logic.js:85-317 | the payloads of two runs are the first run's followed by the second's |
| Sync.Broadcast | scripts/logic.js:85-317 | the payloads a run of the handlers passes to `game.socket.emit`, in order; Sync.BroadcastAppend |
| Sync.Replay | scripts/main.js:16-34 | what a receiving client records for a run of payloads, one switch arm each; Sync.ReplayAppend |
| Sync.TablesRoute | scripts/main.js:16-34 | the table as written routes everything except the border removal; the corrected one routes everything |
| Sync.ReceivedShown | scripts/main.js:16-34 | a received sound, image or border is played or shown as the sender played it |
| Sync.ReceivedRemoval | scripts/main.js:30-32 | a routed removal clears the receiver's border |
| Sync.ReceivedRemovalAsWritten | scripts/main.js:27-29 | with the table as written, a removal is shown as a border of type `undefined` |
| Sync.ReplayAppend | scripts/main.js:16-34 | replaying two runs is replaying one after the other |
| Sync.EverywhereBroadcast | scripts/logic.js:86-114 | the shared steps announce what they show |
| Sync.AvoidBroadcast | scripts/logic.js:85-189 | Avoid Death announces the hope border, its removal, then the result image and sound |
| Sync.ProcessRiskBroadcast | scripts/logic.js:279-285 | the resolution announces its sound, then its image |
| Sync.SequentialRollsBroadcast | scripts/logic.js:216-240 | the phases announce the fear border, the hope border and their removal |
| Sync.RiskBroadcast | scripts/logic.js:195-243 | both Risk modes announce the same result |
| Sync.BlazeBroadcast | scripts/logic.js:298-317 | Blaze announces its sound, then its image |
| Sync.SoundThenMediaReplay | scripts/main.js:21-26 | a sound then an image replay as the same sound and image, and the border stays |
| Sync.BorderThenRemovalReplay | scripts/main.js:27-32 | a border then its removal: none left under a routing table, a blank one as written |
| Sync.AvoidPayloadsReplay | scripts/main.js:16-34 | what a receiver does with Avoid Death's payloads, in both tables |
| Sync.MediaThenSoundReplay | scripts/main.js:21-26 | an image then a sound replay as the same image and sound |
| Sync.AvoidInSync | scripts/logic.js:85-189 | with a routing table, the receiver of Avoid Death plays what the sender played and ends without a border, as the sender does |
| Sync.AvoidOutOfSyncAsWritten | scripts/constants.js:4-7 | with the table as written the receiver plays the right assets but keeps a blank border the sender does not have |
| Sync.SequentialBordersReplay | scripts/logic.js:216-240 | the three border payloads leave no border under a routing table and a blank one as written |
| Sync.RiskInSync | scripts/logic.js:195-243 | the receiver of Risk plays what the sender played; its border is untouched after the one-roll mode and gone after the phases under a routing table |
| Sync.BordersThenResultReplay | scripts/logic.js:216-243 | the phases' payloads and the result replay in order, in both tables |
| Sync.BlazeInSync | scripts/logic.js:298-317 | the receiver of Blaze plays what the sender played and keeps its border |
| Settings.CapitalizeMeaning | scripts/settings.js:48-50 | capitalising keeps the length and the rest of the string, upper-cases the first character and is idempotent |
| Settings.Capitalize | scripts/settings.js:48-50 | `_capitalize`: the first character upper-cased, the rest kept; Settings.CapitalizeMeaning |
| Settings.RemoveFirst | scripts/settings.js:65 | `key.replace('Path', '')`: the first occurrence removed; Settings.RemoveFirstMeaning |
| Settings.UpperCharIdempotent | scripts/settings.js:48-50 | upper-casing an upper-cased character changes nothing |
| Settings.IndexOf | scripts/settings.js:65 | a found position leaves room for the whole pattern |
| Settings.IndexOfMeaning | scripts/settings.js:65 | the position found holds the pattern and none before it does; not found means it occurs nowhere |
| Settings.RemoveFirstMeaning | scripts/settings.js:65 | `replace(pat, '')` removes only the first occurrence, and nothing when there is none |
| Settings.GameSettings.constructor | scripts/settings.js:7-46 | nothing is registered yet |
| Settings.GameSettings.Register | scripts/settings.js:7-46 | a registration is appended |
| Settings.RegisterImages | scripts/settings.js:52-75 | the loop registers one picker per image entry, in order |
| Settings.RegisterAudio | scripts/settings.js:77-98 | the loop registers one picker per audio entry, in order |
| Settings.RegistrationsSnoc | scripts/settings.js:52-98 | one more entry adds its registration at the end |
| Settings.RegisterAll | scripts/settings.js:7-46 | register makes exactly the registrations listed, in order |
| Settings.ImageI18nKeys | scripts/settings.js:65-66 | each image setting is named after its key without "Path", capitalised |
| Settings.AudioI18nKeys | scripts/settings.js:89 | each audio setting is named after its whole key, capitalised |
| Settings.SoundKeyOf | scripts/settings.js:89 | a key starting "sound" capitalises to "Sound" and the rest |
| Settings.ImageKeyOf | scripts/settings.js:65-66 | a base without 'P' followed by "Path" loses exactly the suffix |
| Settings.RegistrationFields | scripts/settings.js:52-98 | each picker has its entry's key and its default file in the module's folder |
| Settings.DefaultFolders | scripts/settings.js:53-86 | the image and audio folders of the module |
| Settings.TablesKeys | scripts/settings.js:53-86 | the image and audio keys, in source order |
| Settings.RegisteredKeys | scripts/settings.js:7-98 | the seventeen setting keys, in registration order |
| Settings.KeysDistinct | scripts/settings.js:7-98 | no two settings share a key |
| Settings.DurationSetting | scripts/settings.js:12-20 | the countdown duration is registered with range 0..10 in steps of 1 and default 6, inside the range |
| Settings.AssetKeysRegistered | scripts/settings.js:52-98 | every image and sound a handler looks up is a registered setting |

The `Effects` lemmas ChatCountAppend, MediaKeysAppend, SoundKeysAppend,
TotalWaitAppend, NoCountdownAppend, NoRollAppend and CountdownsBeforeRolls
are algebra over the event log. They model no line of the scripts, so they
have no row; the handler lemmas above use them.

## Left out

- `scripts/audio.js` and `scripts/media-config.js` are not part of this
  model. `DeathAudioManager.playMedia`, `playSound` and `stopCurrentSound` become
  the MediaPlayed, SoundPlayed and SoundStopped events.
- `showAnnouncement`, `showMediaOverlay` and `createGMDialog` draw pictures
  and text. They are represented by the events that call them, and the
  dialog's answer is a parameter.
- Dice So Nice (`game.dice3d`) and the roll appearance options are left
  out, because they do not change an outcome. `Roll` is random, so its
  results are parameters.
- `ChatMessage.create` and `getSpeaker` become a ChatPosted event with the
  speaker and the card.
- The cards' HTML and CSS are reduced to named markup pieces between the
  substituted values. The Phoenix badge of the Avoid probability line
  keeps its feather, the item's name and "(+1)", with its inline style
  abbreviated.
- Timers are Waited events. The one interleaving kept is `onAvoid`, which
  does not await `handleAvoidDeath`, split at its first await. Other
  socket messages arriving during a wait are not interleaved.
- The `ready` hook that calls `init` (`Hooks.once('ready', ...)`), the
  `renderDaggerheartMenu` hook and the `window` API are left out, because
  they are host wiring. `init`'s socket switch is
  `Controller.OnSocketMessage`.
- The spectator arguments of `createOverlay` (`isSpectator`, `forceProbs`)
  are modelled, but no caller in the scripts passes them.
- Socket serialisation is not modelled: a payload reaches the receiver as
  it was emitted, with `undefined` fields absent.
- The Config input stands for `DeathSettings.get`. Its values are not
  derived from the registrations. `phoenixItemName`, `riskItAllDoubleRoll`
  and the `soundRollScreen` sound are read or played but never registered
  by `settings.js`, so the model takes them as given.
- World.AssetPath: without a character, handleAvoidDeath calls
  `DeathSettings.get(null)`. What the host returns for an unknown key is
  not part of this model, so it is taken to be falsy, which gives "".
- Odds.RoundedPercent: computes `(c / 12) * 100` exactly rather than in
  floating point. For c in 0..12 the exact value is never within rounding
  error of a half (`Odds.PercentOfTwelfths`), so the rounded result is the
  same.
- Controller.Clickable: a button with the `hidden-btn` class is taken to
  receive no clicks. The scripts keep every option's `onclick` attached
  and only add the class, whose stylesheet is not part of this model.
  Controller.NoSecondChoice and the "a click elsewhere changes nothing"
  half of Controller.ClickOption rest on this.
- Values.UpperChar: upper-cases ASCII letters only, not the full Unicode
  mapping of `toUpperCase`.
- Handlers.AvoidCardShowsRoll: states only that the Phoenix item is named
  when it is held. Without the item, the localised message text could
  happen to equal the item's name.
- `ui.notifications.warn` and `ui.notifications.info` are not shown; they
  are recorded as Warned and Notified events with their text, together
  with the early returns they come with.

## Findings

| source | as written | input that shows it | evidently intended | confidence | as-written member | corrected member |
|---|---|---|---|---|---|---|
| scripts/constants.js:4-7 | SOCKET_TYPES has no SHOW_BORDER or REMOVE_BORDER entry, so both cases of the switch in scripts/main.js:27-32 compare with `undefined`, and the emits in scripts/logic.js:88, 114, 218, 229 and 240 send `type: undefined` | handleAvoidDeath (or the two-phase Risk It All) on one client, received by another | the other clients show the border and then remove it, ending as the sender does, without a border | not executed | Sync.AvoidOutOfSyncAsWritten | Sync.AvoidInSync |

With the table as written, every border message reaches the receiver with
an undefined type. The switch takes the first matching case, SHOW_BORDER,
so the removal is handled as `showBorderEffect(undefined)`. The receiver is
left with a blank border overlay (`Sync.ReceivedRemovalAsWritten`,
`Controller.DispatchAsWritten`). With both entries added (`SOCKET_TYPES_FIXED`),
every type reaches its own arm (`Controller.DispatchFixed`). Receivers then
end in the same border state as the sender (`Sync.AvoidInSync`, and the
`Routes` clause of `Sync.RiskInSync`). The corrected table is the one the
sync lemmas assume.

## Notes on the scripts

- Risk It All's odds text is the fixed "LIFE: 54% | DEATH: 46%" of scripts/ui.js:49.
  `Odds.RiskPercents` shows this equals the rounded shares of life (Hope or
  Critical) and death (Fear) over the 144 pairs.
- The message types are only the five of the switch. There are no spectator
  or countdown messages.
- The border kinds are "hope" and "fear".
