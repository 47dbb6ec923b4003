# Football squad manager — a Dafny model

The football squad manager is a web app for a weekly pick-up game on one
village field. Players sign in by SMS code and complete a profile; residents
have priority. The app runs two registration waves for each game: residents
first, then everybody. It keeps an ordered standby queue and checks players in
by scanning a QR code on the field, within 10 metres of it. Game times follow
the local Shabbat times: wave 2 opens an hour before candle lighting, and the
deadline is an hour after havdalah, rounded up to :00 or :30. Administrators
create games by hand or as test fixtures, edit the rules text, send push
notifications, manage users and set the field's coordinates and QR key.

The model covers the screens and helpers that hold this logic. Each module
follows one source file:

| module | file |
|---|---|
| `DbTypes` | `src/lib/database.types.ts` |
| `Phone` | the phone helpers shared by `src/screens/Profile.tsx`, `src/screens/Login.tsx` and `src/screens/Onboarding.tsx` |
| `Welcome` | `src/screens/Welcome.tsx` |
| `ProfileScreen` | `src/screens/Profile.tsx` |
| `Login` | `src/screens/Login.tsx` |
| `Onboarding` | `src/screens/Onboarding.tsx` |
| `GameRegistration` | `src/components/game/GameRegistration.tsx` |
| `QrScanner` | `src/components/QrScanner.tsx` |
| `Hebcal` | `src/lib/hebcal.ts` |
| `CreateGameForm` | `src/components/admin/CreateGameForm.tsx` |
| `GameManagement` | `src/components/admin/GameManagement.tsx` |
| `TestGameCreate` | `supabase/functions/admin-test-game-create/index.ts` |
| `RulesEditor` | `src/components/admin/RulesEditor.tsx` |
| `PushNotifications` | `src/components/admin/PushNotifications.tsx` |
| `UserManagement` | `src/components/admin/UserManagement.tsx` |
| `AppSettings` | `src/components/admin/AppSettings.tsx` |
| `AuthWrapper` | `src/components/AuthWrapper.tsx` |
| `AppRoutes` | `src/App.tsx` |
| `BottomNav` | `src/components/BottomNav.tsx` |
| `NavLink` | `src/components/NavLink.tsx` |

`Wrappers`, `Text`, `Lists` and `Clock` are shared helpers:

- `Wrappers` defines Option and Result.
- `Text` models the JavaScript string operations the code uses: digit
  stripping, trim, lower case, split, decimal text.
- `Lists` models order-preserving filtering.
- `Clock` models instants and the local clock.

How the source's environment is represented:

- **Components.** A component whose state changes becomes a class. Its
  fields are the component's state, and each handler is a method whose
  `modifies` clause names the state it sets.
- **Pure computations** (validation, formatting, eligibility, sorting)
  become functions. Lemmas state what the code promises about them.
- **External calls.** What the database, the auth service, the SMS
  provider, the push service or the browser returns is a parameter of the
  method that receives it. This covers error results, geolocation, and the
  success or failure of a write.
- **Time.**
  - An instant is an integer count of milliseconds since the epoch.
  - `new Date(text)` either gives an instant or an Invalid Date
    (`Clock.Instant`).
  - The browser's local clock is the instant shifted by a constant offset
    `tz`.
  - A `YYYY-MM-DD` date is a UTC day number.
  - An `HH:MM` time is a minute of the day.
- **Randomness.** `Math.random` and `crypto.randomUUID` become input
  sequences of draws.

## Model

| member | source | states |
|---|---|---|
| DbTypes.ParseGameStatus | src/lib/database.types.ts:11 | Parsing a stored game status gives the status whose name is that text. |
| DbTypes.GameStatusNamesRoundTrip | src/lib/database.types.ts:11 | Every game status parses back from its stored name. |
| DbTypes.ParseRegistrationStatus | src/lib/database.types.ts:13 | Parsing a stored registration status gives the status with that name. |
| DbTypes.RegistrationStatusNamesRoundTrip | src/lib/database.types.ts:13 | Every registration status parses back from its stored name. |
| DbTypes.ParseCheckInStatus | src/lib/database.types.ts:15 | Parsing a stored check-in status gives the status with that name. |
| DbTypes.CheckInStatusNamesRoundTrip | src/lib/database.types.ts:15 | Every check-in status parses back from its stored name. |
| Phone.CheckLocalDigits | src/screens/Profile.tsx:28-44 | A digit string is valid exactly when it has ten digits and starts 05. It is "empty" exactly when it is empty, and "not mobile" exactly when it is non-empty without the 05 prefix. |
| Phone.ValidatePhone | src/screens/Login.tsx:17-33 | A number accepted has exactly ten digits once non-digits are removed, the first two being 05. |
| Phone.FormatToInternational | src/screens/Onboarding.tsx:38-41 | The result starts `+972` followed only by digits, and is three characters longer than the input's digits. |
| Phone.FormatToLocal | src/screens/Profile.tsx:51-57 | A `+972` prefix becomes `0`; any other text is returned unchanged. |
| Phone.InternationalFormShape | src/screens/Profile.tsx:46-49 | A valid number's international form is 13 characters: `+972`, then the nine digits after the leading 0, the first being 5. |
| Phone.LocalInternationalRoundTrip | src/screens/Profile.tsx:46-57 | For a valid number, the local form of its international form is its digits. |
| Phone.FormatToLocalKeepsLocal | src/screens/Profile.tsx:51-57 | A valid local number is its own local form. |
| Phone.InternationalInputRejected | src/screens/Login.tsx:17-33 | A number typed with its `+972` prefix always fails the 05 check on these screens. |
| Welcome.NormalizeToLocalDigits | src/screens/Welcome.tsx:21-27 | The digits of the input, with a twelve-digit 972 number rewritten to its ten-digit 0 form; the result is all digits. |
| Welcome.NormalizeIdempotent | src/screens/Welcome.tsx:21-27 | Normalising twice is normalising once. |
| Welcome.ValidateWelcomePhone | src/screens/Welcome.tsx:29-45 | A number accepted normalises to ten digits starting 05. |
| Welcome.InternationalInputAccepted | src/screens/Welcome.tsx:21-45 | Unlike the other screens, `+972` and nine digits starting 5 is accepted, normalised to 0 and those nine digits. |
| Welcome.FormatToInternationalWelcome | src/screens/Welcome.tsx:47-51 | A normalised number starting 0 becomes `+972` and the rest; any other gets only a `+`. |
| Welcome.WelcomeRoundTrip | src/screens/Welcome.tsx:47-59 | For a valid number the international form has 13 characters, and its local form is the normalised digits. |
| Welcome.WelcomeForm.constructor | src/screens/Welcome.tsx:66-74 | The form starts empty, on the phone step, with nothing pending or in flight. |
| Welcome.WelcomeForm.CanSendOtp | src/screens/Welcome.tsx:100 | Sending is possible only without a verified phone, for a valid number, with nothing in flight. |
| Welcome.WelcomeForm.CanVerifyOtp | src/screens/Welcome.tsx:101 | Verifying is possible only without a verified phone, with a pending number and a six-character code. |
| Welcome.WelcomeForm.CanSave | src/screens/Welcome.tsx:102 | Saving is possible only with a non-blank name, a verified phone and nothing in flight; related to the write by `Welcome.SaveButtonMatchesSave`. |
| Welcome.WelcomeForm.ShowsPhoneError | src/screens/Welcome.tsx:96 | The phone error shows only without a verified phone, for a non-empty, invalid number. |
| Welcome.WelcomeForm.PhoneEdited | src/screens/Welcome.tsx:288-300 | The input takes the new text. A pending verification and the typed code are dropped exactly when the new digits differ from the pending number's; otherwise nothing else changes. |
| Welcome.WelcomeForm.OtpEdited | src/screens/Welcome.tsx:347 | The code field holds the digits of what was typed. |
| Welcome.WelcomeForm.SendOtp | src/screens/Welcome.tsx:104-129 | A code is sent exactly when the number is valid and the phone not yet verified, to its international form. After a successful send the number is pending and the code step is shown; otherwise the verification state is kept. |
| Welcome.WelcomeForm.VerifyOtp | src/screens/Welcome.tsx:131-171 | The pending number is written to the profile exactly when there is a user, a pending number, no verified phone and the code is accepted. A successful write resets the verification state; otherwise that state is kept. |
| Welcome.WelcomeForm.SaveRequest | src/screens/Welcome.tsx:173-223 | No user: nothing. A blank name or an unverified phone is refused, in that order. A signed-in user with a non-blank name and a verified phone always gets the write of the trimmed name, that phone and the residency flag. |
| Welcome.SendThenVerify | src/screens/Welcome.tsx:104-171 | Sending to a valid number and verifying stores that number's international form, 13 characters long, which reads back as the normalised digits typed. |
| Welcome.SaveButtonMatchesSave | src/screens/Welcome.tsx:100-102 | When the save button is enabled, the save writes. |
| ProfileScreen.FormattedPhone | src/screens/Profile.tsx:143-146 | Non-empty exactly for a valid input, and then the international form. |
| ProfileScreen.ShowsPhoneError | src/screens/Profile.tsx:144 | The phone error shows only for a non-empty, invalid number. |
| ProfileScreen.VerificationStates | src/screens/Profile.tsx:143-149 | "Already the account's number" and "needs verification" never hold together; one of them holds exactly for a valid input. |
| ProfileScreen.SaveRequest | src/screens/Profile.tsx:204-236 | A blank name is refused. Otherwise the row has the user's id and the trimmed name, and carries the residency flag exactly on first-time setup. |
| ProfileScreen.ReturningUserKeepsResidency | src/screens/Profile.tsx:151 | A user who already has a name never has the residency flag written by a save. |
| ProfileScreen.CheckAvatar | src/screens/Profile.tsx:153-165 | A file is accepted exactly when its type starts `image/` and it is at most 5 MiB. A non-image is refused as such, whatever its size. |
| ProfileScreen.AvatarPath | src/screens/Profile.tsx:168-169 | The path is exactly `{user}/{time}.` and the piece after the file name's last dot (`Text.LastPiece`: the whole name when it has no dot, otherwise the dot-free tail that follows a dot). |
| ProfileScreen.ExtensionOfDotlessName | src/screens/Profile.tsx:168 | A name without a dot is its own extension. |
| ProfileScreen.PhoneVerification.constructor | src/screens/Profile.tsx:66-71 | The verification state starts empty, on the phone step. |
| ProfileScreen.PhoneVerification.PhoneEdited | src/screens/Profile.tsx:468-480 | The input takes the new text. The pending number and typed code are dropped exactly when the new digits differ from the pending number's local digits. |
| ProfileScreen.PhoneVerification.SendOtp | src/screens/Profile.tsx:238-267 | A code is sent exactly when the number needs verification, to its international form. A successful send makes it pending; otherwise the state is kept. |
| ProfileScreen.PhoneVerification.OtpEdited | src/screens/Profile.tsx:523 | The code field holds the digits of what was typed. |
| ProfileScreen.PhoneVerification.CanVerify | src/screens/Profile.tsx:534 | The verify button is enabled only for a six-character code while idle. |
| ProfileScreen.PhoneVerification.VerifyOtp | src/screens/Profile.tsx:269-308 | The pending number is written to the profile only for a signed-in user whose code is accepted, and always then. A successful write resets the verification state; otherwise it is kept. Once the verification was attempted the spinner is off again; an early return leaves it as it was. |
| Login.LoginScreen.constructor | src/screens/Login.tsx:41-46 | The screen starts empty, on the phone step, with nothing in flight. |
| Login.LoginScreen.CanSend | src/screens/Login.tsx:212 | The send button is enabled only for a valid number with nothing in flight. |
| Login.LoginScreen.CanVerify | src/screens/Login.tsx:239 | The verify button is enabled only for a six-character code with nothing in flight. |
| Login.LoginScreen.ShowsPhoneError | src/screens/Login.tsx:51 | The phone error shows only for a non-empty, invalid number. |
| Login.LoginScreen.PhoneEdited | src/screens/Login.tsx:200 | The phone field takes the typed text. |
| Login.LoginScreen.OtpEdited | src/screens/Login.tsx:229 | The code field holds only digits, those of what was typed. |
| Login.LoginScreen.SendOtp | src/screens/Login.tsx:70-98 | A code is sent exactly for a valid number, to its international form. The code step follows a successful send only; nothing is in flight afterwards. |
| Login.LoginScreen.VerifyOtp | src/screens/Login.tsx:100-123 | A sign-in request is made exactly for a six-character code, with the international form of the number and the code. |
| Login.LoginScreen.BackToPhone | src/screens/Login.tsx:251-252 | "Send a new code" returns to the phone step. |
| Login.SendThenVerify | src/screens/Login.tsx:70-123 | With the phone left unedited, the number verified is the number the code went to, a 13-character `+972` number. Sending happens exactly for a valid number, verifying exactly for six code digits. |
| Onboarding.RedirectFor | src/screens/Onboarding.tsx:51-60 | Nothing happens while auth loads. A signed-out user goes to login. A user goes home exactly when the profile has a non-empty phone. |
| Onboarding.OnboardingScreen.constructor | src/screens/Onboarding.tsx:44-47 | The screen starts empty, on the phone step. |
| Onboarding.OnboardingScreen.CanSend | src/screens/Onboarding.tsx:204 | The send button is enabled only for a valid number while idle. |
| Onboarding.OnboardingScreen.CanVerify | src/screens/Onboarding.tsx:232 | The verify button is enabled only for a six-character code while idle. |
| Onboarding.OnboardingScreen.OtpEdited | src/screens/Onboarding.tsx:222 | The code field holds only digits, those of what was typed. |
| Onboarding.OnboardingScreen.SendOtp | src/screens/Onboarding.tsx:65-94 | A phone change is requested exactly for a valid number, for its international form. The code step follows a successful request only. |
| Onboarding.OnboardingScreen.VerifyOtp | src/screens/Onboarding.tsx:96-156 | With a user, the code is checked against the international number. The profile is written with that same number exactly when the code is accepted. |
| Onboarding.VerifiedUserGoesHome | src/screens/Onboarding.tsx:51-60 | Once the profile holds the verified number the user is sent home. |
| GameRegistration.MaxPlayersShown | src/components/game/GameRegistration.tsx:22-33 | Without a game the capacity shown is the default of 15. |
| GameRegistration.CanRegister | src/components/game/GameRegistration.tsx:137-164 | Whether the player may register now: wave 2, then wave 1 for residents, then the status field. Its properties are stated by the lemmas below. |
| GameRegistration.CanRegisterExactly | src/components/game/GameRegistration.tsx:137-164 | Registration is possible exactly when a game is loaded and one of these holds: wave 2 has opened, the game is open for all, or the player is a resident and either wave 1 has opened or the game is open for residents. |
| GameRegistration.WaveTwoAdmitsEveryone | src/components/game/GameRegistration.tsx:142-147 | Once wave 2 has opened anyone may register. |
| GameRegistration.ResidencyNeverHurts | src/components/game/GameRegistration.tsx:137-164 | A resident may register whenever anybody may. |
| GameRegistration.NonResidentAdmission | src/components/game/GameRegistration.tsx:137-164 | A non-resident may register exactly after wave 2 opens or when the game is open for all. |
| GameRegistration.EligibilityPersists | src/components/game/GameRegistration.tsx:137-164 | Eligibility, once reached, is not lost as time passes. |
| GameRegistration.RegistrationStatusText | src/components/game/GameRegistration.tsx:166-196 | The label as written, in the same order of tests; related to eligibility by the label lemmas below. |
| GameRegistration.SignUpLabelImpliesEligible | src/components/game/GameRegistration.tsx:166-196 | The button label offers sign-up only to an eligible player. |
| GameRegistration.ResidentsOnlyLabelOnOpenButton | src/components/game/GameRegistration.tsx:180-185 | A non-resident can be eligible when the game is open for all yet see the "residents only" label, once wave 1 has opened and wave 2 has not. |
| GameRegistration.LabelMatchesEligibility | src/components/game/GameRegistration.tsx:137-196 | The corrected label offers sign-up exactly to eligible players, and says "residents only" exactly when only a resident could register now. |
| GameRegistration.LabelsDifferOnlyInWaveOne | src/components/game/GameRegistration.tsx:166-196 | The label as written and the corrected label differ only in that one case. |
| GameRegistration.CheckInClosesAt | src/components/game/GameRegistration.tsx:232-242 | In a zone at or east of UTC, the local midnight at the end of an auto-generated game's date (stated by `GameRegistration.CheckInClosesAtNextLocalMidnight`); west of UTC the same computation gives the midnight that starts it, as the source does. |
| GameRegistration.CanCheckIn | src/components/game/GameRegistration.tsx:198-246 | The check-in window: not yet open more than 20 minutes before kickoff, ended for an auto-generated game after that midnight, otherwise open; stated by the check-in lemmas below. |
| GameRegistration.CheckInNotBeforeLeadTime | src/components/game/GameRegistration.tsx:198-210 | Check-in reports "opens in" exactly when kickoff is more than 20 minutes away, and is allowed only from 20 minutes before kickoff. |
| GameRegistration.CheckInOpenAtExactlyTwentyMinutes | src/components/game/GameRegistration.tsx:206-210 | At exactly 20 minutes before kickoff check-in is allowed. |
| GameRegistration.ManualGamesStayOpen | src/components/game/GameRegistration.tsx:230-246 | For a game created by hand check-in, once open, stays open. |
| GameRegistration.AutoGamesCloseAfterMidnight | src/components/game/GameRegistration.tsx:230-246 | For an auto-generated game check-in is allowed until the closing instant, which in a zone at or east of UTC is the local midnight at the end of the game's date, and reported ended exactly after it. |
| GameRegistration.CheckInClosesAtNextLocalMidnight | src/components/game/GameRegistration.tsx:232-242 | In a zone at or east of UTC that instant is the local midnight starting the next day. |
| GameRegistration.ActiveRows | src/components/game/GameRegistration.tsx:335-336 | The active list is the loaded rows with status active, in their loaded order, each as many times as it was loaded; rows ordered by registration time stay so. |
| GameRegistration.StandbyRows | src/components/game/GameRegistration.tsx:337-344 | The standby list is the loaded standby rows, in their loaded order, each as many times as it was loaded. |
| GameRegistration.InsertByQueue | src/components/game/GameRegistration.tsx:338-343 | Inserting adds exactly the one element. |
| GameRegistration.InsertKeepsOrder | src/components/game/GameRegistration.tsx:338-343 | Inserting into a queue-ordered list keeps it queue-ordered. |
| GameRegistration.SortByQueue | src/components/game/GameRegistration.tsx:338-343 | The sort returns a queue-ordered permutation of its input; its stability is stated by `GameRegistration.SortKeepsTies`. |
| GameRegistration.StandbyQueue | src/components/game/GameRegistration.tsx:337-344 | The waiting list as rendered: the standby rows sorted by queue order; stated by the next lemma. |
| GameRegistration.StandbyQueueIsSortedPermutation | src/components/game/GameRegistration.tsx:337-344 | The waiting list is a permutation of the standby rows. It is ordered by queue position, with positionless rows last, and by registration time among equal positions. |
| GameRegistration.InsertKeepsTies | src/components/game/GameRegistration.tsx:338-343 | Inserting a row keeps the order of any class of rows that never sort before one another, the new row going first. |
| GameRegistration.SortKeepsTies | src/components/game/GameRegistration.tsx:338-343 | The sort is stable: such a class keeps its loaded order. |
| GameRegistration.StandbyQueueIsStable | src/components/game/GameRegistration.tsx:337-344 | Standby rows with equal position key and registration time appear in the waiting list in their loaded order, as the stable `Array.prototype.sort` leaves them. |
| GameRegistration.PositionedBeforeUnpositioned | src/components/game/GameRegistration.tsx:339-341 | A row with a queue position comes before one without. |
| GameRegistration.IndexById | src/components/game/GameRegistration.tsx:415-416 | The index of the first row with that id, or -1 when none has it. |
| GameRegistration.QueuePositionShown | src/components/game/GameRegistration.tsx:415-416 | A waiting player sees their stored position. Without one, their one-based place in the displayed queue, or 0 when absent from it. |
| GameRegistration.LoadedRows | src/components/game/GameRegistration.tsx:56-99 | The loaded rows are the table's rows for this game that are not cancelled, in the table's order and with their multiplicity; a table ordered by registration time gives an ordered list. |
| GameRegistration.FirstOfUser | src/components/game/GameRegistration.tsx:100 | The player's row is the first loaded row with their id, as `find` returns; none exactly when no row has it. |
| GameRegistration.RegisterDecision | src/components/game/GameRegistration.tsx:249-258 | Nothing happens exactly when no game is loaded, no one is signed in or the player is not eligible. Otherwise an existing registration gives the duplicate notice, and without one the procedure is called with the game's id. |
| GameRegistration.NoCallWhenRegistered | src/components/game/GameRegistration.tsx:249-258 | Once a non-cancelled row of the player is loaded, pressing register never calls the procedure. |
| GameRegistration.RegisterOutcome | src/components/game/GameRegistration.tsx:259-279 | A failed call shows an error. An empty result reads as joining the game. Otherwise the player joins exactly when the returned status is active. |
| GameRegistration.CancelOutcome | src/components/game/GameRegistration.tsx:290-296 | The toast after the cancellation call is the success message exactly when there was no error, and otherwise carries the error's message. |
| GameRegistration.RegistrationPanel.constructor | src/components/game/GameRegistration.tsx:26-54 | The panel starts with the looked-up game, no rows and nothing in flight. |
| GameRegistration.RegistrationPanel.Refresh | src/components/game/GameRegistration.tsx:56-105 | On a successful query the rows become the game's non-cancelled rows, and the player's row is the first with their id. A failed query, or no game, changes nothing. |
| GameRegistration.RegistrationPanel.BeginRegister | src/components/game/GameRegistration.tsx:249-258 | The action taken is the registration decision; the busy flag is set only when the call is made. |
| GameRegistration.RegistrationPanel.FinishRegister | src/components/game/GameRegistration.tsx:259-280 | The toast shown is the call's outcome, and the busy flag is cleared. |
| GameRegistration.RegistrationPanel.ButtonLabel | src/components/game/GameRegistration.tsx:435-446 | The label the panel renders, as written: it offers sign-up only to an eligible player, never says "closed" to an eligible player, and says "residents only" only to a non-resident (see Findings for the eligible non-resident who reads "residents only"). |
| GameRegistration.RegistrationPanel.BeginCancel | src/components/game/GameRegistration.tsx:282-289 | A cancellation is requested, for the current game, exactly when the player has a registration and a game is loaded. |
| GameRegistration.RegistrationPanel.FinishCancel | src/components/game/GameRegistration.tsx:290-299 | After the cancellation call the panel is idle again and shows the cancellation toast for the call's error. |
| GameRegistration.RegistrationPanel.RegisterButtonEnabled | src/components/game/GameRegistration.tsx:435-438 | The register button is shown without a registration and enabled only when idle and eligible. |
| GameRegistration.RegistrationPanel.EnabledButtonCalls | src/components/game/GameRegistration.tsx:249-258 | Pressing the enabled register button calls the procedure for the current game. |
| GameRegistration.RegistrationPanel.ShowsScanner | src/components/game/GameRegistration.tsx:453-456 | The scanner is offered to an active, not yet checked-in player while check-in is allowed. |
| GameRegistration.RegistrationPanel.Waiting | src/components/game/GameRegistration.tsx:336-344 | The waiting list shown holds exactly the loaded standby rows, each as often as loaded, in queue order. |
| QrScanner.Round | src/components/QrScanner.tsx:88 | `Math.round` lands within half a unit of its argument, rounding halves up. |
| QrScanner.Configured | src/components/QrScanner.tsx:70 | A field coordinate counts as set only when present and non-zero, as the truthiness test reads it. |
| QrScanner.WithinRadius | src/lib/geolocation.ts:38-46 | The 10-metre test is inclusive; stated by `QrScanner.BoundaryIsInside`. |
| QrScanner.OpenFailureToast | src/components/QrScanner.tsx:160-194 | The toast for each kind of location failure; used by `QrScanner.Scanner.CompleteOpen`. |
| QrScanner.VerifyScan | src/components/QrScanner.tsx:55-118 | A wrong code is rejected before the position is asked for. A right code without a position reports the location failure. An unconfigured field is reported whatever the position. A rejected distance is reported as `Math.round` of the distance. The check-in is written only after every check passes, for the given game, and a failed write reports its error. Success holds exactly when every check and the write succeed. |
| QrScanner.BoundaryIsInside | src/lib/geolocation.ts:38-46 | A player exactly 10 metres from the field is checked in. |
| QrScanner.RejectedDistanceMayRoundToRadius | src/components/QrScanner.tsx:81-88 | For every position between 10 and 10.5 metres from a configured field, the right code is turned away with a message naming 10 metres. |
| QrScanner.Scanner.constructor | src/components/QrScanner.tsx:29-33 | The scanner starts closed, idle, loading, without settings. |
| QrScanner.Scanner.SettingsLoaded | src/components/QrScanner.tsx:39-53 | Loading ends; the settings are those read, or unchanged after a failed read. |
| QrScanner.Scanner.Rendered | src/components/QrScanner.tsx:207 | The scanner renders nothing while its settings load; `QrScanner.Scanner.SettingsLoaded` ends the loading. |
| QrScanner.Scanner.BeginOpen | src/components/QrScanner.tsx:149-158 | Without geolocation a toast says so and the status is kept; otherwise the location is requested. |
| QrScanner.Scanner.CompleteOpen | src/components/QrScanner.tsx:160-194 | A position opens the scanner ready to scan. A failure returns to idle with the toast for its cause. |
| QrScanner.Scanner.BeginScan | src/components/QrScanner.tsx:55-61 | A verification starts exactly while scanning with settings and a user, for that code and user. |
| QrScanner.Scanner.FinishScan | src/components/QrScanner.tsx:62-118 | A verification in progress ends in success or in the error VerifyScan reports, with VerifyScan's write. |
| QrScanner.Scanner.SuccessTimerFired | src/components/QrScanner.tsx:108-112 | After a success the dialog closes and the scanner is idle. |
| QrScanner.Scanner.Close | src/components/QrScanner.tsx:196-200 | Closing leaves the dialog closed, idle, without an error. |
| QrScanner.Scanner.Retry | src/components/QrScanner.tsx:202-205 | Retrying returns to scanning without an error. |
| QrScanner.Scanner.ScanButtonEnabled | src/components/QrScanner.tsx:217 | The scan button is enabled only with a non-empty secret key and while no position is being requested. |
| Hebcal.LastOf | src/lib/hebcal.ts:53-63 | No date is found exactly when no item has the category. |
| Hebcal.LastOfIsLast | src/lib/hebcal.ts:53-63 | The date found is that of a matching item after which none matches. |
| Hebcal.LastOfSnoc | src/lib/hebcal.ts:53-63 | A later item of the category overrides earlier ones. |
| Hebcal.LastCandlesParsed | src/lib/hebcal.ts:55-59 | If every candles date parses, the last one found is a real instant. |
| Hebcal.DayAfter | src/lib/hebcal.ts:56-59 | A Shabbat date exists exactly for a parsed candle-lighting time. |
| Hebcal.GetNextShabbatTimes | src/lib/hebcal.ts:35-74 | An HTTP error gives the API error. Otherwise the loop over the items yields the times of the last candles and havdalah items, or the "not found" error. |
| Hebcal.ShabbatTimesOf | src/lib/hebcal.ts:53-73 | The Shabbat times taken from the last candles and havdalah items, or the error for a bad or missing item; the loop of `Hebcal.GetNextShabbatTimes` is proved equal to it. |
| Hebcal.ShabbatTimesFromLastItems | src/lib/hebcal.ts:53-73 | The Shabbat date is the UTC day after candle lighting; both times are those of the last matching items. |
| Hebcal.RoundUpToHalfHour | src/lib/hebcal.ts:79-95 | The result falls on :00 or :30 and less than half an hour after the input. A time already on the half hour is kept. Below :30 it moves to :30 of the same hour, above :30 to :00 of the next. |
| Hebcal.RoundUpIdempotent | src/lib/hebcal.ts:79-95 | Rounding a rounded time changes nothing. |
| Hebcal.CalculateGameTimes | src/lib/hebcal.ts:105-130 | Wave 2 opens an hour before candle lighting. The deadline is havdalah plus an hour, rounded up to the next half hour (60 to 90 minutes after havdalah), and kickoff is 15 minutes before the deadline, on :15 or :45. An unparsed havdalah leaves both invalid. |
| Hebcal.KickoffMinute | src/lib/hebcal.ts:120-122 | Fifteen minutes before a time on :00 or :30 is on :45 or :15. |
| Hebcal.WaveOneOpensFridayNoon | src/lib/hebcal.ts:106-109 | Wave 1 opens at 12:00 local time on the day before the Shabbat date. |
| CreateGameForm.DigitRun | src/components/admin/CreateGameForm.tsx:211 | The longest digit prefix of the text. |
| CreateGameForm.ParseInt | src/components/admin/CreateGameForm.tsx:211-222 | `parseInt` is NaN exactly when no digit follows the leading whitespace and optional sign. |
| CreateGameForm.ParseIntOfDecimal | src/components/admin/CreateGameForm.tsx:211-222 | A number typed in decimal parses to itself. |
| CreateGameForm.OrFallback | src/components/admin/CreateGameForm.tsx:211-222 | `parseInt(..) \|\| fallback` gives the number, or the fallback for NaN and 0. |
| CreateGameForm.StandbyZeroCannotBeEntered | src/components/admin/CreateGameForm.tsx:222 | A standby maximum of 0 cannot be entered: typing 0 stores 10. |
| CreateGameForm.GameForm.constructor | src/components/admin/CreateGameForm.tsx:23-33 | The form's initial values: kickoff 18:45, deadline 19:00, wave 1 at 12:00, wave 2 at 15:30, 15 players, 10 standby, scheduled. |
| CreateGameForm.GameForm.GameDateChanged | src/components/admin/CreateGameForm.tsx:76-89 | A chosen date becomes the deadline date, and the day before it both wave dates. Clearing the date changes only the date. |
| CreateGameForm.GameForm.MaxPlayersEdited | src/components/admin/CreateGameForm.tsx:211 | The maximum is the parsed text, or 15. |
| CreateGameForm.GameForm.MaxStandbyEdited | src/components/admin/CreateGameForm.tsx:222 | The standby maximum is the parsed text, or 10. |
| CreateGameForm.GameForm.StatusChosen | src/components/admin/CreateGameForm.tsx:230 | The status becomes the one chosen. |
| CreateGameForm.GameForm.Insert | src/components/admin/CreateGameForm.tsx:45-61 | The row has the form's date, status and maxima. Each timestamp is the local date and time entered. Each wave is present exactly when both its date and time are set. |
| CreateGameForm.GameForm.Submit | src/components/admin/CreateGameForm.tsx:35-73 | Refused exactly when one of the four required fields is empty; otherwise the row is inserted and the busy flag cleared. |
| GameManagement.ToNumber | src/components/admin/GameManagement.tsx:168 | `Number` gives 0 for blank text and the value of a decimal numeral. |
| GameManagement.ToNumberOfDecimal | src/components/admin/GameManagement.tsx:168 | A decimal numeral converts to its value. |
| GameManagement.TimeKeysAreTheTimeFields | src/components/admin/GameManagement.tsx:168 | The keys whose name contains "Time" are exactly the kickoff and deadline fields. |
| GameManagement.UpdateTestConfigChangesOneField | src/components/admin/GameManagement.tsx:165-170 | Editing a field changes only that field. A time keeps the text, a count becomes its `Number`. |
| GameManagement.UpdateTestConfig | src/components/admin/GameManagement.tsx:165-170 | The form after one field is edited; stated by `GameManagement.UpdateTestConfigChangesOneField`. |
| GameManagement.ClientValidate | src/components/admin/GameManagement.tsx:172-208 | The form's checks in the component's order, giving the first failure; stated by `GameManagement.ClientValidateAccepts` and `GameManagement.ClientAgreesWithServer`. |
| GameManagement.TestGameRequest | src/components/admin/GameManagement.tsx:212-223 | The payload sent to the edge function; related to the server's checks by `GameManagement.ClientAgreesWithServer`. |
| GameManagement.ClientValidateAccepts | src/components/admin/GameManagement.tsx:172-208 | For numeric fields the form accepts exactly these: positive players, non-negative counts within their maxima, and valid times with kickoff first. |
| GameManagement.ClientAgreesWithServer | src/components/admin/GameManagement.tsx:172-222 | For numeric fields the form accepts exactly the requests the edge function accepts. |
| GameManagement.TimesCheckedInOppositeOrder | src/components/admin/GameManagement.tsx:180-223 | For every form with bad maxima and a bad time, and any batch id, the form reports the maxima and the edge function the times. |
| GameManagement.NaNMaximumPassesForm | src/components/admin/GameManagement.tsx:180-198 | A NaN maximum passes the form's checks, since every comparison with NaN is false. |
| GameManagement.PadTwoDigits | src/components/admin/GameManagement.tsx:28 | Padding a number below 100 gives two digits that read back as it. |
| GameManagement.ToLocalInputValueShape | src/components/admin/GameManagement.tsx:30-32 | The input value is `YYYY-MM-DDTHH:MM`: 16 characters, with each field in its place. |
| GameManagement.InitialCountsPass | src/components/admin/GameManagement.tsx:46-58 | The initial counts (20, 5, 15, 5) pass the form's checks. |
| GameManagement.FormatTime | src/components/admin/GameManagement.tsx:301-309 | Empty stays empty, a timestamp is localised, a time of day is cut to `HH:MM`. |
| GameManagement.SwapUsers | src/components/admin/GameManagement.tsx:143-147 | The ids can be read exactly when no swap is null. |
| GameManagement.FirstOccurrences | src/components/admin/GameManagement.tsx:153 | Removing duplicates and keeping first occurrences; stated by the next lemma. |
| GameManagement.FirstOccurrencesSpec | src/components/admin/GameManagement.tsx:153 | The de-duplicated list holds exactly the input's values, each once, in order of first occurrence. |
| GameManagement.Summarise | src/components/admin/GameManagement.tsx:142-155 | No row gives count 0 and no users. The count is the first row's swap count, and users are taken from its swaps only when they are an array. |
| GameManagement.SwapUsersAreSwapIds | src/components/admin/GameManagement.tsx:145-147 | Every summarised id is a truthy promoted or demoted id of some swap. |
| GameManagement.SwapUsersLine | src/components/admin/GameManagement.tsx:529-538 | At most three ids are shown, each cut to 8 characters. The "+n" suffix appears exactly for more than three ids, with n the number not shown. |
| GameManagement.GameManagementScreen.constructor | src/components/admin/GameManagement.tsx:39-58 | No swaps and no test game yet; the test form holds its initial values. |
| GameManagement.GameManagementScreen.RunLateSwaps | src/components/admin/GameManagement.tsx:133-163 | Only this game's summary changes, and only when the response could be read. The running marker is cleared. |
| GameManagement.GameManagementScreen.EditTestConfig | src/components/admin/GameManagement.tsx:165-170 | The test form is updated as updateTestConfig does. |
| GameManagement.GameManagementScreen.CreateTestGame | src/components/admin/GameManagement.tsx:172-254 | The request is sent exactly when the form's checks pass and every count is a number (see Left out). The test game is remembered exactly when the response names a game id; otherwise the previous test game is kept. |
| TestGameCreate.ValidatePayloadAcceptsExactlyValid | supabase/functions/admin-test-game-create/index.ts:65-98 | A payload passes exactly when its times are valid with kickoff first, the maxima and counts are in range, and the batch id is not blank. |
| TestGameCreate.ValidatePayload | supabase/functions/admin-test-game-create/index.ts:65-98 | The server's checks in the handler's order, giving the first failure; stated by the two lemmas below. |
| TestGameCreate.ValidatePayloadReportsFirstFailure | supabase/functions/admin-test-game-create/index.ts:65-98 | No error exactly when every check passes; otherwise the error named is a failing check, and every earlier check passes. |
| TestGameCreate.TestGameRow | supabase/functions/admin-test-game-create/index.ts:150-160 | The game is open for all and not auto-generated. Its date is kickoff's UTC day, kickoff precedes the deadline, and the maxima are the payload's. |
| TestGameCreate.TestEmail | supabase/functions/admin-test-game-create/index.ts:169 | The e-mail of the i-th test user in a batch; stated by `TestGameCreate.TestEmailsDistinct`. |
| TestGameCreate.TestName | supabase/functions/admin-test-game-create/index.ts:188 | The display name of the i-th test user; stated by `TestGameCreate.TestNamesDistinct`. |
| TestGameCreate.TestEmailsDistinct | supabase/functions/admin-test-game-create/index.ts:169 | Distinct test users get distinct e-mail addresses. |
| TestGameCreate.TestNamesDistinct | supabase/functions/admin-test-game-create/index.ts:188 | Distinct test users get distinct names. |
| TestGameCreate.TestProfiles | supabase/functions/admin-test-game-create/index.ts:186-192 | One profile per created user, in order, named `TEST_{batch}_{n}`, without phone, not resident. |
| TestGameCreate.NextGapMs | supabase/functions/admin-test-game-create/index.ts:208-212 | Each gap is a whole number of seconds from 2 to 8. |
| TestGameCreate.TestRegistration | supabase/functions/admin-test-game-create/index.ts:214-240 | The k-th registration: the k-th created user, active for the first `active_count` rows and standby after them, created at the k-th drawn instant; stated by the lemmas below and computed by `TestGameCreate.BuildRegistrations`. |
| TestGameCreate.BuildRegistrations | supabase/functions/admin-test-game-create/index.ts:205-240 | The two loops build exactly one row per test user, row k being the k-th registration described below; distinct user ids give rows of distinct users. |
| TestGameCreate.TestRegistrationShape | supabase/functions/admin-test-game-create/index.ts:214-240 | Row k is user k at queue position k+1. It is active and pending before the active count, and standby and checked in after it. |
| TestGameCreate.CreatedAtSpacing | supabase/functions/admin-test-game-create/index.ts:206-240 | Registration times strictly increase, consecutive ones 2 to 8 whole seconds apart. |
| TestGameCreate.OneRegistrationPerUser | supabase/functions/admin-test-game-create/index.ts:214-240 | Given distinct created user ids, two different rows of the registrations built belong to different users, so no test user is registered twice. |
| RulesEditor.MatchLen | src/components/admin/RulesEditor.tsx:120 | A match at the start of the text is a bold run: `**`, characters other than `*`, `**`. |
| RulesEditor.BoldTokenAtStartIsMatched | src/components/admin/RulesEditor.tsx:120 | A bold run at the start is exactly what the matcher finds there. |
| RulesEditor.Tokens | src/components/admin/RulesEditor.tsx:120 | The split alternates text and matches; every odd piece is a bold run. |
| RulesEditor.TokensConcat | src/components/admin/RulesEditor.tsx:120 | The pieces put back together give the text. |
| RulesEditor.TokensPlainPieces | src/components/admin/RulesEditor.tsx:120 | No text piece contains a bold run: every match is taken, leftmost first. |
| RulesEditor.Inner | src/components/admin/RulesEditor.tsx:123 | `slice(2, -2)` drops two characters at each end, or gives nothing for a piece shorter than four. |
| RulesEditor.Style | src/components/admin/RulesEditor.tsx:121-126 | A piece is bold exactly when it starts and ends with `**`. |
| RulesEditor.ParseInlineStyles | src/components/admin/RulesEditor.tsx:119-127 | One styled piece per piece of the split, in order. |
| RulesEditor.BoldRunRendersInner | src/components/admin/RulesEditor.tsx:119-127 | A matched run renders bold with the text between its markers, which holds no `*`. |
| RulesEditor.LoneMarkersRenderAsEmptyBold | src/components/admin/RulesEditor.tsx:119-127 | A lone `**` is not a match, yet it renders as an empty bold run. |
| RulesEditor.MarkersExclusive | src/components/admin/RulesEditor.tsx:130-159 | The four line markers exclude one another. |
| RulesEditor.Classify | src/components/admin/RulesEditor.tsx:130-159 | A line's block is decided by its marker. A blank line is a line break, any other line a paragraph, and the content is the line's styled text after the marker. |
| RulesEditor.RenderMarkdown | src/components/admin/RulesEditor.tsx:130-159 | One block per line, one more than the number of newlines, each classified by its line. |
| RulesEditor.Loaded | src/components/admin/RulesEditor.tsx:23-47 | Stored rules load as they are. Missing or empty rules load the default text against an empty original. A failed load keeps the empty state. |
| RulesEditor.LoadedChangesIffDefaultShown | src/components/admin/RulesEditor.tsx:35-38 | After a load, the editor shows unsaved changes exactly when the default text was put in. |
| RulesEditor.HasChanges | src/components/admin/RulesEditor.tsx:116 | There are changes exactly when the text differs from the text last loaded or saved. |
| RulesEditor.SaveEnabled | src/components/admin/RulesEditor.tsx:225 | The save button is enabled only when idle and with changes. |
| RulesEditor.SaveWrite | src/components/admin/RulesEditor.tsx:78-104 | The content is written into the existing row, or into a new one with the placeholder QR key. |
| RulesEditor.AfterSave | src/components/admin/RulesEditor.tsx:105-113 | A successful save leaves no unsaved changes; a failed one changes nothing. |
| PushNotifications.ToggleUser | src/components/admin/PushNotifications.tsx:72-76 | Toggling flips whether the user is selected and leaves every other user as they were. A new user is appended at the end. |
| PushNotifications.ToggleTwice | src/components/admin/PushNotifications.tsx:72-76 | Selecting and deselecting a user restores the selection. |
| PushNotifications.ClearUser | src/components/admin/PushNotifications.tsx:78-80 | Clearing removes the user and keeps the others in order. |
| PushNotifications.FilteredUsers | src/components/admin/PushNotifications.tsx:64-70 | A blank query shows everyone. Otherwise exactly the users whose lower-cased name contains the query are shown, in order and each as many times as listed. |
| PushNotifications.Validate | src/components/admin/PushNotifications.tsx:85-98 | A blank title or body is reported first. Then, for a single user, a missing selection; and for a game's players, a missing game id. |
| PushNotifications.PayloadOf | src/components/admin/PushNotifications.tsx:102-119 | The payload built once the checks pass; stated by `PushNotifications.PayloadFields`. |
| PushNotifications.PayloadFields | src/components/admin/PushNotifications.tsx:102-119 | The payload carries the trimmed, non-empty title and body, and exactly the fields its audience needs. |
| PushNotifications.Cleared | src/components/admin/PushNotifications.tsx:136-142 | The cleared form keeps the audience, and its checks would reject it. |
| PushNotifications.Submission | src/components/admin/PushNotifications.tsx:82-119 | Submission fails exactly when a check fails, with that check's error. |
| PushNotifications.PushNotificationsScreen.constructor | src/components/admin/PushNotifications.tsx:29-38 | The form starts empty with the "all" audience. |
| PushNotifications.PushNotificationsScreen.ToggleUserSelection | src/components/admin/PushNotifications.tsx:72-76 | Only the selection changes, toggled for the user. |
| PushNotifications.PushNotificationsScreen.ClearSelectedUser | src/components/admin/PushNotifications.tsx:78-80 | Only the selection changes, without the user. |
| PushNotifications.PushNotificationsScreen.Submit | src/components/admin/PushNotifications.tsx:82-150 | The submission is the form's. The form and search are cleared only after a send that was made and not skipped. |
| UserManagement.MergeRoles | src/components/admin/UserManagement.tsx:45-53 | One entry per profile, in order, with its columns, marked admin exactly when the id has the admin role. |
| UserManagement.SetAdmin | src/components/admin/UserManagement.tsx:96-100 | The matching users get the flag; no one else changes. |
| UserManagement.SetResident | src/components/admin/UserManagement.tsx:125-129 | The matching users get the residency flag; no one else changes. |
| UserManagement.SetAdminTwice | src/components/admin/UserManagement.tsx:69-108 | Switching the admin flag twice, from the value shown, restores the list. |
| UserManagement.SetAdminMatchesRoles | src/components/admin/UserManagement.tsx:45-100 | The locally updated list equals the merge with the role set changed the same way. |
| UserManagement.FilteredUsers | src/components/admin/UserManagement.tsx:139-146 | An empty search shows everyone. Otherwise exactly the users whose lower-cased name or phone contains the lower-cased query are shown, in list order. |
| UserManagement.PhoneSearchFinds | src/components/admin/UserManagement.tsx:144 | A digit search finds every user whose phone contains it. |
| UserManagement.UserManagementScreen.constructor | src/components/admin/UserManagement.tsx:21-24 | The list starts empty, with nothing updating and no search. |
| UserManagement.UserManagementScreen.Fetched | src/components/admin/UserManagement.tsx:27-63 | A load shows the merged list; a failed load keeps the list. |
| UserManagement.UserManagementScreen.ToggleAdminRole | src/components/admin/UserManagement.tsx:69-108 | Deletes the role row of an admin, inserts one otherwise. The list follows only when the write succeeds. |
| UserManagement.UserManagementScreen.ToggleResidentStatus | src/components/admin/UserManagement.tsx:110-137 | Writes the opposite residency. The list follows only when the write succeeds. |
| AppSettings.AlphabetSize | src/components/admin/AppSettings.tsx:85 | The key alphabet has 70 characters. |
| AppSettings.CharIndex | src/components/admin/AppSettings.tsx:88 | `Math.floor(draw * 70)` is an index into the alphabet. |
| AppSettings.KeyOf | src/components/admin/AppSettings.tsx:86-89 | One alphabet character per draw, the one at the drawn index. |
| AppSettings.LoadedCoordinate | src/components/admin/AppSettings.tsx:43-44 | A coordinate shows as its text, and as empty exactly when it is missing. |
| AppSettings.SaveRequest | src/components/admin/AppSettings.tsx:103-141 | A missing coordinate is refused first, then a key shorter than 60. Otherwise the typed values are written, into the loaded row when it has an id, else into a new row. |
| AppSettings.AppSettingsScreen.constructor | src/components/admin/AppSettings.tsx:20-29 | The form starts empty with no settings. |
| AppSettings.AppSettingsScreen.Fetched | src/components/admin/AppSettings.tsx:31-54 | A found row fills the form. No row or a failed load leaves it as it is. |
| AppSettings.AppSettingsScreen.GenerateQrKey | src/components/admin/AppSettings.tsx:84-92 | A 64-character key from the alphabet, which passes the length check. |
| AppSettings.AppSettingsScreen.Save | src/components/admin/AppSettings.tsx:103-150 | The write issued is the save request for the form. |
| AppSettings.AppSettingsScreen.SaveEnabled | src/components/admin/AppSettings.tsx:303 | The save button is enabled only when idle and with a key of at least 60 characters; stated by `AppSettings.EnabledSavePassesKeyCheck`. |
| AppSettings.EnabledSavePassesKeyCheck | src/components/admin/AppSettings.tsx:303 | An enabled save button means the key check passes; the coordinates are still checked on click. |
| AuthWrapper.RedirectDecision | src/components/AuthWrapper.tsx:68-109 | Waits while loading. Sends a signed-out user to login, an incomplete user to the welcome screen, and a complete user away from the welcome screen and from admin pages they may not see. |
| AuthWrapper.RedirectsSettle | src/components/AuthWrapper.tsx:68-109 | Arriving at a redirect's target does not redirect again. |
| AuthWrapper.OrElse | src/components/AuthWrapper.tsx:31 | `a ?? b` falls through only for a missing value. |
| AuthWrapper.EnsureProfileFires | src/components/AuthWrapper.tsx:23 | The ensure-profile effect runs only for a signed-in user without a profile and no check in flight; used by `AuthWrapper.Guard.StartEnsureProfile`. |
| AuthWrapper.PhoneSyncFires | src/components/AuthWrapper.tsx:53-55 | The phone-sync effect runs only when the auth user has a phone and the profile has none. |
| AuthWrapper.EnsureProfileRow | src/components/AuthWrapper.tsx:28-36 | The new profile has the user's id, avatar and phone. Its name is the full name, else the name, from the metadata. |
| AuthWrapper.Guard.constructor | src/components/AuthWrapper.tsx:17-18 | Nothing is pending at first. |
| AuthWrapper.Guard.StartEnsureProfile | src/components/AuthWrapper.tsx:22-51 | The upsert fires exactly for a signed-in user without a profile, with the row above. |
| AuthWrapper.Guard.EnsureProfileDone | src/components/AuthWrapper.tsx:44-46 | The check ends whether or not the upsert succeeded. |
| AuthWrapper.Guard.RunRedirectEffect | src/components/AuthWrapper.tsx:68-109 | Navigates exactly as the redirect decision says, and holds the page back while redirecting. |
| AuthWrapper.RendersChildren | src/components/AuthWrapper.tsx:111-127 | The page renders only when nothing is pending and a profile exists; stated by `AuthWrapper.CompleteUserSeesPage`. |
| AuthWrapper.CompleteUserSeesPage | src/components/AuthWrapper.tsx:111-127 | A complete user on a page they may see gets it once the effect has run. |
| AppRoutes.LandingFor | src/App.tsx:49-64 | Spinner while loading, login without a user. A signed-in user goes to onboarding without a phone and to the dashboard with one. |
| AppRoutes.LandingUpsertRow | src/App.tsx:26-47 | The row upserted on login has the user's id, avatar and name, without a phone. |
| AppRoutes.TrimTrailingSlashes | src/App.tsx:69-106 | The path with its trailing slashes removed: a prefix of the path that does not end in a slash, everything removed being a slash. |
| AppRoutes.RoutePath | src/App.tsx:69-106 | The key the routes are matched on: the lower-cased path without trailing slashes, the root when nothing is left. |
| AppRoutes.RouteFor | src/App.tsx:69-106 | Paths are matched as the router does: case does not matter and trailing slashes are dropped. The root goes to the dashboard. The four app pages are guarded, and only the admin page requires an admin. |
| AppRoutes.AdminPageTurnsAwayNonAdmins | src/App.tsx:99-103 | A complete non-admin opening `/admin` is sent to the dashboard. |
| AppRoutes.AdminSpellingsGuarded | src/App.tsx:99-103 | `/Admin` and `/admin` followed by any number of slashes reach the guarded admin page. |
| BottomNav.ActiveOnItself | src/components/BottomNav.tsx:8-11 | Every tab is active on its own path. |
| BottomNav.IsActive | src/components/BottomNav.tsx:8-11 | The tab test: home on `/` and `/dashboard` only, any other tab on every path starting with its href; stated by the lemmas below. |
| BottomNav.HomeActiveIff | src/components/BottomNav.tsx:9 | The home tab is active exactly on `/` and `/dashboard`. |
| BottomNav.ActiveBelow | src/components/BottomNav.tsx:10 | Deeper paths keep their tab active. |
| BottomNav.PrefixQuirk | src/components/BottomNav.tsx:10 | The test is textual: any path that starts with `/profile`, such as `/profileX`, lights the profile tab, and `/dashboard` does not. |
| BottomNav.Tabs | src/components/BottomNav.tsx:20-58 | Home, profile and rules, then the admin tab exactly for admins. |
| BottomNav.DashboardHighlightsHome | src/components/BottomNav.tsx:8-47 | On the dashboard only the home tab is highlighted. |
| NavLink.ActiveIff | src/components/NavLink.tsx:18 | With `exact` the link is active exactly on its path, without it exactly below it. |
| NavLink.IsActive | src/components/NavLink.tsx:18 | The link test: equality when exact, otherwise a prefix test; stated by `NavLink.ActiveIff`. |
| NavLink.ExactImpliesPrefix | src/components/NavLink.tsx:18 | Exact activity implies prefix activity. |
| NavLink.ClassNames | src/components/NavLink.tsx:24 | Empty names are dropped. An active link gets its own class name, when it has one, followed by the active class. |

## Left out

- Network and SDK calls are not modelled: Supabase queries and RPCs,
  authentication, SMS, OneSignal, Hebcal's HTTP request and the edge
  function's user creation. Their results are parameters, and the stored
  procedures behind `register_for_game` and `cancel_registration_for_game`
  (database.types.ts:192-220) are not part of this model.
- Realtime subscriptions, toasts, loading spinners, `localStorage`,
  clipboard access and the Google and e-mail sign-in buttons are
  presentation or I/O.
- The haversine distance in `src/lib/geolocation.ts` is a function
  parameter; only the inclusive 10-metre test is modelled.
- `getCurrentLocation` in AppSettings.tsx:60-82 is left out. It fills the
  coordinates from the browser with `toFixed(6)`, and floating-point
  formatting is not modelled.
- Only integer numerals are modelled for `Number`, `parseInt` and
  `parseFloat`:
  - fractions, exponents and hexadecimal forms are not;
  - the saved coordinates stay the typed text.
- Lower-casing covers ASCII letters only, and trimming covers the common
  whitespace characters. Unicode case mapping is not modelled.
- Time and calendars:
  - Daylight-saving transitions are not modelled; the local clock is a
    constant offset.
  - `toLocaleTimeString` is a parameter of `GameManagement.FormatTime`.
  - The countdown text of the check-in window and the Hebrew messages are
    left out.
- `maxLength` attributes of inputs and the class-name merging of `cn`
  beyond dropping falsy entries are not modelled.
- Welcome.tsx:78-93 is not modelled: its effect pre-fills the name and
  phone from the profile.
- AppSettings reads the settings again after a successful save
  (AppSettings.tsx:144). That re-read is not modelled; the state after the
  save is the state the write leaves.
- `Array.from(new Set(..))` in GameManagement.tsx:153 removes duplicates by
  identity. The model compares JSON values, which agrees for the string
  ids the procedure returns.
- `src/pages/Login.tsx` is not part of this model; `src/screens/Login.tsx`
  is.
- PushNotifications.Submission: its contract covers only the failure path.
  The payload built on success is stated by `PushNotifications.PayloadFields`.
- GameRegistration.MaxPlayersShown: its contract covers only the missing
  game; with a game it shows the game's own `max_players`.
- Hebcal.DayAfter: its contract covers when the date exists. The day
  itself is related to candle lighting by
  `Hebcal.ShabbatTimesFromLastItems`.
- QrScanner.Round: it is stated for non-NaN numbers, since the distance
  parameter never yields NaN.
- GameManagement.GameManagementScreen.CreateTestGame: a count that is NaN
  passes the form's checks (`GameManagement.NaNMaximumPassesForm`), and the
  source would then send it as JSON `null`; the model sends no request in
  that case. The `type="number"` inputs (GameManagement.tsx:410-440) never
  produce NaN, since an empty field gives 0; in the model NaN comes only
  from numerals it does not parse.
- AppRoutes.RouteFor: the router's percent-decoding of the path is not
  modelled; case-insensitive matching and dropped trailing slashes are.
- ProfileScreen.PhoneVerification.CanVerify: the `autoCompleting` flag
  (Profile.tsx:72, 135), which also disables the buttons while the profile
  is completed automatically, is not modelled.
- The refetch after a successful cancellation (GameRegistration.tsx:293)
  is the caller's `GameRegistration.RegistrationPanel.Refresh`.

## Findings

| source | as written | input that shows it | evidently intended | confidence | as-written member | corrected member |
|---|---|---|---|---|---|---|
| src/components/game/GameRegistration.tsx:180-185 | The label shows "residents only" once wave 1 has opened and wave 2 has not, for every non-resident, even when the game's status is open for all and canRegister (137-164) lets them register. | A game open for all, wave 1 at 100, wave 2 at 200, a non-resident, at time 150: registration is possible but the label says "residents only". | The label offers sign-up whenever canRegister holds, and says "residents only" only when a resident could register but this player cannot. | not executed | GameRegistration.ResidentsOnlyLabelOnOpenButton | GameRegistration.LabelMatchesEligibility |
