# Alerta-J — a verified model of the disguised SOS application

Alerta-J is a personal-safety phone application that looks like an ordinary
calculator, notes pad or clock. Typing a secret PIN in the right way opens the
real application: an SOS button that, after a cancellable ten-second countdown,
sends an alert with the user's position to every emergency contact over SMS,
WhatsApp and Telegram and records the alert in a local history. Onboarding,
settings, a directory of safe stations and an anonymous report wizard complete
it.

This project models, in Dafny, the logic behind those screens:

- the three disguises' unlock recognizers (`Calculator`, `Notes`, `Clock`) and the
  PIN pad used during onboarding (`PinPad`);
- the unlock gate: the application state with its persisting setters
  (`AppContext`), the disguise switcher that locks again after every change
  (`DisguiseSwitcher`) and the top-level screen choice (`MainScreen`);
- the SOS countdown and dispatch (`SOSDashboard`), the message and deep-link
  builders and the sequential `triggerSOS` of the alerts library (`Alerts`), and
  the key-value store with its typed getters and the 50-entry history
  (`Storage`);
- the form and list rules of onboarding (`Onboarding`), settings (`Settings`),
  safe stations (`SafeStations`) and the report wizard (`Report`), with the
  contact rules both forms share (`ContactForm`);
- helpers: `Wrappers` (an `Option` type), `Strings` (substring search,
  JavaScript's `trim` and the digit filter) and `Lists` (removal by id, shared by
  the contact and station lists).

Every React component becomes a class. Its `useState` fields and refs become
the class's fields, and each event handler becomes a method with `modifies`
and a full description of the new state. Timers (the 2 s hold, the 500 ms and
2 s error resets, the 300 ms pad reset and the 1 s countdown interval) become
explicit event methods with an armed flag or a pending counter. The platform
is a parameter:
- what the linking service does with a URL;
- how a number is rendered;
- `encodeURIComponent`;
- the calculator's `parseFloat` and `String`;
- fresh ids and the current time;
- whether a storage read or write throws.

Persistent storage is a `Store` object holding a map from key to stored
value, plus the log of keys written.

Behaviour of the code worth knowing:
- The dashboard records every contact's id in the SOS history, whatever the
  send outcome. Collecting only the contacts whose SMS could be issued is done
  by `triggerSOS` in `lib/alerts.ts`, which the dashboard does not call.
- The position is obtained once, when the dashboard appears, and not when SOS
  is pressed. The message and the position recorded are the ones known at the
  press.
- The calculator's keypad routes `.` to the number handler. So `.` is appended
  to the key sequence, and the `.` branch of the operation handler cannot be
  reached from the keypad.
- `app/index.tsx` passes `onResources` and `onReport` to the dashboard, but the
  dashboard declares neither. So the resources and report screens cannot be
  reached.

## Model

| member | source | states |
|---|---|---|
| Strings.ContainsIffOccurs | components/NotesDisguise.tsx:28 | `includes` holds exactly when the pattern occurs at some position of the text |
| Strings.Contains | components/NotesDisguise.tsx:28 | `includes` finds a pattern the text starts with, and never finds one longer than the text |
| Strings.ContainsExtend | components/NotesDisguise.tsx:28 | text that contains a pattern still contains it with anything typed before or after it |
| Strings.TrimIsSlice | components/OnboardingFlow.tsx:84 | `trim()` keeps a piece of the text with no white space at either end and cuts away only white space |
| Strings.Trim | components/OnboardingFlow.tsx:84 | `trim()` never lengthens the text |
| Strings.TrimEmptyIff | components/OnboardingFlow.tsx:84 | a trimmed text is empty exactly when the text is all white space |
| Strings.TrimIdempotent | components/OnboardingFlow.tsx:89-90 | trimming an already trimmed text changes nothing |
| Strings.DigitsOnly | lib/alerts.ts:43 | the phone filter keeps only digits and never lengthens the number |
| Strings.DigitsOnlyKeepsDigits | lib/alerts.ts:43 | a number made only of digits passes the filter unchanged |
| Strings.DigitsOnlyIdempotent | lib/alerts.ts:43 | filtering twice is filtering once |
| Strings.DigitsOnlyDropsNonDigit | lib/alerts.ts:43 | a character that is not a digit is removed |
| Strings.DigitsOnlyMembers | lib/alerts.ts:43 | a character is in the filtered number exactly when it is a digit of the input |
| Strings.Utf16Length | components/ReportScreen.tsx:148 | `length` counts between one and two units per character, and exactly one per character when none lies outside the Basic Multilingual Plane |
| Strings.Utf16LengthAppend | components/ClockDisguise.tsx:56-57 | the `length` of a concatenation is the sum of the parts' lengths |
| Strings.Utf16LengthIsLengthOnlyIfNoAstral | components/SettingsScreen.tsx:69 | a `length` equal to the character count means no character outside the Basic Multilingual Plane |
| Storage.GetItem | lib/storage.ts:120-127 | `getItem` gives the default when the key is absent, the read throws or the text does not parse, and the stored value otherwise |
| Storage.SetItem | lib/storage.ts:129-135 | a failing `setItem` is swallowed and leaves the store as it was; a successful one stores the value under its key |
| Storage.IsOnboardingComplete | lib/storage.ts:138 | onboarding reads as complete exactly when `true` is stored under its key and the read succeeds |
| Storage.GetProfile | lib/storage.ts:141 | the profile reads as absent when the read fails or nothing is stored, and as the stored profile exactly when one is stored |
| Storage.GetPin | lib/storage.ts:144 | the PIN reads as absent when the read fails or nothing is stored, and as the stored text exactly when one is stored |
| Storage.GetContacts | lib/storage.ts:147 | the contacts read as the empty list when the read fails or nothing is stored, as the stored list when one is stored; a non-empty answer is what is stored |
| Storage.GetActiveDisguise | lib/storage.ts:150 | the disguise reads as the calculator when the read fails or nothing is stored, as the stored disguise when one is stored; any other answer is what is stored |
| Storage.GetSafeStations | lib/storage.ts:153 | the stations read as the built-in directory when the read fails or nothing is stored, as the stored list when one is stored; any other answer is what is stored |
| Storage.GetSOSHistory | lib/storage.ts:156 | the history reads as empty when the read fails or nothing is stored, as the stored history when one is stored; a non-empty answer is what is stored |
| Storage.KeysDistinct | lib/storage.ts:3-11 | the seven storage keys are pairwise different |
| Storage.GetterDefaults | lib/storage.ts:137-156 | with nothing stored each getter gives its default: not onboarded, no profile, no PIN, no contacts, the calculator, the built-in stations, empty history |
| Storage.SetThenGet | lib/storage.ts:120-131 | a successful write followed by a read of the same key returns the value written |
| Storage.TypedSetThenGet | lib/storage.ts:137-156 | each typed setter followed by its getter returns the value set |
| Storage.SetLeavesOtherKeys | lib/storage.ts:3-11 | writing one key leaves what every other key reads unchanged |
| Storage.Prepend | lib/storage.ts:159-160 | `unshift` then `slice(0, 50)`: the new record first, then the older ones in order, at most 50 |
| Storage.PrependAllKeepsNewest | lib/storage.ts:157-161 | after any series of adds the history holds the newest records, newest first, the oldest dropped beyond 50 |
| Storage.FiftyFiveLeaveFifty | lib/storage.ts:160 | 55 adds to an empty history leave exactly the 50 newest |
| Storage.Store.Write | lib/storage.ts:129-135 | the store after `setItem` and the key written |
| Storage.Store.AddSOSRecord | lib/storage.ts:157-161 | `addSOSRecord` writes the read history with the record prepended and capped at 50 |
| Storage.AddedRecordIsNewest | lib/storage.ts:157-161 | after a successful add the history has at most 50 records and the new one first |
| Alerts.MessageHasLinkIffLocated | lib/alerts.ts:4-10 | the message starts with the SOS text; it differs from it exactly when both coordinates are defined, and then it is the SOS text, the location text with the maps link, and `lat,lng` |
| Alerts.Truthy | lib/alerts.ts:82 | an optional handle is truthy exactly when it is present and not empty |
| Alerts.BuildSOSMessage | lib/alerts.ts:4-10 | the message starts with the SOS text and is longer than it exactly when both coordinates are defined |
| Alerts.SmsUrl | lib/alerts.ts:14-15 | `sms:` and the phone, then `&` or `?`, then `body=` and the encoded message |
| Alerts.CallUrl | lib/alerts.ts:29 | a call opens `tel:` followed by exactly the phone number |
| Alerts.WhatsAppUrl | lib/alerts.ts:43-44 | `https://wa.me/`, the number's digits and `?text=`, then the encoded message |
| Alerts.TelegramUrl | lib/alerts.ts:58 | `https://t.me/`, the user name and `?text=`, then the encoded message |
| Alerts.IntentUrl | lib/alerts.ts:14-58 | the URL's scheme and host tell the channel: `sms:`, `tel:`, `wa.me` or `t.me` exactly for SMS, call, WhatsApp or Telegram |
| Alerts.SmsUrlShape | lib/alerts.ts:14-15 | the SMS URL is `sms:` and the phone, then `&` on iOS and `?` elsewhere, then the encoded body; the platforms differ in that character only |
| Alerts.WhatsAppUrlNormalises | lib/alerts.ts:43 | the WhatsApp link carries only the number's digits, so formatted and bare numbers reach the same chat |
| Alerts.Send | lib/alerts.ts:12-68 | every sender answers true exactly when `canOpenURL` resolves true and `openURL` does not reject; a rejected `canOpenURL` gives false |
| Alerts.SentOnlyAfterOpen | lib/alerts.ts:16-19 | a sender reports success only after it has called `openURL`, and a false `canOpenURL` answer means `openURL` is never called |
| Alerts.TriggerSOS | lib/alerts.ts:70-88 | the loop reports the ids of the contacts whose SMS was issued and attempts SMS then WhatsApp per contact, in contact order |
| Alerts.SmsNotifiedExactly | lib/alerts.ts:76-87 | an id is reported exactly when a contact with that id had its SMS issued; never more ids than contacts |
| Alerts.SmsNotifiedIgnoresOtherChannels | lib/alerts.ts:82-84 | WhatsApp outcomes never change the reported ids |
| Alerts.OnChannelMembers | lib/alerts.ts:12-68 | an intent survives the channel filter exactly when it is in the list and goes over that channel |
| Alerts.OnChannelAppend | lib/alerts.ts:12-68 | filtering a concatenation by channel is concatenating the filtered parts |
| Alerts.SequentialIntentsChannels | lib/alerts.ts:78-85 | one contact's attempts are its SMS and, when it has a handle, one WhatsApp message to that handle; no Telegram message or call |
| Alerts.SequentialAttemptsChannels | lib/alerts.ts:78-85 | the SMS go to every contact's phone and the WhatsApp messages to every handle, each channel in contact order; never Telegram or a call; one SMS per contact plus one WhatsApp per handle in total |
| AppContext.AppState.constructor | lib/app-context.tsx:33-40 | loading, not onboarded, locked, no PIN or profile, no contacts, calculator disguise, built-in stations |
| AppContext.AppState.Load | lib/app-context.tsx:42-66 | every stored field is copied in (its default when its read fails), loading ends, and the unlock flag is neither read nor changed |
| AppContext.AppState.SetIsOnboarded | lib/app-context.tsx:78-81 | sets the flag in memory and writes it to its key |
| AppContext.AppState.SetIsUnlocked | lib/app-context.tsx:82 | changes only the in-memory unlock flag and writes nothing |
| AppContext.AppState.SetPin | lib/app-context.tsx:83-86 | the PIN in memory and in the store become the new PIN |
| AppContext.AppState.SetProfile | lib/app-context.tsx:87-90 | the profile in memory and in the store become the new profile |
| AppContext.AppState.SetContacts | lib/app-context.tsx:91-94 | the contacts in memory and in the store become the new list |
| AppContext.AppState.SetActiveDisguise | lib/app-context.tsx:95-98 | the disguise in memory and in the store become the new one |
| AppContext.AppState.SetSafeStations | lib/app-context.tsx:99-102 | the stations in memory and in the store become the new list |
| AppContext.AppState.Lock | lib/app-context.tsx:103 | `lock()` clears the unlock flag and changes nothing else |
| DisguiseSwitcher.ExactlyOneActiveCard | components/DisguiseSwitcher.tsx:82-83 | exactly the card of the active disguise is marked |
| DisguiseSwitcher.HandleSelect | components/DisguiseSwitcher.tsx:58-65 | the chosen disguise is saved, then the application locks, even when the same disguise is chosen again |
| MainScreen.DisguisePin | app/index.tsx:47-50 | the disguise gets the stored PIN when it is set and non-empty, and `0000` otherwise |
| MainScreen.CoverView | app/index.tsx:46-75 | notes shows the notes cover, clock the clock cover and calculator the calculator cover, each exactly for that disguise; never a protected view; the cover receives the PIN it is given |
| MainScreen.Render | app/index.tsx:28-127 | loading first; onboarding whenever not onboarded; the chosen disguise when locked; the dashboard and the other screens only when onboarded and unlocked |
| MainScreen.NextScreen | app/index.tsx:23-127 | no single event leads to the resources or report screen; unlock and back lead to the main screen |
| MainScreen.ResourcesAndReportUnreachable | app/index.tsx:113-127 | no sequence of navigation events reaches the resources or report screen |
| MainScreen.Root.HandleUnlock | app/index.tsx:23-26 | unlocks and returns to the main screen |
| MainScreen.Root.Navigate | components/SOSDashboard.tsx:30-34 | the dashboard opens settings, safe stations or the disguise switcher |
| MainScreen.Root.Back | app/index.tsx:82-112 | every secondary screen's back action returns to the main screen |
| MainScreen.UnlockShowsDashboard | app/index.tsx:23-26 | after an unlock an onboarded user sees the dashboard, whatever screen was open |
| Calculator.Apply | components/CalculatorDisguise.tsx:53-60 | division by zero gives 0; an unknown operator gives 0 |
| Calculator.FormatDisplay | components/CalculatorDisguise.tsx:102-105 | the display itself when at most 9 characters, otherwise exactly its first 9 characters |
| Calculator.DecimalPointIsNumberKey | components/CalculatorDisguise.tsx:134 | the keypad's `.` key is a number key |
| Calculator.CalculatorDisguise.constructor | components/CalculatorDisguise.tsx:12-16 | display `0`, nothing pending, empty key sequence |
| Calculator.CalculatorDisguise.HandleNumber | components/CalculatorDisguise.tsx:24-38 | the key is appended to the sequence; the display is replaced when waiting or `0`, otherwise extended; waiting ends |
| Calculator.CalculatorDisguise.HandleOperation | components/CalculatorDisguise.tsx:40-100 | `=` unlocks exactly when the sequence plus `=` contains the PIN plus `=`, changing nothing else; otherwise `=` computes the pending operation, AC resets everything, ± and % change only the display, a binary operator becomes pending |
| Calculator.CalculatorDisguise.Press | components/CalculatorDisguise.tsx:107-166 | a number key (or `.`) is appended to the sequence and shown as the number handler does; `=` unlocks exactly when the sequence plus `=` contains the PIN plus `=`, changing nothing then; otherwise `=` computes, AC resets, ± and % change only the display and a binary operator becomes pending |
| Calculator.PinThenEqualsUnlocks | components/CalculatorDisguise.tsx:45-50 | typing the PIN and `=` unlocks |
| Calculator.PinAfterOtherKeysUnlocks | components/CalculatorDisguise.tsx:45-50 | the PIN is found anywhere in the sequence, after other calculations |
| Calculator.ShortPinDoesNotUnlock | components/CalculatorDisguise.tsx:45-65 | a prefix of the PIN followed by `=` does not unlock and is stored as a calculation |
| Calculator.SevenPlusThree | components/CalculatorDisguise.tsx:53-61 | `7 + 3 =` displays 10 |
| Calculator.DivideByZero | components/CalculatorDisguise.tsx:59 | `8 ÷ 0 =` displays 0 |
| Notes.NotesDisguise.HandleContentChange | components/NotesDisguise.tsx:25-44 | the body always becomes the new text; the unlock fires exactly when that text contains the PIN followed by `#AJ` |
| Notes.NotesDisguise.HandleTitleChange | components/NotesDisguise.tsx:63-64 | a title edit changes only the title and never unlocks |
| Notes.CheckUnlock | components/NotesDisguise.tsx:25-36 | the check succeeds exactly when the PIN followed by `#AJ` occurs at some position of the text |
| Notes.TriggerAnywhereUnlocks | components/NotesDisguise.tsx:27-28 | the PIN followed by `#AJ` unlocks wherever it is typed |
| Notes.UnlockRepeatsOnLaterEdits | components/NotesDisguise.tsx:38-43 | once the body unlocks, every later edit that keeps the trigger unlocks again |
| Notes.OrderMatters | components/NotesDisguise.tsx:27-28 | with PIN 1234, `1234#AJ` unlocks and `#AJ1234` does not |
| Clock.ClockDisguise.PressIn | components/ClockDisguise.tsx:32-41 | pressing the time arms the 2 s timer and changes nothing else |
| Clock.ClockDisguise.PressOut | components/ClockDisguise.tsx:43-48 | releasing clears the handle, so a pending timer never fires |
| Clock.ClockDisguise.HoldTimerFires | components/ClockDisguise.tsx:33-40 | an armed timer shows the PIN pad with an empty buffer and no error |
| Clock.ClockDisguise.HandlePinDigit | components/ClockDisguise.tsx:50-70 | the digit is appended; at the PIN's length in UTF-16 units an equal buffer unlocks and a different one shows the error and schedules the reset; buffers of any other length are not compared |
| Clock.ClockDisguise.ErrorResetFires | components/ClockDisguise.tsx:62-65 | the reset empties the buffer and clears the error; the pad stays open |
| Clock.ClockDisguise.Cancel | components/ClockDisguise.tsx:110-113 | the cancel key hides the pad and empties the buffer without comparing |
| Clock.ShortHoldNeverReveals | components/ClockDisguise.tsx:43-48 | releasing before the timer fires never shows the pad |
| Clock.WrongThenRightPin | components/ClockDisguise.tsx:55-66 | a wrong PIN shows the error, the reset clears it with the pad open, the right PIN then unlocks |
| PinPad.Dots | components/PinPad.tsx:52-61 | `pinLength` dots, the first ones filled up to the buffer length |
| PinPad.PinPad.Drawn | components/PinPad.tsx:52-61 | `pinLength` dots, dot `i` filled exactly when `i` is below the buffer's length in UTF-16 units |
| PinPad.FilledDotsCount | components/PinPad.tsx:52-61 | the number of filled dots is the buffer length capped at the PIN length |
| PinPad.PinPad.HandlePress | components/PinPad.tsx:30-43 | the digit is appended; `onComplete` receives the buffer exactly when its length in UTF-16 units reaches the PIN length, and a reset is then scheduled |
| PinPad.PinPad.HandleDelete | components/PinPad.tsx:45-50 | the last character is removed; an empty buffer stays empty |
| PinPad.PinPad.ResetFires | components/PinPad.tsx:39 | the scheduled reset empties the buffer |
| PinPad.FourDigitsComplete | components/PinPad.tsx:24-38 | on a default pad four one-unit keys complete it with exactly those keys |
| SOSDashboard.DashboardMessageIsSOSMessage | components/SOSDashboard.tsx:152-154 | the dashboard's message is the library's SOS message for the same position, with the link exactly when a position is known |
| SOSDashboard.DashboardMessage | components/SOSDashboard.tsx:152-154 | the message starts with the SOS text and is the bare SOS text exactly when no position is known |
| SOSDashboard.FanOut | components/SOSDashboard.tsx:161-165 | a contact gets its SMS first, then one to two messages on other channels carrying the same text, one per set handle; never a second SMS or a call |
| SOSDashboard.Dispatch | components/SOSDashboard.tsx:161-165 | in total at least one and at most three intents for each contact |
| SOSDashboard.FanOutHandles | components/SOSDashboard.tsx:163-164 | a contact gets a WhatsApp message exactly when it has a handle, and only to that handle; likewise Telegram and its username |
| SOSDashboard.FanOutChannels | components/SOSDashboard.tsx:161-165 | a contact's fan-out holds exactly one SMS, to its phone; WhatsApp to its handle and Telegram to its username, each only when set; no call |
| SOSDashboard.FanOutOn | components/SOSDashboard.tsx:161-165 | a contact's fan-out on any one channel is that channel's part of SMS, WhatsApp, Telegram |
| SOSDashboard.DispatchSmsToEveryContact | components/SOSDashboard.tsx:161-165 | every contact receives exactly one SMS, in list order |
| SOSDashboard.DispatchChannels | components/SOSDashboard.tsx:161-165 | one WhatsApp message per handle and one Telegram message per username besides the SMS, in total; never a call |
| SOSDashboard.DispatchToHandles | components/SOSDashboard.tsx:161-165 | the WhatsApp messages go to every contact's handle and the Telegram messages to every username, each in contact order; no call |
| SOSDashboard.DispatchOnChannel | components/SOSDashboard.tsx:161-165 | on each channel other than SMS the dispatch is that channel's per-contact intents |
| SOSDashboard.DispatchWithoutTelegramIsSequential | components/SOSDashboard.tsx:161-165 | without Telegram usernames the dashboard sends what the library's `triggerSOS` attempts |
| SOSDashboard.DispatchRecord | components/SOSDashboard.tsx:167-174 | the record carries the given id and time, lists every contact id in order, is not cancelled, and has the position's latitude and longitude exactly when a position is known |
| SOSDashboard.Dashboard.LocationResolved | components/SOSDashboard.tsx:107-119 | a fix obtained with permission is kept; a refusal or failure leaves the position as it was |
| SOSDashboard.Dashboard.HandleSOSPress | components/SOSDashboard.tsx:145-199 | a press while counting down does nothing; otherwise the overlay shows at 10 with the message, contacts and position captured |
| SOSDashboard.SendToAll | components/SOSDashboard.tsx:161-165 | the loop issues, contact by contact, the SMS, then WhatsApp when a handle is set, then Telegram when a username is set |
| SOSDashboard.Dashboard.Tick | components/SOSDashboard.tsx:156-184 | above 1 the countdown only decreases; at 1 the interval stops, every contact is sent the message on each channel, one record is added, the overlay closes at 0 |
| SOSDashboard.Dashboard.Fire | components/SOSDashboard.tsx:158-177 | the last tick clears the interval, appends every contact's fan-out to what was sent, prepends one record to the history and closes the overlay at 0 |
| SOSDashboard.Dashboard.Cancel | components/SOSDashboard.tsx:187-194 | cancelling stops the interval, closes the overlay and resets to 10; nothing is sent |
| SOSDashboard.DispatchOnTenthTick | components/SOSDashboard.tsx:156-184 | nine ticks send nothing; the tenth sends to every contact and writes the history once |
| SOSDashboard.CancelSendsNothing | components/SOSDashboard.tsx:187-199 | a countdown cancelled at any time up to and including 1 sends nothing and writes nothing; the next press starts again at 10 |
| ContactForm.Optional | components/OnboardingFlow.tsx:92 | `trim() \|\| undefined`: nothing exactly when blank, otherwise the trimmed text |
| ContactForm.CanAdd | components/OnboardingFlow.tsx:84-85 | adding is allowed exactly when neither name nor phone is all white space and fewer than ten contacts exist |
| ContactForm.NewContact | components/OnboardingFlow.tsx:87-93 | the new contact has trimmed name and phone, the chosen police flag, the WhatsApp handle only when not blank, no Telegram |
| ContactForm.AddContact | components/OnboardingFlow.tsx:83-95 | the contact is appended when the trimmed name and phone are non-empty and fewer than ten exist; otherwise the list is unchanged |
| ContactForm.AddKeepsBounds | components/OnboardingFlow.tsx:84-85 | the list never exceeds ten, and grows exactly when name and phone are not blank and there is room |
| Lists.WithoutIdMembership | components/OnboardingFlow.tsx:103-109 | removal by id keeps exactly the records with another id (the onboarding and settings contact lists and the station list alike) |
| Lists.WithoutId | components/OnboardingFlow.tsx:105 | no record with the removed id survives and the list never grows |
| Lists.WithoutIdKeepsOrder | components/OnboardingFlow.tsx:105 | removal works piece by piece, so the survivors keep their order |
| Lists.WithoutAbsentId | components/OnboardingFlow.tsx:105 | removing an unknown id changes nothing |
| ContactForm.IsEmergencyNumber | components/OnboardingFlow.tsx:114-123 | an emergency number is a bare three-digit number, so a formatted one is not recognised |
| ContactForm.CanProceedContacts | components/OnboardingFlow.tsx:111-125 | onboarding may continue exactly when some contact is a police contact or has an emergency number |
| ContactForm.AddingQualifyingContactProceeds | components/OnboardingFlow.tsx:111-125 | adding a police contact or one with an emergency number lets onboarding continue |
| ContactForm.NoQualifyingContactBlocks | components/OnboardingFlow.tsx:111-125 | without a police or emergency-number contact onboarding cannot continue |
| ContactForm.RemovalCanCloseGate | components/SettingsScreen.tsx:60-66 | removal does not protect the last police contact |
| Onboarding.StepIndex | components/OnboardingFlow.tsx:418-419 | the position of a step in the fixed list, -1 for `done` |
| Onboarding.BackGoesToPrevious | components/OnboardingFlow.tsx:415-421 | back goes to the previous step, does nothing at `welcome` and ignores `done` |
| Onboarding.PreviousStep | components/OnboardingFlow.tsx:416-419 | back moves one place down the step list and stays put at `welcome` and `done` |
| Onboarding.FinishWrites | components/OnboardingFlow.tsx:127-135 | each write that succeeds stores its value under its key; a failed write and every other key keep what was stored |
| Onboarding.FinishPersists | components/OnboardingFlow.tsx:127-135 | after a finish without failed writes the next start reads back onboarding complete and the chosen PIN, profile, contacts and disguise |
| Onboarding.OnboardingFlow.Begin | components/OnboardingFlow.tsx:153 | the welcome button moves to the age step and changes nothing else |
| Onboarding.OnboardingFlow.ContinueFromAge | components/OnboardingFlow.tsx:181-182 | continues only with an age range chosen and changes nothing else |
| Onboarding.OnboardingFlow.ContinueFromLocation | components/OnboardingFlow.tsx:226-227 | continues only with a province chosen and changes nothing else |
| Onboarding.OnboardingFlow.HandlePinSet | components/OnboardingFlow.tsx:66-69 | keeps the PIN and asks for confirmation; nothing else changes |
| Onboarding.OnboardingFlow.HandlePinConfirm | components/OnboardingFlow.tsx:71-81 | the same PIN moves on to contacts; another one shows the mismatch message and schedules its reset; nothing else changes |
| Onboarding.OnboardingFlow.PinErrorClearFires | components/OnboardingFlow.tsx:77 | the mismatch message clears after its timer; nothing else changes |
| Onboarding.OnboardingFlow.AddContact | components/OnboardingFlow.tsx:83-101 | the list becomes the shared add rule's result; a successful add resets the form, a refused one changes nothing |
| Onboarding.OnboardingFlow.RemoveContact | components/OnboardingFlow.tsx:103-109 | the list loses the contacts with that id; nothing else changes |
| Onboarding.OnboardingFlow.ContinueFromContacts | components/OnboardingFlow.tsx:345-346 | continues to the disguise step only when the contact gate holds; nothing else changes |
| Onboarding.OnboardingFlow.Back | components/OnboardingFlow.tsx:415-421 | drawn only on the steps other than welcome and the two PIN steps; the step becomes the previous one in the list and nothing else changes |
| Onboarding.OnboardingFlow.Finish | components/OnboardingFlow.tsx:127-135 | saves PIN, profile, contacts and disguise in that order, then marks onboarding complete and unlocks |
| Onboarding.WizardReachesContacts | components/OnboardingFlow.tsx:66-81 | age, province, city and the same PIN twice reach the contact step with those answers kept and the rest as at the start |
| Onboarding.WizardReachesDisguise | components/OnboardingFlow.tsx:66-125 | after the same PIN twice, any non-blank police contact reaches the disguise step with the PIN, that one contact and the chosen age, province and city kept |
| Settings.SettingsScreen.AddContact | components/SettingsScreen.tsx:41-58 | with non-blank name and phone and room, saves the list with the trimmed contact appended and clears and hides the form; otherwise nothing changes |
| Settings.SettingsScreen.RemoveContact | components/SettingsScreen.tsx:60-66 | saves the list without the contacts of that id, with no police check |
| Settings.SettingsScreen.HandleChangePin | components/SettingsScreen.tsx:68-83 | nothing unless four UTF-16 units long; a mismatch alerts and keeps the PIN; a match saves it and clears and hides the form; the contact form is never touched |
| SafeStations.UnknownTypeFallsBack | components/SafeStationsScreen.tsx:39-67 | every type other than the four named ones gets `location`, the secondary colour and `Outro`; the named ones are told apart |
| SafeStations.GetIcon | components/SafeStationsScreen.tsx:39-47 | the generic `location` icon exactly for types other than the four named ones |
| SafeStations.GetColor | components/SafeStationsScreen.tsx:49-57 | the secondary colour exactly for types other than the four named ones |
| SafeStations.GetLabel | components/SafeStationsScreen.tsx:59-67 | the label `Outro` exactly for types other than the four named ones |
| SafeStations.Filtered | components/SafeStationsScreen.tsx:97 | without a filter every station is shown unchanged; a filtered list is never longer than the list |
| SafeStations.FilteredKeepsOrder | components/SafeStationsScreen.tsx:97 | filtering keeps the stations' order: the filter of a concatenation is the concatenation of the filters |
| SafeStations.FilteredMembership | components/SafeStationsScreen.tsx:97 | a filter keeps exactly the stations of its type |
| SafeStations.NewStation | components/SafeStationsScreen.tsx:71-80 | a new station has the given id, the trimmed name and address, no phone when the trimmed phone is blank and the trimmed phone otherwise, sits at 0,0, is custom and has the chosen type |
| SafeStations.OnlyAddedStationsDeletable | components/SafeStationsScreen.tsx:226 | none of the built-in stations offers delete; every added one does |
| SafeStations.DeleteOffered | components/SafeStationsScreen.tsx:226 | no built-in station offers delete |
| SafeStations.SafeStationsScreen.AddStation | components/SafeStationsScreen.tsx:69-87 | with non-blank name and address, saves the list with the new station appended and clears name, address and phone, keeping the type; otherwise nothing changes |
| SafeStations.SafeStationsScreen.RemoveStation | components/SafeStationsScreen.tsx:89-95 | saves the list without the station of that id |
| SafeStations.SafeStationsScreen.ShowAll | components/SafeStationsScreen.tsx:118-119 | the `Todos` chip clears the filter |
| SafeStations.SafeStationsScreen.ToggleFilter | components/SafeStationsScreen.tsx:127 | tapping the active chip clears the filter; another chip sets it |
| SafeStations.ToggleTwiceShowsAll | components/SafeStationsScreen.tsx:97-127 | tapping a chip twice shows the whole list again |
| Report.OrNull | components/ReportScreen.tsx:54-56 | an empty optional field is sent as null, any other as itself |
| Report.StepIndex | components/ReportScreen.tsx:312 | the position of a step in the progress bar: its place in the four-step list, -1 exactly for the success page |
| Report.ProgressGrows | components/ReportScreen.tsx:312-339 | each step fills a quarter more of the progress bar |
| Report.Progress | components/ReportScreen.tsx:335-339 | the bar is between empty and full, full exactly at confirmation, and empty exactly on the success page, where it is not drawn |
| Report.ReportScreen.Body | components/ReportScreen.tsx:51-57 | the request body carries type and description, and null for each empty optional field |
| Report.ReportScreen.ContinueFromType | components/ReportScreen.tsx:100-103 | continues only with a type selected |
| Report.ReportScreen.ContinueFromDetails | components/ReportScreen.tsx:147-149 | continues exactly when the trimmed description is at least ten UTF-16 units long |
| Report.ReportScreen.ContinueFromLocation | components/ReportScreen.tsx:211-222 | skip and continue both lead to confirmation |
| Report.ReportScreen.SelectProvince | components/ReportScreen.tsx:182 | choosing a province clears the municipality |
| Report.ReportScreen.SelectMunicipality | components/ReportScreen.tsx:199 | a municipality chip sets the municipality and changes nothing else |
| Report.ReportScreen.Back | components/ReportScreen.tsx:317-326 | back leaves the screen from the type step or the success page, and goes to the previous step otherwise |
| Report.ReportScreen.Submit | components/ReportScreen.tsx:44-74 | an ok answer shows success; a non-ok one alerts and stays; an exception alerts and shows success; submitting ends in every case |
| Report.MinimalReport | components/ReportScreen.tsx:44-74 | a report with only a type and description sends null for the optional fields |
| Report.ProvinceClearsMunicipality | components/ReportScreen.tsx:182 | going through the wizard, a province chosen after a municipality leaves no stale municipality in the request, which carries the type and description given |

## Left out

- Rendering, styles, the pulse animation, the status bar and haptic feedback are not modelled.
- Wall-clock display in the clock disguise (`toLocaleDateString`, `padStart`) is not modelled.
- The contact card and station card quick actions on the dashboard (direct call or SMS) are not modelled. They only call the senders whose URLs `Alerts` models.
- Floating-point arithmetic is modelled with reals, plus an explicit NaN value. `parseFloat` and `String(number)` are parameters. Rounding and overflow are not modelled.
- `encodeURIComponent`, JSON encoding and the rendering of a number in a template string are parameters. The store keeps typed values. Text that does not parse is modelled as its own kind of cell.
- The linking service, location service, random ids, the current time and the reporting service's network request are parameters. No input or output is performed.
- Timers and asynchronous completion are modelled as event methods called one at a time. Interleavings of pending promises (for instance a fast second key press before a state update lands) are not modelled.
- The reporting service's request URL and headers are not modelled. The province, municipality, report-type and age lists are opaque inputs, because `lib/storage.ts` as given does not define `PROVINCES_ANGOLA` or `REPORT_TYPES`.
- server/routes.ts, server/storage.ts, shared/schema.ts and components/ResourcesScreen.tsx are not part of this model.
- The onboarding PIN pad steps reuse one pad component. Whether React keeps its buffer between the two steps is not modelled.
- Clock.ClockDisguise.PressIn: requires that no hold timer is armed. The pressable's press-in and press-out always come in pairs, so a second press-in never finds an armed timer; if one did, the code would overwrite the timer handle and leave the older timer running.
- Alerts.Send: `encodeURIComponent` is a parameter that always returns, so the model has no sender that fails because encoding throws (for instance on a lone surrogate); in the code that throw is caught and the sender answers false.
- PinPad.PinPad.HandleDelete: drops the last character, while `slice(0, -1)` drops the last UTF-16 unit; the two differ only after a key outside the Basic Multilingual Plane, which the pad's digit keys never produce.
- Storage.SetItem: states the written key only; what other keys read is stated separately by Storage.SetLeavesOtherKeys.
