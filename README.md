# Lafiyar Uwa — a Dafny model of the maternal-health USSD core

Lafiyar Uwa ("mother's health") is a USSD service. A pregnant woman dials a short code and moves through text menus. There she registers, reads danger signs and vaccination schedules, asks for a callback and updates her profile. Behind the menus sit:

- a rule-based maternal risk score;
- date arithmetic for the pregnancy week;
- normalisation of Nigerian phone numbers;
- the table of Kano Local Government Areas (LGAs);
- the back-off handed to the Redis client.

This project models those parts and proves what they promise.

| file | module | what it models |
|---|---|---|
| `wrappers.dfy` | `Wrappers` | `Option` and `Result` |
| `js_semantics.dfy` | `JsSemantics` | the JavaScript built-ins the code leans on: `parseInt`, `Number(string)`, `String.prototype.split`, template rendering of integers, and `new Date(y, m, d)` with ECMA-262 MakeDay rollover (ECMA-262 section 21.4.1) |
| `date_helpers.dfy` | `DateHelpers` | `calculatePregnancyWeek`, `calculateEDD`, `isDeliveryImminent`, with the clock as a parameter `now` |
| `phone_formatter.dfy` | `PhoneFormatter` | `formatPhoneNumber` (a thrown error becomes `Failure`) and `isValidNigerianPhone` |
| `ussd_types.dfy` | `UssdTypes` | `KANO_LGAS` |
| `redis_config.dfy` | `RedisConfig` | the `retryStrategy` clamp |
| `risk_rules.dfy` | `RiskRules` | the nine rules of the risk score: order, weights, descriptions |
| `risk_scoring.dfy` | `RiskScoring` | `calculateRiskScore` as an imperative method proved against a specification function `Assess`, plus the `ageRisk` flag of `createAssessment` |
| `ussd_engine.dfy` | `UssdEngine` | the menu registry (`UssdMenu` with `startState`/`state`), `next` tables over four pattern kinds, replies, and the user lookups |
| `registration_menu.dfy` | `RegistrationMenu` | the six `registration.*` states and `registrationStates(menu)` |
| `main_menu.dfy` | `MainMenu` | the start state, `menu.option1`–`menu.option6`, the `update.*` states and `mainMenu()` |
| `ussd_turn.dfy` | `UssdTurn` | one turn of a session: which state runs, and what it answers |

How the menus are modelled:

- **State handlers.** Each handler is a function from this turn's input and a `Context` to an `Output`. The output holds:
  - the reply, `Con` (continue) or `End` (terminate), around a `Screen` that names the text shown;
  - the value read this turn;
  - the events logged;
  - the profile update requested.
- **Users.** The database is a map from normalised phone number to user record. A number that `formatPhoneNumber` rejects makes the lookup throw, which shows as `Failure`.
- **The `ussd-builder` library.** Only its declarations are visible, so the model fixes one dispatch convention:
  - A turn runs the target of the first entry in the current state's `next` table, in declaration order, whose key matches the input.
  - With no match, the current state runs again.
  - A target nothing is registered under is the explicit outcome `UnknownState`.
  - The start state is registered under the key `"__start__"`. The library's declaration of `startState` does not name the key, so this is the model's own convention.
- **Whole input or part of it.** Whether a regular-expression key must match the whole input (`Anchored`) or any part of it (`Unanchored`) is left as a parameter. `UssdTurn.AgeStateRoutesDate` shows the choice matters: when a key may match part of the input, a delivery date typed at the age step is taken back to the age step by the digits key listed first, so no delivery date can ever be entered. That holds for every input, not only DD-MM-YYYY ones (`RegistrationMenu.NoInputReachesEddUnanchored`).

Three consequences of the code as written are proved rather than assumed:

- Option 6's "back to menu" key leads to `"start"`, and no state is registered under that name (`UssdTurn.BackToMenuReachesMissingState`). This rests on the model's own `"__start__"` key for the start state, described above.
- The last registration question leads to `registration.complete`, whose definition is commented out, so no registration ever completes (`UssdTurn.DiabetesAnswerReachesMissingState`).
- A delivery date of 31 February is not rejected. It rolls over into March (`RegistrationMenu.FebruaryThirtyFirstRollsOver`).

Where the code and its description differ, the model follows the code:

- An LGA number with no entry is recorded as "Unknown".
- The name step accepts any input, the empty one included.
- No state asks about multiple pregnancy (the last question's text asks it, but no state handles the answer).

## Model

| member | source | states |
|---|---|---|
| DateHelpers.CalculatePregnancyWeek | src/core/utils/dateHelpers.ts:7-19 | the week reported is always between 1 and 40 |
| DateHelpers.WeekBand | src/core/utils/dateHelpers.ts:9-18 | week w (2 to 39) is reported exactly when the whole days left lie in (273 − 7w, 280 − 7w] |
| DateHelpers.WeekBounds | src/core/utils/dateHelpers.ts:14-18 | week 1 exactly when at least 267 days remain; week 40 exactly when the date is today or past |
| DateHelpers.WeekNonIncreasingInEdd | src/core/utils/dateHelpers.ts:9-18 | a later delivery date never gives a later week |
| DateHelpers.CalculateEDD | src/core/utils/dateHelpers.ts:24-28 | the result is exactly 280 days later, and NaN exactly when that leaves the representable range |
| DateHelpers.WeekSinceLmp | src/core/utils/dateHelpers.ts:7-28 | with the EDD taken from the last period, the week d days later is clamp((d, plus one once time has passed that day) / 7, 1, 40) |
| DateHelpers.IsDeliveryImminent | src/core/utils/dateHelpers.ts:33-39 | imminent exactly when the EDD lies from now to under 15 days ahead |
| DateHelpers.ImminentDelivery | src/core/utils/dateHelpers.ts:33-39 | whenever delivery counts as imminent, the week reported is at least 38 |
| RedisConfig.RetryStrategy | src/core/config/redis.config.ts:10-13 | the delay never exceeds 2000; it is 50·times up to 40 attempts and 2000 from 40 on |
| RedisConfig.RetryStrategyMonotone | src/core/config/redis.config.ts:11 | more attempts never give a shorter delay |
| PhoneFormatter.DigitsOnly | src/core/utils/phoneFormatter.ts:13 | the cleaned string holds only digits and is no longer than the input |
| PhoneFormatter.DigitsOnlyAppend | src/core/utils/phoneFormatter.ts:13 | cleaning distributes over concatenation |
| PhoneFormatter.DigitsOnlyOfDigits | src/core/utils/phoneFormatter.ts:13 | a digit string is left as it is |
| PhoneFormatter.WithCountryCode | src/core/utils/phoneFormatter.ts:16-23 | the prefixed string always starts with 234, and is all digits when its input is |
| PhoneFormatter.FormatPhoneNumber | src/core/utils/phoneFormatter.ts:11-31 | success is "+" and 13 digits starting with 234; failure carries the original input |
| PhoneFormatter.WithCountryCodeCharacterised | src/core/utils/phoneFormatter.ts:16-23 | the prefixed digits are 13 long exactly when the cleaned digits are 0 and ten digits, 234 and ten digits, or ten digits starting with neither; the result is then 234 and the ten-digit national number |
| PhoneFormatter.FormatCharacterised | src/core/utils/phoneFormatter.ts:11-31 | formatting succeeds exactly on normalisable digit strings and gives "+234" and the national number; it fails otherwise |
| PhoneFormatter.FormatIdempotent | src/core/utils/phoneFormatter.ts:11-31 | formatting a formatted number gives it back unchanged |
| PhoneFormatter.NonDigitIgnored | src/core/utils/phoneFormatter.ts:13 | inserting a non-digit changes neither success nor result |
| PhoneFormatter.DocumentedExampleLeadingZero | src/core/utils/phoneFormatter.ts:4 | "08012345678" gives "+2348012345678" |
| PhoneFormatter.DocumentedExampleCountryCode | src/core/utils/phoneFormatter.ts:5 | "2348012345678" gives "+2348012345678" |
| PhoneFormatter.DocumentedExamplePlus | src/core/utils/phoneFormatter.ts:6 | "+2348012345678" gives "+2348012345678" |
| PhoneFormatter.TenDigitsStartingWith234Rejected | src/core/utils/phoneFormatter.ts:20-28 | ten digits starting with 234 are not prefixed and are rejected |
| PhoneFormatter.IsValidNigerianPhone | src/core/utils/phoneFormatter.ts:36-43 | a number judged valid formats successfully, to "+234" followed by a mobile national number |
| PhoneFormatter.IsValidCharacterised | src/core/utils/phoneFormatter.ts:36-43 | valid exactly when the digits are a mobile national number ([7-9][0-1] and eight digits), bare or after 0 or 234; never throws |
| UssdTypes.KanoLgas | src/modules/ussd/types/ussd.types.ts:18-28 | nine entries; entry i has id i + 1 in decimal; the last is "9"/"Other"; names are non-empty and pairwise distinct |
| JsSemantics.NatToDecimal | src/modules/ussd/menus/main.menu.ts:199 | the rendering is non-empty digits without a leading zero, and reads back as the number |
| JsSemantics.IntToDecimal | src/modules/ussd/menus/main.menu.ts:199 | the rendering starts with "-" exactly for a negative number, and the rest is digits reading back as its magnitude |
| JsSemantics.ParseInt | src/modules/ussd/menus/registration.menu.ts:87 | a number is read only when, after leading blanks, a digit comes first or a sign and then a digit; a negative result needs the "-" sign |
| JsSemantics.ParseIntReadsDigitPrefix | src/modules/ussd/menus/registration.menu.ts:87 | parseInt reads a leading run of digits and ignores what follows it, unless that run is "0" and an "x" follows |
| JsSemantics.ParseIntOfDigits | src/modules/ussd/menus/registration.menu.ts:64 | a string of digits parses to its value |
| JsSemantics.ParseIntWithoutDigits | src/modules/ussd/menus/main.menu.ts:318-320 | a string without a digit is NaN |
| JsSemantics.ParseIntRoundTrip | src/modules/ussd/menus/main.menu.ts:318 | parseInt inverts the decimal rendering of every integer |
| JsSemantics.StringToNumber | src/modules/ussd/menus/registration.menu.ts:120 | the empty string is 0 and a string of digits converts to its value |
| JsSemantics.NegativeNumber | src/modules/ussd/menus/registration.menu.ts:120 | a minus sign before digits negates their value |
| JsSemantics.StrayCharIsNaN | src/modules/ussd/menus/registration.menu.ts:120 | a character that is not a digit, white space or a sign makes the string NaN, wherever it stands |
| JsSemantics.Split | src/modules/ussd/menus/registration.menu.ts:120 | there is always at least one part, and no part contains the separator |
| JsSemantics.SplitJoin | src/modules/ussd/menus/registration.menu.ts:120 | joining the parts of a split gives back the input |
| JsSemantics.SplitNoSeparator | src/modules/ussd/menus/registration.menu.ts:120 | a string without the separator is one part |
| JsSemantics.SplitAtSeparator | src/modules/ussd/menus/registration.menu.ts:120 | the text before the first separator is the first part |
| JsSemantics.LocalDate | src/modules/ussd/menus/registration.menu.ts:122 | the date is within the representable range, and NaN whenever an argument is |
| JsSemantics.MakeDayWithinYear | src/modules/ussd/menus/registration.menu.ts:122 | a day that exists in its month falls within its own year |
| JsSemantics.LocalDateNewYear | src/modules/ussd/menus/registration.menu.ts:122 | 1 January of year y is local midnight of day DayFromYear(y) of the epoch |
| JsSemantics.DayFromYearAnchors | src/modules/ussd/menus/registration.menu.ts:122 | 1970, the epoch year, begins on day 0 and 2000 on day 10957 |
| JsSemantics.LocalDateNextDay | src/modules/ussd/menus/registration.menu.ts:122 | the next day of the month is exactly one day later |
| JsSemantics.LocalDateDefined | src/modules/ussd/menus/registration.menu.ts:122 | every year from 100 to 9999, month and day 1 to 31 gives a date, at local midnight of that day |
| JsSemantics.YearLength | src/modules/ussd/menus/registration.menu.ts:122 | consecutive years are 365 or 366 days apart, by the leap-year rule |
| JsSemantics.DateRollsOver | src/modules/ussd/menus/registration.menu.ts:122 | a day past the end of its month is the matching day of the next month, across year ends too |
| RiskRules.Rank | src/modules/risk-assessment/services/riskScoring.service.ts:33-83 | each rule has one position in the evaluation order |
| RiskRules.DescriptionInjective | src/modules/risk-assessment/services/riskScoring.service.ts:37-82 | distinct rules have distinct description strings |
| RiskRules.RuleNamedFinds | src/modules/risk-assessment/services/riskScoring.service.ts:37-82 | a rule's description names that rule |
| RiskScoring.Classify | src/modules/risk-assessment/services/riskScoring.service.ts:86-93 | high exactly from 40, moderate exactly from 20 to 39, low exactly below 20 |
| RiskScoring.FiredRulesUnfolded | src/modules/risk-assessment/services/riskScoring.service.ts:33-83 | the fired rules are the rules in evaluation order, each kept when it fires |
| RiskScoring.StagesAreFiredRules | src/modules/risk-assessment/services/riskScoring.service.ts:33-83 | the fired rules are the age band, the BP band and the five flags, in that order |
| RiskScoring.ScoreByStages | src/modules/risk-assessment/services/riskScoring.service.ts:30-83 | the score is the sum of what each stage adds |
| RiskScoring.FactorsByStages | src/modules/risk-assessment/services/riskScoring.service.ts:31-83 | the description list is the concatenation of what each stage appends |
| RiskScoring.AgeStage | src/modules/risk-assessment/services/riskScoring.service.ts:34-42 | adds the age band's weight to the score and its description to the list |
| RiskScoring.BloodPressureStage | src/modules/risk-assessment/services/riskScoring.service.ts:45-53 | adds the BP band's weight to the score and its description to the list |
| RiskScoring.FlagStage | src/modules/risk-assessment/services/riskScoring.service.ts:56-83 | adds a raised flag's weight and description, and nothing otherwise |
| RiskScoring.CalculateRiskScore | src/modules/risk-assessment/services/riskScoring.service.ts:29-96 | the result is the specified assessment: score, level and descriptions |
| RiskScoring.Assess | src/modules/risk-assessment/services/riskScoring.service.ts:29-96 | the score is 0 to 100 and the level is its band; at most 7 descriptions, none exactly when the score is 0 |
| RiskScoring.AgeRisk | src/modules/risk-assessment/services/riskScoring.service.ts:107 | the stored ageRisk is true exactly when an age rule fired |
| RiskScoring.LevelFollowsScore | src/modules/risk-assessment/services/riskScoring.service.ts:86-93 | the level is high iff score ≥ 40, moderate iff 20 ≤ score < 40, low iff score < 20 |
| RiskScoring.ScoreIsSumOfWeights | src/modules/risk-assessment/services/riskScoring.service.ts:30-83 | score = age points + BP points + 20, 15, 10, 5 and 15 for the raised flags |
| RiskScoring.AssessmentBounds | src/modules/risk-assessment/services/riskScoring.service.ts:30-83 | 0 ≤ score ≤ 100; at most 7 descriptions; none exactly when the score is 0 |
| RiskScoring.AtMostSevenFire | src/modules/risk-assessment/services/riskScoring.service.ts:33-83 | at most seven rules fire |
| RiskScoring.FiredRuleMembership | src/modules/risk-assessment/services/riskScoring.service.ts:33-83 | a rule fires exactly when its stage picks it |
| RiskScoring.AgeRuleFires | src/modules/risk-assessment/services/riskScoring.service.ts:34-42 | the teenage rule fires iff age is present, non-zero and < 17; the maternal-age rule iff age ≥ 35; never both |
| RiskScoring.BpRuleFires | src/modules/risk-assessment/services/riskScoring.service.ts:45-53 | severe iff both readings are present and non-zero and ≥ 160 or ≥ 110; moderate iff not severe and ≥ 140 or ≥ 90; never both |
| RiskScoring.FiredInEvaluationOrder | src/modules/risk-assessment/services/riskScoring.service.ts:33-83 | the fired rules appear in strictly increasing evaluation order |
| RiskScoring.DescriptionsElementwise | src/modules/risk-assessment/services/riskScoring.service.ts:33-83 | the i-th description is the description of the i-th rule |
| RiskScoring.FactorsDescribeFiredRules | src/modules/risk-assessment/services/riskScoring.service.ts:33-95 | each description names exactly one fired rule, in order, and a rule's description is listed iff it fired |
| RiskScoring.WeightsReadFromDescriptions | src/modules/risk-assessment/services/riskScoring.service.ts:33-83 | reading the weights back from a list of descriptions gives the weights' total |
| RiskScoring.ScoreReadFromFactors | src/modules/risk-assessment/services/riskScoring.service.ts:30-95 | the score is recovered from the description list alone |
| RiskScoring.Raise | src/modules/risk-assessment/services/riskScoring.service.ts:56-83 | raising a condition sets its flag and leaves every other flag, the user id and every reading unchanged |
| RiskScoring.ClassifyMonotone | src/modules/risk-assessment/services/riskScoring.service.ts:86-93 | a higher score never gives a lower level |
| RiskScoring.RaiseAddsWeight | src/modules/risk-assessment/services/riskScoring.service.ts:56-83 | raising a flag adds exactly its weight |
| RiskScoring.RaisingAFlagNeverLowersRisk | src/modules/risk-assessment/services/riskScoring.service.ts:56-93 | raising a flag never lowers the score or the level |
| RiskScoring.ExampleModerateAtThreshold | src/modules/risk-assessment/services/riskScoring.service.ts:29-96 | age 28, BP 145/92 and a first pregnancy give exactly 20, moderate |
| RiskScoring.ExampleTeenager | src/modules/risk-assessment/services/riskScoring.service.ts:29-96 | age 16 with nothing else gives 10, low, and the teenage description |
| RiskScoring.ExampleHighRisk | src/modules/risk-assessment/services/riskScoring.service.ts:29-96 | age 36, BP 165/100 and earlier complications give 55, high |
| UssdEngine.Resolve | src/types/ussd-builder.d.ts:73-75 | a target found belongs to a matching entry with no matching entry before it |
| UssdEngine.Matches | src/types/ussd-builder.d.ts:73-75 | a digit key needs a digit in the input; a date key needs at least ten characters |
| UssdEngine.AnchoredMatchIsUnanchoredMatch | src/types/ussd-builder.d.ts:73-75 | a key matching the whole input also matches part of it |
| UssdEngine.ResolveTakesFirstMatch | src/types/ussd-builder.d.ts:73-75 | the first matching entry's target is taken |
| UssdEngine.ResolveWithoutMatch | src/types/ussd-builder.d.ts:73-75 | with no matching entry there is no target |
| UssdEngine.LiteralsTo | src/modules/ussd/menus/registration.menu.ts:148-152 | a table of plain keys has one entry per key, in key order |
| UssdEngine.LiteralsToResolves | src/modules/ussd/menus/registration.menu.ts:148-152 | a table of plain keys leads to its target exactly for those keys |
| UssdEngine.FindByPhone | src/modules/users/services/user.service.ts:53-63 | throws exactly on a number that does not normalise; otherwise a user is found exactly when one is stored under the normalised number, and it is that stored user |
| UssdEngine.UserExists | src/modules/users/services/user.service.ts:102-108 | throws exactly on a number that does not normalise; otherwise true exactly when a user is stored under the normalised number |
| UssdEngine.FoundUserHasCallersNumber | src/modules/users/services/user.service.ts:53-63 | in a store whose records sit under their own phone number, the user found has the caller's normalised number |
| UssdEngine.ExistsAgreesWithFind | src/modules/users/services/user.service.ts:53-108 | a user exists exactly when one is found |
| UssdEngine.UssdMenu.constructor | src/types/ussd-builder.d.ts:82 | a new menu has no states |
| UssdEngine.UssdMenu.StartState | src/types/ussd-builder.d.ts:87 | registers the start state, replacing an earlier one, and changes nothing else |
| UssdEngine.UssdMenu.State | src/types/ussd-builder.d.ts:92 | registers the named state, replacing an earlier one, and changes nothing else |
| RegistrationMenu.RegistrationStates | src/modules/ussd/menus/registration.menu.ts:15-207 | the menu ends with the six registration states added to what it held |
| RegistrationMenu.CollectNameStep | src/modules/ussd/menus/registration.menu.ts:18-46 | throws exactly on a number that does not normalise; a registered number ends with the already-registered text and nothing logged; a new one reads the name (captured, not persisted), logs the start with the phone number and session and shows the LGA list |
| RegistrationMenu.LgaNameFor | src/modules/ussd/menus/registration.menu.ts:64-65 | input n from 1 to 9 names LGA n; anything else names "Unknown" |
| RegistrationMenu.CollectLgaStep | src/modules/ussd/menus/registration.menu.ts:63-77 | reads the LGA named by the input (captured, not persisted) and asks for the age, for every input |
| RegistrationMenu.LgaByListedId | src/modules/ussd/menus/registration.menu.ts:64-65 | typing an LGA's listed id selects that LGA |
| RegistrationMenu.CollectAgeStep | src/modules/ussd/menus/registration.menu.ts:86-108 | the age is accepted iff parseInt reads 10 to 60, and then it is the age captured (not persisted); otherwise the corrective prompt and nothing captured |
| RegistrationMenu.EddInstant | src/modules/ussd/menus/registration.menu.ts:119-122 | fewer than three "-"-separated fields give NaN, and so does a day, month or year field that `Number` reads as NaN; a date read is within the representable range |
| RegistrationMenu.CollectEddStep | src/modules/ussd/menus/registration.menu.ts:118-146 | the date is rejected iff it is NaN or before now; an accepted date is the one captured (not persisted) and the history question follows |
| RegistrationMenu.EddOfDigits | src/modules/ussd/menus/registration.menu.ts:119-122 | DD-MM-YYYY of digits is local midnight of that day, month counted from 1 |
| RegistrationMenu.DatePartsOfDigits | src/modules/ussd/menus/registration.menu.ts:120 | splitting at "-" recovers the three fields |
| RegistrationMenu.FebruaryRollsIntoMarch | src/modules/ussd/menus/registration.menu.ts:122 | February's last day plus k is day k of March |
| RegistrationMenu.FebruaryThirtyFirstRollsOver | src/modules/ussd/menus/registration.menu.ts:119-146 | in every time zone within ±14 hours, 31-02-YYYY is a valid date, 3 March (2 March in a leap year), and is accepted when it is not in the past |
| RegistrationMenu.CollectComplicationsStep | src/modules/ussd/menus/registration.menu.ts:157-175 | complications iff "1", first pregnancy iff "3", never both, and the diabetes question follows |
| RegistrationMenu.CollectDiabetesStep | src/modules/ussd/menus/registration.menu.ts:185-200 | the diabetes flag is set iff the input is exactly "1", and the last question follows |
| RegistrationMenu.OnlyAlreadyRegisteredEnds | src/modules/ussd/menus/registration.menu.ts:17-207 | the only END reply of the flow is the already-registered one; every other step continues |
| RegistrationMenu.NameTable | src/modules/ussd/menus/registration.menu.ts:48-58 | "1" to "9" lead to registration.lga; any other input matches nothing |
| RegistrationMenu.LgaTable | src/modules/ussd/menus/registration.menu.ts:79-81 | digits lead to registration.age |
| RegistrationMenu.AgeTable | src/modules/ussd/menus/registration.menu.ts:110-113 | digits lead back to registration.age, a date to registration.edd, digits taking precedence |
| RegistrationMenu.QuestionTables | src/modules/ussd/menus/registration.menu.ts:148-206 | 1–3 lead on from the date, 1–2 from complications, 1–3 from diabetes to registration.complete; nothing else matches |
| RegistrationMenu.CompleteIsNotRegistered | src/modules/ussd/menus/registration.menu.ts:202-210 | registration.complete is not among the registered states |
| RegistrationMenu.NonNumericDateRejected | src/modules/ussd/menus/registration.menu.ts:118-130 | a day, month or year field holding a character `Number` cannot read makes the date rejected |
| RegistrationMenu.PartNaNRejected | src/modules/ussd/menus/registration.menu.ts:118-130 | a date with a NaN day, month or year field is rejected |
| RegistrationMenu.NoInputReachesEddUnanchored | src/modules/ussd/menus/registration.menu.ts:110-113 | when keys match part of the input, no input leads from the age step to the date step |
| RegistrationMenu.DateRouteDependsOnMode | src/modules/ussd/menus/registration.menu.ts:110-113 | a date goes to registration.edd when keys match the whole input, and back to registration.age when they match part of it |
| MainMenu.BuildMainMenu | src/modules/ussd/menus/main.menu.ts:16-344 | a new menu holding the main states and then the registration states |
| MainMenu.GreetingStep | src/modules/ussd/menus/main.menu.ts:20-46 | throws exactly on a number that does not normalise; the register/about menu for a new number; the six options, greeting the stored user by name, otherwise |
| MainMenu.StartTable | src/modules/ussd/menus/main.menu.ts:47-54 | "1" to "6" lead to menu.option1 to menu.option6; nothing else matches |
| MainMenu.Option1Table | src/modules/ussd/menus/main.menu.ts:85-87 | after option 1's name prompt any input goes to registration.name |
| MainMenu.DangerSignsOrRegisterStep | src/modules/ussd/menus/main.menu.ts:58-84 | throws exactly on a bad number; the name prompt for a new number, the danger signs ending the session for a stored user |
| MainMenu.VaccineTierFor | src/modules/ussd/menus/main.menu.ts:112-128 | first schedule up to week 12 and for a missing week, second from 13 to 24, third from 25 |
| MainMenu.VaccinesOrAboutStep | src/modules/ussd/menus/main.menu.ts:91-138 | throws exactly on a bad number; about us for a new number, the schedule for the stored week otherwise; both end |
| MainMenu.CallbackStep | src/modules/ussd/menus/main.menu.ts:141-163 | throws exactly on a bad number; a stored user's callback quotes the number as the gateway sent it; others are asked to register |
| MainMenu.EmergencyStep | src/modules/ussd/menus/main.menu.ts:166-185 | ends with the emergency numbers and records, logs and requests nothing |
| MainMenu.WeekText | src/modules/ussd/menus/main.menu.ts:198-200 | "Ba a sani ba" exactly for a missing or zero week |
| MainMenu.RiskText | src/modules/ussd/menus/main.menu.ts:201-206 | the high, moderate or low text for the level shown, a missing level shown as low |
| MainMenu.VaccineTierMonotone | src/modules/ussd/menus/main.menu.ts:112-128 | a later week never gives an earlier schedule |
| MainMenu.WeekTextRoundTrip | src/modules/ussd/menus/main.menu.ts:198-200 | a missing or zero week reads "Ba a sani ba"; any other week is "Mako " and a number that parses back to it |
| MainMenu.RiskTextDistinguishesLevels | src/modules/ussd/menus/main.menu.ts:201-206 | two profiles get the same risk text iff they count as the same level; a missing level reads as low |
| MainMenu.ProfileStep | src/modules/ussd/menus/main.menu.ts:188-218 | throws exactly on a bad number; the stored number, name, LGA, week text and risk text for a stored user; a new number is asked to register |
| MainMenu.UpdateMenuStep | src/modules/ussd/menus/main.menu.ts:221-238 | throws exactly on a bad number; ends for a new number; offers the update options to a stored user |
| MainMenu.Option6Table | src/modules/ussd/menus/main.menu.ts:239-313 | 1, 2, 3 lead to update.name, update.lga, update.week; 4 to "start"; nothing else matches; after each update prompt any input goes to its confirmation |
| MainMenu.ConfirmNameStep | src/modules/ussd/menus/main.menu.ts:257-276 | the typed text is requested as the new name; the session ends, with the success text exactly when the store accepts it and the failure text otherwise |
| MainMenu.ConfirmLgaStep | src/modules/ussd/menus/main.menu.ts:287-303 | the typed text is requested as the new LGA; the session ends, with the success text exactly when the store accepts it and the failure text otherwise |
| MainMenu.ConfirmWeekStep | src/modules/ussd/menus/main.menu.ts:315-338 | no update is requested iff parseInt gives NaN, which ends with the error text; otherwise the parsed week is requested and the reply follows the store's answer |
| MainMenu.ConfirmWeekOfDecimal | src/modules/ussd/menus/main.menu.ts:318-328 | a week typed in decimal is the week requested |
| MainMenu.MainRegistryEntries | src/modules/ussd/menus/main.menu.ts:16-341 | every one of the nineteen registered names runs its handler with its table; "start" and registration.complete are not registered |
| MainMenu.MissingTargets | src/modules/ussd/menus/main.menu.ts:239-244 | neither "start" nor registration.complete is a registered state |
| UssdTurn.Run | src/types/ussd-builder.d.ts:69-72 | a handler throws only when the caller's number does not normalise |
| UssdTurn.RunIn | src/types/ussd-builder.d.ts:69-76 | an unregistered target is reported as unknown, and only then; a reply is the target handler's; a throw comes from a bad caller number |
| UssdTurn.Begin | src/types/ussd-builder.d.ts:69-87 | without a start state the turn is unknown; a reply is the start handler's on empty input; a throw comes from a bad caller number |
| UssdTurn.Step | src/types/ussd-builder.d.ts:69-76 | a reply always comes from a registered state; an unregistered current state is reported as unknown |
| UssdTurn.NoMatchStaysPut | src/types/ussd-builder.d.ts:73-75 | input matching no entry runs the current state again |
| UssdTurn.ThrowsOnlyOnBadNumber | src/core/utils/phoneFormatter.ts:26-28 | a turn that throws carries the invalid-number error for the caller's number |
| UssdTurn.StepFollowsTable | src/types/ussd-builder.d.ts:73-75 | input matching an entry runs the state it names |
| UssdTurn.SessionOpensWithGreeting | src/modules/ussd/menus/main.menu.ts:20-46 | the first turn runs the start state's greeting |
| UssdTurn.StartOptionsLead | src/modules/ussd/menus/main.menu.ts:47-54 | from the start state, option k runs menu.option k |
| UssdTurn.EmergencyFromStart | src/modules/ussd/menus/main.menu.ts:166-185 | 4 from the start state ends with the emergency numbers for every caller |
| UssdTurn.BackToMenuReachesMissingState | src/modules/ussd/menus/main.menu.ts:239-244 | 4 in the update options reaches an unknown state |
| UssdTurn.DiabetesAnswerReachesMissingState | src/modules/ussd/menus/registration.menu.ts:202-210 | every answer the diabetes table accepts reaches the unknown registration.complete |
| UssdTurn.ParseIntOfDate | src/modules/ussd/menus/registration.menu.ts:87 | a DD-MM-YYYY input reads as its day to parseInt |
| UssdTurn.AgeStateRoutesDate | src/modules/ussd/menus/registration.menu.ts:110-113 | at the age step a date runs the date step when keys match the whole input, and the age step again when they match part of it |
| UssdTurn.LgaPickedAfterName | src/modules/ussd/menus/registration.menu.ts:48-81 | LGA id n after the name reads LGA n (captured, not persisted) and asks for the age |

## Left out

- HTTP and Express plumbing, middleware, and the controller that feeds the gateway's request to the menu are not part of this model.
- Persistence is not modelled. The `registration_started` event is an entry in the output's event list, carrying the caller's phone number and session id as the log call does, and a profile update is a requested `Update`. Whether the store accepts an update is the `Context` flag `updateSucceeds`.
- The update states pass a phone number where `updateUser` expects an id, and `updateUser` does not write `currentWeek`. `updateUser` is not part of this model, so neither is visible here.
- The `ussd-builder` library's internals are not part of this model:
  - how it replays the `*`-joined text of a session;
  - its sessions;
  - its real key-matching rule, which is the `MatchMode` parameter instead.
- Screen texts are named by `Screen` values rather than spelled out. The variable parts of a screen (a name, an LGA, a number, a week, a risk line) are its arguments.
- The commented-out code is not live behaviour and is left out: the `registration.complete` state, the `sessionManager` calls and the old scoring service.
- `createAssessment`'s database write, the Africa's Talking SMS client, the Redis client around `retryStrategy`, the cache, queue and notification stubs, and the health routes are left out.
- Clocks are parameters (`now`), as is the local time zone, a fixed offset `tzOffset` from UTC. Daylight-saving changes are not modelled.
- JsSemantics.ParseInt: JavaScript numbers are modelled as unbounded integers, so precision loss above 2^53 is not modelled.
- JsSemantics.StringToNumber: only the empty string and optionally signed decimal digits are read; a plus sign and a white-space-only string are handled in its body but have no lemma of their own; decimals, exponents, hexadecimal and `Infinity` are NaN here.
- RiskScoring.CalculateRiskScore: age and blood-pressure readings are integers; fractional readings are not modelled.
- DateHelpers.CalculateEDD: the last period is a valid date (a time value); an invalid `Date` is not modelled.
- DateHelpers.CalculatePregnancyWeek: the delivery date is a valid date; the NaN week an invalid `Date` would give is not modelled.
- The gateway's `USSDRequest` record (ussd.types.ts:7-13) is not modelled as a type. The core reads only its phone number and session id, which `Context` carries; the session text is the library's input, and the service and network codes are never read.
- The user store is a map keyed by normalised phone number. That each record's own `phoneNumber` equals its key is the predicate `KeyedByPhone`, assumed by `UssdEngine.FoundUserHasCallersNumber` and not enforced on `Context`.
- `riskProfile` is one of the three levels or missing; other stored strings read as low, as a missing one does.
- RegistrationMenu.FebruaryThirtyFirstRollsOver: stated for time-zone offsets within ±14 hours, the span of real time zones; beyond that the model does not show the date is defined.
