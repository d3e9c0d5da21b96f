# Sky Voyage flight booking: a Dafny model of its interface logic

This project models the client-side logic of a flight-booking web site.
It covers seven components:

- **Flight results page**: the loaded offer list, the simulated progress
  counter and the `handleFilter` rule. The rule keeps a flight when:
  - its price falls within the slider range;
  - its normalised airline name is among the selected airline ids;
  - its stop count matches a selected stop category.
- **Filter panel**: the price slider, three checkbox groups that toggle ids
  in and out of a list, and the "Apply" and "Clear" buttons.
- **Passenger selector**: four counters clamped to their bounds. Each
  counter has a list of name slots that grows and shrinks with it.
- **Registration page**: the form, and the submit handler's three checks in
  a fixed order.
- **Language provider**: four translation tables, the `t` lookup that falls
  back to the key, and the language saved in browser storage.
- **Support chatbot**: a greeting per language, a reply chosen by keyword
  priority over the lower-cased message, and the message log.
- **Flight card**: the stop label, the discount badge, the low-seat warning,
  the numbered stopovers and the expandable details section.

How the model is organised:

- Each component is one module.
- Pure display and filtering rules are functions and lemmas.
- Component state that the handlers update is a class whose methods carry
  `modifies` clauses and state the whole new state.
- Three support modules carry the JavaScript built-ins the components rely on:
  - `Wrappers`: Option and Result.
  - `Seqs`: `Array.prototype.filter` as `Keep`, sub-lists, duplicate-freedom.
  - `Text`: `trim` and its whitespace set, `toLowerCase` for the characters
    that matter here, `replace` of the first occurrence, `includes`,
    `parseInt`, and decimal formatting.

A timer (`setTimeout`, `setInterval`) is modelled by the method its callback
becomes when it fires. The clock (`Date.now()`) is a parameter.

## Model

| member | source | states |
|---|---|---|
| FlightsPage.HandleFilter | src/pages/FlightsPage.tsx:169-201 | `handleFilter`: the full list filtered by price, then by airline when any is selected, then by stops when any is selected; its properties are the lemmas below |
| FlightsPage.ParsedPrice | src/pages/FlightsPage.tsx:178 | a price starting with "$" is read by `parseInt` on the text after the "$" |
| FlightsPage.PriceInRange | src/pages/FlightsPage.tsx:177-180 | an unreadable price, or an empty range, keeps no flight |
| FlightsPage.AirlineId | src/pages/FlightsPage.tsx:185 | the normalised name has no capital letters; it is the lower-cased name when that has no space, and one character shorter otherwise |
| FlightsPage.StopSelected | src/pages/FlightsPage.tsx:191-198 | a flight matches the stop selection exactly when its category ("nonstop", "1stop", "2stops" for 2 or more) is selected |
| FlightsPage.CapitalisedWordLower | src/pages/FlightsPage.tsx:185 | a capitalised word of lower-case letters lower-cases to its lower-case spelling |
| FlightsPage.CapitalisedTwoWordId | src/pages/FlightsPage.tsx:185 | two capitalised words joined by a space normalise to the two lower-case words run together |
| FlightsPage.HandleFilterIsOnePass | src/pages/FlightsPage.tsx:169-201 | the three successive filters (price, then airline when any is selected, then stops when any is selected) equal a single filter by the conjunction of the active rules |
| FlightsPage.HandleFilterSubsequence | src/pages/FlightsPage.tsx:174-200 | the filtered list is an order-preserving sub-list of the full loaded list |
| FlightsPage.HandleFilterMembership | src/pages/FlightsPage.tsx:177-198 | a flight is shown exactly when it is loaded and meets every active criterion (both directions) |
| FlightsPage.HandleFilterIdempotent | src/pages/FlightsPage.tsx:169-201 | filtering the filtered list again with the same criteria changes nothing |
| FlightsPage.HandleFilterIdentity | src/pages/FlightsPage.tsx:177-198 | with no airline and no stop selected and every price inside the range, the whole list is shown |
| FlightsPage.UnparsablePriceIsDropped | src/pages/FlightsPage.tsx:178-179 | a price that `parseInt` reads as NaN fails both comparisons, so that flight is never shown |
| FlightsPage.FormattedPriceParses | src/pages/FlightsPage.tsx:178 | a price written as "$" followed by the decimal digits of n parses to n |
| FlightsPage.MockPrices | src/pages/FlightsPage.tsx:53-127 | the five loaded prices parse to 320, 280, 350, 410 and 260 |
| FlightsPage.AirlineIdLength | src/pages/FlightsPage.tsx:185 | the normalised airline id loses at most one character of the name |
| FlightsPage.LongNameMissesShortIds | src/pages/FlightsPage.tsx:185-186 | a name two or more characters longer than every selected id is never selected |
| FlightsPage.CapitalisedWordId | src/pages/FlightsPage.tsx:185 | a capitalised one-word name normalises to its lower-case spelling |
| FlightsPage.OneWordIds | src/pages/FlightsPage.tsx:96-112 | "Emirates" and "Lufthansa" normalise to the panel ids "emirates" and "lufthansa" |
| FlightsPage.LongNameFails | src/pages/FlightsPage.tsx:183-188 | under a non-empty airline selection, a flight whose name is too long for every id fails |
| FlightsPage.MultiWordPanelScenario | src/pages/FlightsPage.tsx:183-188 | selecting the panel ids "delta", "united" and "american" shows none of five flights named like the loaded ones, because "Delta Airlines" normalises to "deltaairlines" |
| FlightsPage.PriceWindowScenario | src/pages/FlightsPage.tsx:177-180 | prices 320, 280, 350, 410, 260 in the window [270, 360] keep the first three, in order |
| FlightsPage.NonstopScenario | src/pages/FlightsPage.tsx:191-198 | with only "nonstop" selected, the flights with 0 stops are kept, in order |
| FlightsPage.MockPriceWindow | src/pages/FlightsPage.tsx:38-130 | the loaded list in the window [270, 360] shows fl-001, fl-002 and fl-003 |
| FlightsPage.MockNonstop | src/pages/FlightsPage.tsx:38-130 | the loaded list with only "nonstop" selected shows fl-001, fl-003 and fl-004 |
| FlightsPage.MockMultiWordPanel | src/pages/FlightsPage.tsx:38-130 | the loaded list with "delta", "united" and "american" selected shows no flight at all |
| FlightsPage.FilterKeepsThree | src/pages/FlightsPage.tsx:169-201 | when exactly three of five flights pass, those three are shown in their original order |
| FlightsPage.FilterKeepsNone | src/pages/FlightsPage.tsx:169-201 | when none of five flights passes, nothing is shown |
| FlightData.MockFlightsConsistent | src/pages/FlightsPage.tsx:38-130 | every loaded flight lists one layover per stop, and none for a direct flight |
| FlightsPageState.ProgressStep | src/pages/FlightsPage.tsx:26-33 | a tick keeps a non-negative counter below 100 plus the step, and a counter that has reached 100 shows 100 |
| FlightsPageState.ProgressStepBounded | src/pages/FlightsPage.tsx:26-33 | a tick of either interval (step 5 or 8), in any interleaving, keeps the counter within [0, 107] |
| FlightsPageState.ProgressLinear | src/pages/FlightsPage.tsx:26-33 | while the counter stays below 100 it grows by the step on every tick |
| FlightsPageState.ProgressPinned | src/pages/FlightsPage.tsx:28-31 | once the counter has reached 100, every further tick shows 100 |
| FlightsPageState.SearchOvershoot | src/pages/FlightsPage.tsx:150-157 | the interval rule with step 8, on its own, gives 96 after 12 ticks, 104 on tick 13 and 100 from tick 14 on; on the page the 1000 ms timer stops the interval after about 10 ticks (at most 80), so the overshoot is not reached |
| FlightsPageState.AfterOvershoot | src/pages/FlightsPage.tsx:150-157 | the interval rule with step 8, on its own, gives 100 on every tick after the overshoot |
| FlightsPageState.ProgressAfterSplit | src/pages/FlightsPage.tsx:26-33 | m + k ticks are m ticks followed by k ticks |
| FlightsPageState.LoadNeverOvershoots | src/pages/FlightsPage.tsx:26-33 | the interval rule with step 5, on its own, never goes above 100 and gives exactly 100 from tick 20 on; on the page the 1500 ms timer stops the interval after about 15 ticks (at most 75) |
| FlightsPageState.ResultSummaryText | src/pages/FlightsPage.tsx:234 | nothing is shown while loading; otherwise the line reads back as the number of shown flights |
| FlightsPageState.FlightResults.constructor | src/pages/FlightsPage.tsx:15-18 | the page mounts loading, with both lists empty and the counter at 0 |
| FlightsPageState.FlightResults.CompleteInitialLoad | src/pages/FlightsPage.tsx:132-136 | both lists become the loaded list, loading ends and the counter shows 100 |
| FlightsPageState.FlightResults.StartSearch | src/pages/FlightsPage.tsx:145-147 | a search sets loading and resets the counter, and touches neither list |
| FlightsPageState.FlightResults.CompleteSearch | src/pages/FlightsPage.tsx:161-165 | the search completion ends loading and shows 100, and touches neither list |
| FlightsPageState.FlightResults.TickProgress | src/pages/FlightsPage.tsx:26-33 | one tick advances the counter by the interval's rule and keeps it within [0, 107] |
| FlightsPageState.FlightResults.ApplyFilters | src/pages/FlightsPage.tsx:169-201 | the shown list is recomputed from the full list and stays a sub-list of it |
| FlightsPageState.FlightResults.ResetFilters | src/pages/FlightsPage.tsx:266 | "Reset Filters" shows the full list again |
| FlightsPageState.FlightResults.ResultSummary | src/pages/FlightsPage.tsx:234 | the summary is empty exactly while loading, and otherwise states the shown count |
| FlightFilter.AirlineOptionIds | src/components/flights/FlightFilter.tsx:23-29 | against the results page's normalisation, "Lufthansa" and "Emirates" give their ids, but "Delta Airlines" gives "deltaairlines" rather than "delta", and likewise for United and American |
| FlightFilter.TwoWordOptionId | src/components/flights/FlightFilter.tsx:23-26 | an option named "<Word> Airlines" with id "<word>" normalises to the id followed by "airlines" |
| FlightFilter.StopOptionIds | src/components/flights/FlightFilter.tsx:31-35 | the three stop ids are exactly the categories the results page assigns to 0, 1, and 2 or more stops |
| FlightFilter.TimeSelectionIgnored | src/components/flights/FlightFilter.tsx:37-42 | the departure-time selection never changes the list the results page shows |
| FlightFilter.Toggle | src/components/flights/FlightFilter.tsx:44-50 | a checkbox change flips membership of its id and leaves every other id's membership as it was |
| FlightFilter.ToggleTwiceRestores | src/components/flights/FlightFilter.tsx:44-50 | checking and then unchecking a box restores the list exactly |
| FlightFilter.ToggleTwiceMovesToEnd | src/components/flights/FlightFilter.tsx:44-50 | unchecking and then re-checking a box keeps the same selection but moves its id to the end |
| FlightFilter.ToggleNoDuplicates | src/components/flights/FlightFilter.tsx:44-66 | a toggle never puts an id into a selection list twice |
| FlightFilter.PriceLabel | src/components/flights/FlightFilter.tsx:117-118 | a bound label starts with "$", and for a non-negative bound the rest reads back as the bound |
| FlightFilter.PriceLabelParses | src/components/flights/FlightFilter.tsx:117-118 | a slider bound label, read the way the results page reads prices, gives back the bound |
| FlightFilter.BoundsAreInclusive | src/components/flights/FlightFilter.tsx:117-118 | a flight priced exactly at a bound shown under the slider passes the price rule |
| FlightFilter.DefaultCriteriaKeepsInRange | src/components/flights/FlightFilter.tsx:77-88 | the cleared criteria keep every flight priced within [0, 2000], in order |
| FlightFilter.FilterPanel.Criteria | src/components/flights/FlightFilter.tsx:69-74 | the emitted criteria are the panel's range and its three selection lists |
| FlightFilter.FilterPanel.constructor | src/components/flights/FlightFilter.tsx:17-21 | the panel mounts with the full range [0, 2000], nothing checked and the mobile panel hidden |
| FlightFilter.FilterPanel.ToggleAirline | src/components/flights/FlightFilter.tsx:44-50 | only the airline list changes: its id's membership flips and the list stays duplicate-free |
| FlightFilter.FilterPanel.ToggleStop | src/components/flights/FlightFilter.tsx:52-58 | only the stop list changes: its id's membership flips and the list stays duplicate-free |
| FlightFilter.FilterPanel.ToggleTime | src/components/flights/FlightFilter.tsx:60-66 | only the time list changes: its id's membership flips and the list stays duplicate-free |
| FlightFilter.FilterPanel.SetPriceRange | src/components/flights/FlightFilter.tsx:114 | the slider sets the range and nothing else |
| FlightFilter.FilterPanel.ApplyFilters | src/components/flights/FlightFilter.tsx:68-75 | "Apply" emits the current criteria and changes nothing |
| FlightFilter.FilterPanel.ClearFilters | src/components/flights/FlightFilter.tsx:77-88 | "Clear" resets to the default criteria and emits them |
| FlightFilter.FilterPanel.ToggleMobileFilters | src/components/flights/FlightFilter.tsx:95 | the mobile button flips panel visibility and nothing else |
| PassengerSelector.PerType.With | src/components/flights/PassengerSelector.tsx:75-80 | a spread update changes exactly the entry of one passenger type |
| PassengerSelector.Clamp | src/components/flights/PassengerSelector.tsx:54-59 | the new count lies within [1, 9] for adults and [0, 9] otherwise; it is unchanged inside the bounds and pinned to the nearer bound outside them |
| PassengerSelector.MinusDisabled | src/components/flights/PassengerSelector.tsx:146 | the "-" button is disabled exactly at or below the type's minimum (1 for adults, 0 otherwise) |
| PassengerSelector.PlusDisabled | src/components/flights/PassengerSelector.tsx:157 | the "+" button is disabled exactly at or above the maximum of 9 |
| PassengerSelector.ButtonsAgreeWithClamp | src/components/flights/PassengerSelector.tsx:146-157 | for a count within bounds, a button is disabled exactly when clamping would leave the count unchanged |
| PassengerSelector.TotalPassengers | src/components/flights/PassengerSelector.tsx:98 | the total is the sum of the counts of the four passenger types, so it is at least each single count |
| PassengerSelector.TotalAfterChange | src/components/flights/PassengerSelector.tsx:98 | changing one count changes the total by exactly the difference |
| PassengerSelector.TotalBounds | src/components/flights/PassengerSelector.tsx:98 | with every count within bounds, there are between 1 and 36 passengers |
| PassengerSelector.PassengerLabel | src/components/flights/PassengerSelector.tsx:115 | the trigger text reads back as the total, and ends in the plural "s" exactly when the total is not 1 |
| PassengerSelector.Blanks | src/components/flights/PassengerSelector.tsx:43-48 | `Array(n).fill("")` has n entries, all empty |
| PassengerSelector.ResizeSlots | src/components/flights/PassengerSelector.tsx:62-73 | on an increase the list grows to the count with blank names; on a decrease it is cut to the count; existing names keep their positions |
| PassengerSelector.GrowThenShrink | src/components/flights/PassengerSelector.tsx:62-73 | adding slots and then removing them again restores the names |
| PassengerSelector.ResizeMatchesCount | src/components/flights/PassengerSelector.tsx:62-73 | under an enabled button, the resized list has exactly as many slots as the new count |
| PassengerSelector.PassengerSelectorState.constructor | src/components/flights/PassengerSelector.tsx:39-48 | mounted from `value`: the dialog closed, the adults tab active, one blank name per passenger |
| PassengerSelector.PassengerSelectorState.CountChange | src/components/flights/PassengerSelector.tsx:50-81 | the push and pop loops leave exactly the clamped count for that type and its resized name list; nothing else changes |
| PassengerSelector.PassengerSelectorState.CountChangeKeepsSlots | src/components/flights/PassengerSelector.tsx:50-81 | through the enabled buttons, every type keeps as many name slots as passengers |
| PassengerSelector.PassengerSelectorState.NameChange | src/components/flights/PassengerSelector.tsx:83-91 | exactly one name slot takes the new name |
| PassengerSelector.PassengerSelectorState.Apply | src/components/flights/PassengerSelector.tsx:93-96 | the current counts are emitted and the dialog closes |
| PassengerSelector.PassengerSelectorState.Cancel | src/components/flights/PassengerSelector.tsx:186 | "Cancel" closes the dialog without changing the counts or names |
| PassengerSelector.PassengerSelectorState.SetOpen | src/components/flights/PassengerSelector.tsx:108 | the dialog's open flag takes the given value and nothing else changes |
| PassengerSelector.PassengerSelectorState.SetActiveTab | src/components/flights/PassengerSelector.tsx:125 | the active tab changes and nothing else |
| RegisterPage.WithField | src/pages/RegisterPage.tsx:29-35 | a text input changes exactly the field it names; the others and the terms flag are kept |
| RegisterPage.Validate | src/pages/RegisterPage.tsx:37-68 | missing information exactly when a required field is empty; a mismatch exactly when they are filled and the passwords differ; terms not accepted exactly when the passwords also match; registration exactly when all three checks pass |
| RegisterPage.DateOfBirthIrrelevant | src/pages/RegisterPage.tsx:41 | the date of birth never affects the outcome |
| RegisterPage.EmptyConfirmationIsMismatch | src/pages/RegisterPage.tsx:41-57 | an empty confirmation is not reported as missing: with the rest filled in, it is a mismatch |
| RegisterPage.MissingMasksLaterChecks | src/pages/RegisterPage.tsx:41-66 | while a required field is empty, neither the passwords nor the terms are looked at |
| RegisterPage.ToastTitle | src/pages/RegisterPage.tsx:43-74 | the toast title per outcome; the lemma below shows it tells the outcomes apart |
| RegisterPage.ToastTitlesDistinct | src/pages/RegisterPage.tsx:43-74 | the four outcomes have four different toast titles |
| RegisterPage.AcceptsTerms | src/pages/RegisterPage.tsx:218 | the terms flag is set exactly when the checkbox reports `true`, never when it is indeterminate |
| RegisterPage.RegisterPageState.constructor | src/pages/RegisterPage.tsx:16-27 | the page mounts with an empty form, both passwords hidden, not loading |
| RegisterPage.RegisterPageState.InputChange | src/pages/RegisterPage.tsx:29-35 | only the named field of the form changes |
| RegisterPage.RegisterPageState.TermsCheckedChange | src/pages/RegisterPage.tsx:217-219 | only the terms flag changes, to `checked === true` |
| RegisterPage.RegisterPageState.Submit | src/pages/RegisterPage.tsx:37-68 | the outcome is the form's validation; loading starts only on success, and the form is untouched |
| RegisterPage.RegisterPageState.CompleteRegistration | src/pages/RegisterPage.tsx:71-72 | the registration timer ends loading and keeps the form |
| RegisterPage.RegisterPageState.ToggleShowPassword | src/pages/RegisterPage.tsx:174 | the password eye button flips its own flag only |
| RegisterPage.RegisterPageState.ToggleShowConfirmPassword | src/pages/RegisterPage.tsx:201 | the confirmation eye button flips its own flag only |
| RegisterPage.RegisterPageState.SubmitLabel | src/pages/RegisterPage.tsx:235 | the button reads "Creating your account..." exactly while loading and "Sign up" otherwise |
| LanguageProvider.LanguageFromCode | src/components/language/LanguageProvider.tsx:155 | a code is accepted exactly when it is the code of one of the four languages, and it names that language |
| LanguageProvider.CodeRoundTrip | src/components/language/LanguageProvider.tsx:4 | every language's code names that language |
| LanguageProvider.Translate | src/components/language/LanguageProvider.tsx:165-167 | a non-empty translation is returned as is; a missing or empty one falls back to the key |
| LanguageProvider.TablesShareKeys | src/components/language/LanguageProvider.tsx:12-137 | all four tables translate the same keys |
| LanguageProvider.NoEmptyTranslation | src/components/language/LanguageProvider.tsx:12-137 | no table holds an empty translation |
| LanguageProvider.TranslateTotal | src/components/language/LanguageProvider.tsx:165-167 | a known key is translated, non-empty, in every language; an unknown key is shown as itself in every language |
| LanguageProvider.LanguageName | src/components/language/LanguageProvider.tsx:139-146 | every language has a non-empty name |
| LanguageProvider.LanguageNamesDistinct | src/components/language/LanguageProvider.tsx:139-144 | the four language names are pairwise different |
| LanguageProvider.StartupLanguage | src/components/language/LanguageProvider.tsx:151-158 | no saved code, or an unknown one, gives English; a known saved code gives its language |
| LanguageProvider.SavedLanguageRestored | src/components/language/LanguageProvider.tsx:153-163 | what `setLanguage` stores is what the next startup restores, whatever else storage holds |
| LanguageProvider.UseLanguage | src/components/language/LanguageProvider.tsx:176-182 | the hook returns the context when a provider is present and fails with the stated message otherwise |
| LanguageProvider.LanguageProviderState.constructor | src/components/language/LanguageProvider.tsx:151 | the provider mounts in English |
| LanguageProvider.LanguageProviderState.RestoreSaved | src/components/language/LanguageProvider.tsx:153-158 | the mount effect adopts the startup language and only reads storage |
| LanguageProvider.LanguageProviderState.SetLanguage | src/components/language/LanguageProvider.tsx:160-163 | the state and the stored code change together, no other storage entry changes, and the stored code restores this language |
| LanguageProvider.LanguageProviderState.T | src/components/language/LanguageProvider.tsx:165-167 | the lookup in the current language: an unknown key shows itself, a known one its translation |
| Chatbot.GreetingFor | src/components/support/Chatbot.tsx:24-29 | a code has a greeting of its own exactly when it is the code of one of the four languages |
| Chatbot.Greeting | src/components/support/Chatbot.tsx:24-32 | a code with a greeting gets that greeting; any other code gets the English one |
| Chatbot.GreetingPerLanguage | src/components/support/Chatbot.tsx:24-32 | each of the four languages has its own greeting, so none of them falls back to English |
| Chatbot.TopicOf | src/components/support/Chatbot.tsx:68-80 | the first keyword group found in the lower-cased message wins, in the order cancel/refund, baggage/luggage, check-in, change/reschedule: each topic is chosen exactly when its group occurs and no earlier group does, and the general answer exactly when none of the seven keywords occurs |
| Chatbot.ReplyText | src/components/support/Chatbot.tsx:70-80 | the answer text per topic; the lemma below shows the five are different |
| Chatbot.Reply | src/components/support/Chatbot.tsx:66-80 | the reply is the answer of the topic the message selects and of no other topic |
| Chatbot.ReplyTextsDistinct | src/components/support/Chatbot.tsx:70-80 | the five replies are pairwise different, so the reply tells which keyword group matched |
| Chatbot.TopicIgnoresCase | src/components/support/Chatbot.tsx:68 | the reply depends only on the lower-cased message |
| Chatbot.KeywordInAnyCase | src/components/support/Chatbot.tsx:68-76 | a keyword occurring in any case puts its lower-case form into the lower-cased message |
| Chatbot.CancellationInAnyCase | src/components/support/Chatbot.tsx:70-71 | any spelling of "cancel" or "refund" in the message selects the cancellation reply |
| Chatbot.CancellationSticks | src/components/support/Chatbot.tsx:70-80 | cancellation has the highest priority: text added on either side never changes that reply |
| Chatbot.ChatbotState.constructor | src/components/support/Chatbot.tsx:23-41 | the log starts with the language's greeting alone, with id 1 |
| Chatbot.ChatbotState.ResetForLanguage | src/components/support/Chatbot.tsx:23-41 | a language change replaces the log with the new greeting |
| Chatbot.ChatbotState.SetInput | src/components/support/Chatbot.tsx:144 | the input box takes the typed value and nothing else changes |
| Chatbot.ChatbotState.Send | src/components/support/Chatbot.tsx:48-63 | blank input changes nothing; otherwise the untrimmed input is appended as a user message, the box is cleared, typing starts and a reply is scheduled |
| Chatbot.ChatbotState.DeliverReply | src/components/support/Chatbot.tsx:66-91 | the oldest scheduled reply is appended as a bot message, chosen from the message it answers, which is never blank, and typing stops |
| FlightCard.StopLabel | src/components/flights/FlightCard.tsx:62-66 | "Direct", "1 Stop" or the count followed by " Stops"; the two lemmas below state what it shows |
| FlightCard.StopLabelReadsBack | src/components/flights/FlightCard.tsx:62-66 | a direct flight shows "Direct"; a flight with stops shows a label that reads back as its stop count, plural exactly from two stops on |
| FlightCard.StopLabelInjective | src/components/flights/FlightCard.tsx:62-66 | different stop counts never share a label |
| FlightCard.DiscountBadge | src/components/flights/FlightCard.tsx:82-86 | the badge is shown exactly for a non-empty discount, with that text |
| FlightCard.SeatsBadgeAsWritten | src/components/flights/FlightCard.tsx:88-90 | as written, something is shown exactly for a known seat count below 10, and for a non-zero one it is the warning |
| FlightCard.SeatsWarning | src/components/flights/FlightCard.tsx:89 | the warning text; the lemma below shows it reads back as the count |
| FlightCard.SoldOutShowsStrayZero | src/components/flights/FlightCard.tsx:88-90 | as written, a seat count of 0 puts the text "0" on the card |
| FlightCard.SeatsBadge | src/components/flights/FlightCard.tsx:88-90 | the warning is shown exactly for a known seat count that is non-zero and below 10, stating that count, and otherwise nothing is shown |
| FlightCard.SeatsBadgeDiffersOnlyAtZero | src/components/flights/FlightCard.tsx:88-90 | the intended badge agrees with the written one on every input except a seat count of 0 |
| FlightCard.SeatsWarningStatesCount | src/components/flights/FlightCard.tsx:89 | the warning's number reads back as the seat count |
| FlightCard.StopoverRows | src/components/flights/FlightCard.tsx:147-161 | the stopover section appears exactly for a non-empty list, with one row per layover numbered from 1 in list order |
| FlightCard.StopoversMatchStops | src/components/flights/FlightCard.tsx:147-161 | a flight whose layovers match its stops shows rows exactly when it has stops, numbered 1 to the stop count |
| FlightCard.FlightCardState.constructor | src/components/flights/FlightCard.tsx:32 | a card starts with its details collapsed |
| FlightCard.DetailsButtonLabel | src/components/flights/FlightCard.tsx:103-111 | the button reads "Hide details" exactly while the section is open and "View details" exactly while it is closed |
| FlightCard.FlightCardState.ToggleDetails | src/components/flights/FlightCard.tsx:101 | the details button flips the section, and with it the button's label |
| FlightCard.FlightCardState.Select | src/components/flights/FlightCard.tsx:91 | "Select" hands on the flight's id |
| Text.Trim | src/components/support/Chatbot.tsx:51 | `trim` never lengthens the text, and what it returns neither starts nor ends with whitespace |
| Text.IsBlank | src/components/support/Chatbot.tsx:51 | `!input.trim()`: the trimmed input is empty; the lemma below characterises it |
| Text.ToLower | src/pages/FlightsPage.tsx:185 | `toLowerCase` leaves no ASCII capital and never shortens the text (the dotted capital I becomes two characters) |
| Text.ParseInt | src/pages/FlightsPage.tsx:178 | `parseInt` without a radix: leading whitespace, an optional sign, a "0x" prefix for base 16, then the longest run of digits, with NaN when there is none; the lemma below states what it reads |
| Text.BlankIffAllWhitespace | src/components/support/Chatbot.tsx:51 | `trim` leaves nothing exactly when every character is JavaScript whitespace |
| Text.ToLowerIdempotent | src/components/support/Chatbot.tsx:68 | lower-casing twice is lower-casing once |
| Text.ToLowerAppend | src/components/support/Chatbot.tsx:68 | lower-casing distributes over concatenation |
| Text.RemoveFirst | src/pages/FlightsPage.tsx:178 | `replace` with a string pattern and an empty replacement removes the first occurrence and keeps everything before and after it; without an occurrence the text is unchanged |
| Text.IndexOfIsFirst | src/pages/FlightsPage.tsx:185 | the occurrence `replace` removes is the first one: no occurrence comes before it |
| Text.RemoveFirstKeepsLater | src/pages/FlightsPage.tsx:185 | a second occurrence of the character survives: only the first goes |
| Text.RemoveFirstOfTwoSpaces | src/pages/FlightsPage.tsx:185 | "a b c" with its first space removed is "ab c" |
| Text.RemoveFirstKeepsNoCapital | src/pages/FlightsPage.tsx:185 | removing a character from a text without capitals leaves none |
| Text.ParseIntDecimal | src/pages/FlightsPage.tsx:178 | `parseInt` reads the decimal digits of n, followed by any text that does not continue the number, as n |
| Text.DecimalStringValue | src/pages/FlightsPage.tsx:234 | the decimal digits written for n have the value n |
| Seqs.Keep | src/pages/FlightsPage.tsx:177-198 | `filter`: the result is never longer than the list; the lemmas below state what it keeps |
| Seqs.KeepMembership | src/pages/FlightsPage.tsx:177-198 | `filter` keeps exactly the elements that satisfy the callback |
| Seqs.KeepIsSubsequence | src/pages/FlightsPage.tsx:177-198 | `filter` returns an order-preserving sub-list |
| Seqs.KeepKeep | src/pages/FlightsPage.tsx:177-198 | two successive `filter` calls are one filter by the conjunction of their callbacks |
| Seqs.KeepIdempotent | src/pages/FlightsPage.tsx:177-198 | filtering twice by the same callback is filtering once |
| Seqs.KeepOtherThanMembership | src/components/flights/FlightFilter.tsx:47 | `filter((id) => id !== x)` removes every x and keeps every other element |
| Seqs.KeepNoDuplicates | src/components/flights/FlightFilter.tsx:47 | filtering a duplicate-free list keeps it duplicate-free |

## Left out

- Rendering, styling, icons, scrolling (`scrollIntoView`, `window.scrollTo`), routing and the `location` object: they carry no logic beyond what is modelled.
- Toast calls are modelled by the outcome they report (`RegisterPage.Outcome`, `RegisterPage.ToastTitle`); toast descriptions, the "Flight search completed!" toast and `console.log` calls are left out, since they only display or log.
- `handleFlightSelect` in the results page only logs and shows a toast; the card's `Select` models the id it receives.
- `handleSearch` ignores its search data; only its loading and progress effects are modelled.
- The departure-time selection is collected and emitted by the filter panel, but the results page never applies it, so the model does not apply it either.
- Timers are modelled by their callbacks as methods, which the caller invokes in the order the timers fire. Interval ids, `clearInterval` and `clearTimeout` are not modelled, and neither are the 100 ms, 1000 ms and 1500 ms delays.
- `Date.now()` and `new Date()` are left out. Message ids come from a `now` parameter and timestamps are not stored.
- Chatbot.ChatbotState.DeliverReply: replies wait in a first-in-first-out queue because every reply timer has the same delay. The source's closure captures the input at send time, which is the queued text.
- Browser storage is a string-to-string map. Keys inherited from `Object.prototype` (such as `"constructor"`) in the translation tables, the greetings record and `translations[...]` are left out.
- `toLowerCase` is modelled for ASCII capitals, the Kelvin sign and the dotted capital I only; other characters are kept as they are. This is exact for every comparison made here against ASCII keywords and ids, but not for arbitrary non-Latin capitals.
- `parseInt` is modelled on unbounded integers. Float rounding above 2^53 is left out, and "-0" reads as 0.
- PassengerSelector.PassengerSelectorState.NameChange: requires an index within the name list. In JavaScript an index past the end extends the array with holes, which the UI never does, since it renders one input per existing slot.
- PassengerSelector.PassengerSelectorState.CountChangeKeepsSlots: requires the button for the change to be enabled, as the UI disables the buttons that would not change the count. Counts are natural numbers, whereas a JavaScript number could be negative or fractional, and `Array(n)` rejects those.
- The checkbox branch of `handleInputChange` (RegisterPage.tsx line 33) is not modelled: only text inputs call it, and the terms checkbox has its own handler (`TermsCheckedChange`).
- LanguageProvider.LanguageProviderState.RestoreSaved: models the mount effect, which runs once while the language is still English. On an invalid saved code the source leaves the current language as it is, and at mount that is English.
- RegisterPage.RegisterPageState.Submit: the browser's own form validation is not modelled. The `required` attributes (RegisterPage.tsx lines 105, 121, 154, 170, 197) and `type="email"` (line 149) stop the `<form onSubmit>` of line 91 from submitting, so the MissingInformation outcome and `RegisterPage.EmptyConfirmationIsMismatch` are reachable only when that validation is bypassed.
- Text.DecimalString and Text.IntString write every digit, whereas JavaScript's `${n}` switches to exponent notation from 1e21. `Flight.stops` is a natural number and `seatsLeft` an integer, so a NaN seat count (rendered "NaN") is not modelled. Neither case arises for the loaded flights.
- Timing of the progress intervals: a single interval on its own is cleared by its 1000 ms or 1500 ms timer after about 10 or 15 ticks, before it reaches 100. Overlapping intervals (a search started while the load interval or an earlier search interval still runs) advance the same counter together and can show values up to 107 (`FlightsPageState.ProgressStepBounded`). The model states the interval rule and its bound, and leaves the delays out.
- The `Slider` component's internals (step, thumbs, ordering of the two values) are left out; the range is taken as given.
- The results page's `any`-typed flight records are modelled by the `FlightData.Flight` record, with fields that are absent in the source modelled as Option.

An unreadable price parses to NaN. Every comparison with NaN is false, so
such a flight is dropped (`FlightsPage.UnparsablePriceIsDropped`).

The airline filter normalises names by lower-casing them and removing only
the first space, so "Delta Airlines" becomes "deltaairlines" while the panel
offers the id "delta" (`FlightFilter.AirlineOptionIds`). This is modelled as
written, and `FlightsPage.MockMultiWordPanel` shows the effect on the loaded
list.

## Findings

| source | as written | input that shows it | evidently intended | confidence | as-written member | corrected member |
|---|---|---|---|---|---|---|
| src/components/flights/FlightCard.tsx:88-90 | `{flight.seatsLeft && flight.seatsLeft < 10 && (...)}` evaluates to the number 0 for a seat count of 0, and React renders that number as the text "0" | `seatsLeft = 0` | no badge and no stray text for a sold-out flight | not executed | FlightCard.SoldOutShowsStrayZero | FlightCard.SeatsBadge |
