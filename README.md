# Train journey search: form validation and submission, in Dafny

This project models the decision logic of a small train-journey search page
(a React application) and proves properties of it:

- the search form (`Form`, src/components/SearchForm.tsx): the four raw fields
  (origin, destination, date text, passenger count), the one-way `formChanged`
  flag, the per-field error record and the effects that rewrite it, the
  `isValid` test that enables the button, the submit handler and the
  auto-submit that runs once on mount;
- the past-date test (`DateUtils`, src/utils.ts);
- the journey filter (`JourneySearch`, src/api/searchJourneys.ts) over a
  dataset given as a parameter;
- the page state around one search (`Shell`, src/App.tsx): `loading`,
  `error`, `journeys`, the service call and which view is shown;
- the results component (`Results`, src/components/SearchResults.tsx): error,
  "No results" or a table, and the `dd-mm-yyyy` / `hh:mm` formatters.

`Types` gives the shapes of src/types/types.ts. `Calendar` stands for what the
source asks of JavaScript's `Date`: local midnight, the calendar date of a time
value (Gregorian, by eras of 400 years, proved injective through its inverse)
and the clock time. Time values are local wall-clock milliseconds.
`new Date(text)` is a parameter, `DateContext.parse`, next to the current time
`DateContext.now`. Either it gives a time value or it gives the Invalid Date.

The form is a class whose fields are the source's state. Each edit handler
stores the value and sets `formChanged`. It then runs that field's validation
effect, but only when the value changed, since React re-runs an effect only
when its dependency changes. Each effect does nothing while `formChanged` is
false. `Mount` is the first commit. The auto-submit reads the first render's
values, kept in the constant `initial`, and then the four validation effects
run. A `mounted` flag keeps the auto-submit to one run. The edits require it:
React commits the first render, and runs its effects, before it handles any
input event.

The code's quirks are kept as they are:

- `isValid` does not test the location pattern, but the submit handler does.
- The date rule accepts today.
- A non-empty date text that does not parse counts as not in the past.
- The auto-submit only uses truthiness. It refuses 0 passengers but accepts
  negative counts, past dates and places with digits.

Details of the code that the model keeps:

- `\s` in the location pattern also matches tabs, line breaks, the no-break
  space and the other Unicode spaces, not only the space character.
- A submitted request can carry a date that did not parse. Its search then
  finds nothing.
- The auto-submit changes no field, so it never sets `formChanged`.

## Model

| member | source | states |
|---|---|---|
| Calendar.StartOfDay | src/utils.ts:3 | `setHours(0,0,0,0)` gives a midnight at or before the time value, less than a day before it |
| Calendar.StartOfDayUnique | src/utils.ts:3 | that midnight is the only multiple of a day in the 24 hours up to the time value |
| Calendar.SameDayNumberIffSameStart | src/utils.ts:3 | two time values share a day number exactly when they share a midnight |
| Calendar.SameStartIffWithinDay | src/utils.ts:3 | a time value shares another's midnight exactly when it lies between that midnight and the next |
| Calendar.CivilFromDays | src/api/searchJourneys.ts:45-48 | the `getMonth` value of any day lies in 0..11 and `getDate` in 1..31 |
| Calendar.DaysFromCivilFromDays | src/api/searchJourneys.ts:45-48 | counting back from the year, month and day of a day gives that day again |
| Calendar.CivilFromDaysInjective | src/api/searchJourneys.ts:45-48 | two days have the same year, month and day exactly when they are the same day |
| Calendar.Civil | src/api/searchJourneys.ts:45-48 | `getMonth` of a time value lies in 0..11, `getDate` in 1..31, and the date counts back to the time value's day |
| Calendar.SameCivilIffSameStart | src/api/searchJourneys.ts:45-48 | two time values have equal year, month and day exactly when they share local midnight |
| Calendar.CivilConstantOverDay | src/api/searchJourneys.ts:45-48 | every time value between a midnight and the next has the same calendar date |
| Calendar.Hours | src/components/SearchResults.tsx:36 | `getHours` lies in 0..23 |
| Calendar.Minutes | src/components/SearchResults.tsx:37 | `getMinutes` lies in 0..59 |
| DateUtils.IsDateInPast | src/utils.ts:1-5 | a date is in the past exactly when it is a valid date whose day comes before today; the Invalid Date never is |
| DateUtils.PastIffBeforeMidnight | src/utils.ts:1-4 | a date is in the past exactly when it is before the midnight that starts today |
| DateUtils.PastIffEarlierDay | src/utils.ts:2-4 | in the past means earlier than now and on another calendar day |
| DateUtils.TodayIsNotPast | src/utils.ts:3-4 | any moment of today's date, earlier today included, is not in the past |
| DateUtils.NotPastIsUpwardClosed | src/utils.ts:4 | if a date is not in the past, no later date is |
| DateUtils.TimeOfDayIrrelevant | src/utils.ts:2-3 | two times on the same day give the same answer for every date |
| JourneySearch.ToLower | src/api/searchJourneys.ts:50-51 | `toLowerCase` keeps the length and lowers each character on its own |
| JourneySearch.ToLowerEqualIff | src/api/searchJourneys.ts:50-51 | lower-cased strings are equal exactly when the strings are equal letter by letter ignoring case |
| JourneySearch.ToLowerIdempotent | src/api/searchJourneys.ts:50-51 | lower-casing twice is lower-casing once |
| JourneySearch.SameDay | src/api/searchJourneys.ts:42-48 | the departure has the requested year, month and day exactly when the requested date is valid and the departure lies between its midnight and the next |
| JourneySearch.Matches | src/api/searchJourneys.ts:50-52 | a journey matches exactly when origin and destination equal the requested ones letter by letter ignoring case and it departs on the requested day |
| JourneySearch.SearchJourneys | src/api/searchJourneys.ts:41-53 | every journey returned is in the dataset and matches origin, destination (ignoring case) and day, and every matching dataset journey is returned |
| JourneySearch.SearchIsSubsequence | src/api/searchJourneys.ts:41 | the result is a subsequence of the dataset, in dataset order |
| JourneySearch.SearchCounts | src/api/searchJourneys.ts:41-53 | each matching journey appears as often as in the dataset, and no other journey appears |
| JourneySearch.DepartsOnRequestedDay | src/api/searchJourneys.ts:42-52 | a returned journey departs between the requested day's midnight and the next |
| JourneySearch.InvalidDateFindsNothing | src/api/searchJourneys.ts:43-48 | a request whose date is the Invalid Date finds nothing |
| JourneySearch.SearchIgnoresCaseAndPassengers | src/api/searchJourneys.ts:41-53 | requests differing only in the letter case of the places or in passenger count find the same journeys |
| JourneySearch.LowerCasedRequestFindsSame | src/api/searchJourneys.ts:50-51 | lower-casing the requested places changes nothing |
| Results.DigitChar | src/components/SearchResults.tsx:28 | a digit character denotes its digit |
| Results.NatToString | src/components/SearchResults.tsx:28-29 | `toString` of a count gives digits, one exactly for values below 10, and no leading zero |
| Results.IntToString | src/components/SearchResults.tsx:28-30 | `toString` of an integer gives digits that read back as a non-negative value, or a minus sign before digits that read back as the negated value; no leading zero from 10 upward in magnitude |
| Results.NatToStringRoundTrip | src/components/SearchResults.tsx:28-29 | the digits of a number read back as that number |
| Results.LeadingZero | src/components/SearchResults.tsx:28-29 | a '0' put in front of digits does not change their value |
| Results.PadStart | src/components/SearchResults.tsx:28-29 | `padStart` leaves a long enough string unchanged and otherwise puts fill characters in front up to the length |
| Results.TwoDigits | src/components/SearchResults.tsx:28-29 | `padStart(2,"0")` gives two digits denoting the value: '0' before one digit, two digits unchanged |
| Results.FormatDate | src/components/SearchResults.tsx:27-32 | `-` at indices 2 and 5; the fields read back as the day, the 0-based month plus 1 and the year (after a minus sign for a negative year), with no leading zero in a year of two or more digits; a 4-digit year gives 10 characters |
| Results.YearDigits | src/components/SearchResults.tsx:30 | a year from 1000 to 9999 is written with four digits |
| Results.FormatTime | src/components/SearchResults.tsx:35-39 | the text has length 5 with ':' at index 2, and its fields read back as the hours and the minutes of the time value |
| Results.RowOf | src/components/SearchResults.tsx:56-74 | a row shows the journey's places; its date cell reads back as the departure's day, month and year (a negative year after a minus sign; 10 characters for a 4-digit year) and its time cells as the departure and arrival times; the price keeps the journey's amount, in euros |
| Results.MapSeq | src/components/SearchResults.tsx:56 | `map` keeps the length and applies its function to each element in order |
| Results.Rows | src/components/SearchResults.tsx:56 | one row per journey, in input order |
| Results.Render | src/components/SearchResults.tsx:10-24 | a non-empty error wins and is shown after the prefix; no error and no journeys shows "No results"; otherwise a table of one row per journey |
| Form.IsValidLocation | src/components/SearchForm.tsx:105 | the pattern test holds exactly for non-empty text of ASCII letters and `\s` characters only |
| Form.OriginError | src/components/SearchForm.tsx:56-66 | the origin message is shown exactly when the origin is missing or fails the pattern |
| Form.DestinationError | src/components/SearchForm.tsx:68-78 | the destination message is shown exactly when the destination is missing or fails the pattern |
| Form.DateError | src/components/SearchForm.tsx:80-90 | a missing or empty date is always reported, and the only message is the date message |
| Form.DateRuleAcceptsTodayOnward | src/components/SearchForm.tsx:82 | the date rule passes today, any later time and an unparsed text, and reports every earlier day |
| Form.PassengersError | src/components/SearchForm.tsx:92-102 | the passengers message is shown exactly when the count is missing or outside 1..10 |
| Form.FieldErrors | src/components/SearchForm.tsx:56-102 | the four rules report nothing exactly when `isValid` holds and both places also pass the location pattern |
| Form.IsValid | src/components/SearchForm.tsx:107-114 | `isValid` holds exactly when both places are non-empty and the date and passengers rules pass; the pattern is not tested |
| Form.IsValidAcceptsNonLetterPlace | src/components/SearchForm.tsx:107-114 | `isValid` stays true for the origin "A1", which the origin rule refuses |
| Form.AutoSubmits | src/components/SearchForm.tsx:39-45 | the auto-submit test holds exactly for non-empty places and date and a count below 0 or in 1..10 |
| Form.RequestOf | src/components/SearchForm.tsx:46-51 | the request keeps the places and the count, so that with the date text it gives the form back, and carries the parse of the date text |
| Form.SubmittableAutoSubmits | src/components/SearchForm.tsx:38-53 | every form the submit handler accepts also passes the auto-submit test |
| Form.AutoSubmitsInvalidDeepLink | src/components/SearchForm.tsx:38-53 | a deep link with digits in both places, a past date and -3 passengers is auto-submitted while all four rules fail |
| Form.SearchForm.constructor | src/components/SearchForm.tsx:12-27 | the fields hold the URL's values, `formChanged` is false and every error is null |
| Form.SearchForm.OriginEffect | src/components/SearchForm.tsx:56-66 | does nothing before the first edit, then sets the origin slot from its rule and leaves the others |
| Form.SearchForm.DestinationEffect | src/components/SearchForm.tsx:68-78 | the same for the destination slot |
| Form.SearchForm.DateEffect | src/components/SearchForm.tsx:80-90 | the same for the date slot |
| Form.SearchForm.PassengersEffect | src/components/SearchForm.tsx:92-102 | the same for the passengers slot |
| Form.SearchForm.Mount | src/components/SearchForm.tsx:38-102 | on the first call only, submits the first render's values exactly when they pass the auto-submit test; the effects that follow find no edit yet and change no error |
| Form.SearchForm.EditOrigin | src/components/SearchForm.tsx:166-169 | on a mounted form, stores the origin, sets `formChanged`, and when the value changed rewrites only the origin slot |
| Form.SearchForm.EditDestination | src/components/SearchForm.tsx:183-186 | the same for the destination |
| Form.SearchForm.EditDate | src/components/SearchForm.tsx:116-119 | the same for the date |
| Form.SearchForm.EditPassengers | src/components/SearchForm.tsx:216-219 | the same for the passengers |
| Form.SearchForm.Submit | src/components/SearchForm.tsx:131-156 | a request exactly when all four field rules pass, carrying the raw places and count and the parsed date |
| Form.SearchForm.SubmittableShowsNoPlaceOrPassengerError | src/components/SearchForm.tsx:56-102 | when submit would go through, no place or passengers error is on screen |
| Shell.ScreenOf | src/App.tsx:31-35 | the loader exactly while loading, otherwise the results component rendered from the current journeys and error: the error text, "No results" or one row per journey |
| Shell.App.constructor | src/App.tsx:9-11 | no journeys, not loading, no error |
| Shell.App.StartSearch | src/App.tsx:14-15 | loading, error cleared, journeys kept |
| Shell.App.FinishSearch | src/App.tsx:16-24 | success replaces the journeys; failure sets the generic message and keeps them; loading is false after both |
| Shell.App.HandleSearchSubmit | src/App.tsx:13-25 | the service is called once with the request unchanged; then the journeys are its results, or the old ones with the generic error |
| Shell.App.SubmitForm | src/App.tsx:30 | a click searches exactly when the form passes every rule, and then shows what the filter finds for the form's request |
| Shell.App.MountForm | src/App.tsx:30 | the first commit searches exactly once for a deep link that passes the auto-submit test, and later mounts search nothing |

## Left out

- URL binding through the `nuqs` library (`useQueryState`, `parseAsInteger`): the fields are plain optional values, initialised from a given `RawForm`. Nothing is written back to the URL.
- The `useLatest` hook: its one effect here is that the auto-submit reads the first render's values, kept in `SearchForm.initial`.
- Parsing of date texts and time zones: `new Date(text)` is the parameter `DateContext.parse`. Time values are local wall-clock milliseconds. The limit of ±8.64e15 ms on JavaScript time values is not modelled.
- `toLowerCase` on characters outside ASCII: only the letters A to Z are lowered.
- `Number` of the passengers input text: `EditPassengers` takes an integer. NaN and fractional counts are not modelled.
- Prices: float amounts, `toLocaleString` currency formatting, and the mock dataset with its `new Date()`-relative times and per-passenger prices. The dataset is a parameter, and a row keeps the unformatted amount with the currency code "EUR".
- Journeys whose departure or arrival is an Invalid Date: they are kept as valid time values.
- Promises, `async`/`await` and the one-second `setTimeout`: a search is one step ending in `Fetched` or `Rejected`. Overlapping searches and a result arriving after the page is gone are not modelled.
- React StrictMode, which runs mount effects twice in development builds.
- `e.preventDefault()` in the submit handler, the commented-out branches of `handleDateChange` and `handleSubmit`, the JSX markup and CSS, src/main.tsx, and the presentational widgets (InputField, DateField, NrOfPassengersField, SearchButton).
- Form.SearchForm.Valid: the date slot is only known to hold the date message or null, not to match the current date. A date shown as valid can fall into the past after midnight, with no effect re-run.
