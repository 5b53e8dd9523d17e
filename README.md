# India IPO tracker — a Dafny model of its logic

The tracker is a browser dashboard for Indian IPOs. It has three parts.

- **IPO feed.** It asks a generative-language service for a JSON array of listings. It strips Markdown code fences from the answer and parses it. On any failure it falls back to a built-in table of 22 listings.
- **Dashboard.** It caches the last feed result in browser storage under one key. It shows the listings by tab (Ongoing, Upcoming, Closed), with a type filter on the Closed tab. It also derives display text from each listing: safe rendering of any value, the total subscription multiple, and profit or loss of the listing gain.
- **Tools and Academy.** Tools holds the financial calculators: the SIP (systematic investment plan) future value and the IPO lot and allotment estimators. Academy holds a searchable glossary and a three-lives quiz over static tables.

The model has these modules:

| module | file | models |
|---|---|---|
| `Wrappers` | wrappers.dfy | `Option` |
| `JsonValues` | json.dfy | the JSON values of the feed, JavaScript truthiness, property access, and the host's `JSON.parse`/`JSON.stringify`/`String(number)` as a `Codec` parameter |
| `JsBuiltins` | js_builtins.dfy | the string built-ins the code relies on: `trim`, global and first-occurrence `replace`, `includes`, `toLowerCase`, `filter`, `parseFloat`, `toFixed`, `Math.round` |
| `Types` | types.dfy | the record types and the JSON shape of a listing |
| `Constants` | constants.dfy | the glossary, academy, quiz and loading-tip tables |
| `GeminiService` | gemini_service.dfy | `fetchIPOData` after the service call, and the fallback table |
| `Dashboard` | dashboard.dfy | the cache cell, `safeRender`, `getTotalSub`, `filteredData`, the listing-gain classification, and the dashboard's state as a class |
| `Tools` | tools.dfy | the SIP calculator and the IPO estimators |
| `Academy` | academy.dfy | the glossary search and accordion, and the quiz as a class |

The calculators are modelled over exact `real` arithmetic. The SIP figures come in two versions. The members named `…AsWritten` follow the code: NaN, and the infinities a division by zero gives, are `None`. The others are corrected: at rate 0 they use the formula's limit, where the code shows NaN (see Findings).

The SIP formula is checked against an independent reference, `Tools.Schedule`. That function pays in one instalment a month and grows the balance month by month.

The dashboard's storage and the two components' `useState` fields are class fields. The handlers are methods that update them.

Two behaviours of the code are worth stating plainly:

- **Caching the fallback.** The fallback table is cached like any other result (`components/Dashboard.tsx:43-51`). `DashboardState.Refresh` does the same.
- **Unchecked elements.** The feed returns a parsed non-empty array without checking its elements. The dashboard reads their fields defensively, with one exception, listed under Findings.

## Model

| member | source | states |
|---|---|---|
| JsonValues.Get | components/Dashboard.tsx:86 | a property is defined exactly when the value is an object with that own key |
| JsonValues.GetOpt | components/Dashboard.tsx:243 | optional chaining: undefined on undefined or null, otherwise the plain property read |
| JsBuiltins.TrimStart | services/geminiService.ts:501 | leading white space is dropped: the result is a suffix of the input, the dropped part is all white space, and the result does not start with white space |
| JsBuiltins.TrimEnd | services/geminiService.ts:501 | trailing white space is dropped: the result is a prefix, the dropped part is all white space, and the result does not end with white space |
| JsBuiltins.Trim | services/geminiService.ts:501 | the result neither starts nor ends with white space |
| JsBuiltins.TrimIsInfix | services/geminiService.ts:501 | `trim` cuts only white space: the result is a slice of the input with only white space on either side |
| JsBuiltins.TrimIdempotent | services/geminiService.ts:501 | trimming twice is trimming once |
| JsBuiltins.TrimUnchanged | services/geminiService.ts:501 | text with no white space at either end is kept as it is |
| JsBuiltins.TrimStartNoSpace | services/geminiService.ts:501 | text that does not start with white space keeps its start |
| JsBuiltins.IncludesIff | components/Academy.tsx:163-164 | `includes` holds exactly when the searched text occurs at some position |
| JsBuiltins.IncludesPrefixOf | services/geminiService.ts:501 | text that includes `p + q` includes `p` |
| JsBuiltins.NotIncludes | services/geminiService.ts:501 | text that never has the pattern's first character does not include the pattern |
| JsBuiltins.IncludesEmpty | components/Academy.tsx:163-164 | every text includes the empty text |
| JsBuiltins.RemoveAll | services/geminiService.ts:501 | a global `replace(/p/g, '')` never lengthens the text |
| JsBuiltins.RemoveAllUnchangedIff | services/geminiService.ts:501 | a global delete leaves the text unchanged exactly when the pattern does not occur in it |
| JsBuiltins.RemoveAllSkips | services/geminiService.ts:501 | a global delete keeps a prefix that never has the pattern's first character |
| JsBuiltins.RemoveAllFront | services/geminiService.ts:501 | a global delete removes an occurrence at the front |
| JsBuiltins.RemoveFirst | components/Dashboard.tsx:244 | `replace('%', '')` with a string pattern leaves text without the character unchanged, and otherwise removes exactly one character |
| JsBuiltins.RemoveFirstSplit | components/Dashboard.tsx:244 | only the first occurrence is removed; the text before it and everything after it are kept |
| JsBuiltins.ToLowerCase | components/Academy.tsx:163-164 | same length, each character lowered, and no upper-case ASCII letter left |
| JsBuiltins.ToLowerCaseIdempotent | components/Academy.tsx:163-164 | lowering twice is lowering once |
| JsBuiltins.Filter | components/Dashboard.tsx:86 | `filter` keeps an element exactly when it is in the input and passes the test, and the result is never longer |
| JsBuiltins.FilterIsSubsequence | components/Dashboard.tsx:86 | `filter` keeps the input's order: the result is a subsequence |
| JsBuiltins.FilterAll | components/Academy.tsx:162-165 | when every element passes, `filter` returns the input |
| JsBuiltins.FilterAppend | components/Dashboard.tsx:122 | filtering a concatenation is concatenating the filtered parts |
| JsBuiltins.FilterSame | components/Academy.tsx:162-165 | two tests that agree everywhere filter alike |
| JsBuiltins.FilterFilter | components/Dashboard.tsx:86-91 | filtering twice in a row equals filtering once by the conjunction of the two tests |
| JsBuiltins.DigitChar | components/Dashboard.tsx:129 | each digit value has a digit character that reads back as that value |
| JsBuiltins.LeadingDigits | components/Dashboard.tsx:122 | the longest prefix made of digits |
| JsBuiltins.NatText | components/Dashboard.tsx:129 | the decimal digits of a number read back as that number |
| JsBuiltins.ZeroPadValue | components/Dashboard.tsx:129 | left-padding with zeros keeps the value of a digit string |
| JsBuiltins.DigitsValueAppend | components/Dashboard.tsx:122 | the value of concatenated digit strings is positional |
| JsBuiltins.ParseFloat | components/Dashboard.tsx:122 | `parseFloat` gives NaN exactly when, after leading white space and an optional sign, the text starts neither with a digit nor with a '.' followed by a digit |
| JsBuiltins.ParseUnsignedNone | components/Dashboard.tsx:244 | past the sign, no number is read exactly when no digit starts one |
| JsBuiltins.ToFixed | components/Dashboard.tsx:129 | `toFixed` never prints the empty text |
| JsBuiltins.ToFixedForm | components/Dashboard.tsx:129 | `x.toFixed(d)` is a '-' exactly for a negative `x`, then the whole-part digits with no leading zero, then, when `d > 0`, a '.' and exactly `d` digits; the two digit runs spell `|x| * 10^d` rounded, so they are its quotient and remainder by `10^d` |
| JsBuiltins.FixedDigits | components/Dashboard.tsx:129 | the digits before the point have no leading zero, there are exactly `d` after it, and together they spell the rounded number |
| JsBuiltins.FixedTail | components/Tools.tsx:295 | with `d > 0` the text ends in a '.' and `d` digits, with a digit before the point |
| JsBuiltins.NatTextLead | components/Dashboard.tsx:129 | the digits of a positive number do not start with 0 |
| JsBuiltins.DigitsValueBound | components/Dashboard.tsx:129 | `k` digits are worth less than `10^k` |
| JsBuiltins.ToFixedRoundTrip | components/Dashboard.tsx:129 | `parseFloat(x.toFixed(d))` is `x` rounded to `d` decimals, and that is within half a unit of the last printed digit of `x` |
| JsBuiltins.WholeParses | components/Dashboard.tsx:244 | `parseFloat` of a digit string is its value |
| JsBuiltins.SplitParses | components/Dashboard.tsx:122 | `parseFloat` of "a.b" is the digits of a and b scaled by the fraction length |
| JsBuiltins.SignedParse | components/Dashboard.tsx:244 | `parseFloat` of an optionally '-'-signed number body is the signed value |
| JsBuiltins.PlusParse | components/Dashboard.tsx:244 | `parseFloat` of a '+'-signed number body is the value of the body |
| JsBuiltins.PositiveParse | components/Dashboard.tsx:122 | `parseFloat` of a number body without a sign is its value |
| JsBuiltins.NegativeParse | components/Dashboard.tsx:244 | `parseFloat` of "-" and a number body is the negated value |
| JsBuiltins.ShiftUnshift | components/Dashboard.tsx:129 | dividing by `10^d` undoes multiplying by it |
| JsBuiltins.ShiftMono | components/Dashboard.tsx:129 | dividing by `10^d` keeps order |
| JsBuiltins.Round | components/Tools.tsx:298 | `Math.round(x)` is the whole number in (x - 0.5, x + 0.5], so a tie goes up |
| Types.StatusOf | types.ts:1 | a status read off a string is named by that string |
| Types.StatusNames | types.ts:1 | each status has exactly one name: reading its name back gives the status, and distinct statuses have distinct names |
| Types.TypeOf | types.ts:2 | an issue type read off a string is named by that string |
| Types.TypeNames | types.ts:2 | each issue type has exactly one name, which reads back to it |
| Types.StringField | types.ts:4-26 | a string field is read exactly when the key is present with a string value |
| Types.NumberField | types.ts:10 | a number field is read exactly when the key is present with a number value |
| Types.OptionalField | types.ts:22-25 | an optional field is absent exactly when the key is missing; when present it must be a string |
| Types.SubscriptionOf | types.ts:15-19 | subscription figures are read only off an object |
| Types.FromJson | types.ts:4-26 | a listing is read only off an object |
| Types.NameFields | types.ts:5-6 | a listing's JSON carries its id and company name |
| Types.KindFields | types.ts:7-8 | a listing's JSON carries its type and status names |
| Types.OfferFields | types.ts:9-10 | a listing's JSON carries its price band and lot size |
| Types.DemandFields | types.ts:11-19 | a listing's JSON carries its issue size and the subscription object (lines 11 and 15-19) |
| Types.DateFields | types.ts:12-14 | a listing's JSON carries its three dates |
| Types.MarketFields | types.ts:20-21 | a listing's JSON carries its GMP and expected gain |
| Types.OptionalFields | types.ts:22-25 | each optional field is in a listing's JSON exactly when it is set |
| Types.FromToJson | types.ts:4-26 | a listing turned into JSON reads back as the same listing |
| Constants.GlossaryTermsDistinct | constants.tsx:4-53 | twelve glossary entries, and no term appears twice |
| Constants.AcademyWellFormed | constants.tsx:55-157 | four timeline entries, three evolution stages, four learning sections with distinct ids and three topics each |
| Constants.QuizWellFormed | constants.tsx:159-240 | ten questions numbered 1 to 10 in order, each with four options and a correct answer that indexes one of them |
| Constants.LoadingTipsCount | constants.tsx:242-249 | six loading tips, so there is always one to show |
| GeminiService.RecordsOf | services/geminiService.ts:7-425 | the fallback table as JSON: one record per listing, in order, each the JSON of its listing |
| GeminiService.FetchOr | services/geminiService.ts:494-516 | with a non-empty fallback the feed is never empty |
| GeminiService.Cleanup | services/geminiService.ts:500-501 | the cleaned text is never longer than the response text, and neither starts nor ends with white space |
| GeminiService.FetchReturnsParsed | services/geminiService.ts:501-511 | a response whose cleaned text parses to a non-empty array yields that array unchanged, elements unchecked |
| GeminiService.FetchFallsBack | services/geminiService.ts:494-498 | every other outcome yields the fallback: an exception, no text, empty text, text that does not parse, a non-array, or an empty array (lines 494-498, 503-509, 513-516) |
| GeminiService.FetchIPOData | services/geminiService.ts:492-517 | `fetchIPOData` never returns an empty list, since the fallback table holds 22 records |
| GeminiService.CleanupPlain | services/geminiService.ts:501 | text with no backtick triple is only trimmed |
| GeminiService.CleanupUnfenced | services/geminiService.ts:501 | text without a backtick and without white space at either end passes the clean-up unchanged |
| GeminiService.CleanupFenced | services/geminiService.ts:501 | a body wrapped in a "```json" … "```" fence comes out as the trimmed body |
| GeminiService.MockRecordsCount | services/geminiService.ts:7-425 | the fallback table holds 22 records |
| GeminiService.MockRecordsShape | services/geminiService.ts:7-425 | the fallback records are the JSON of the 22 listings, in order |
| GeminiService.MockIdsDistinct | services/geminiService.ts:7-425 | 22 fallback listings with pairwise distinct ids |
| GeminiService.MockClosedComplete | services/geminiService.ts:7-425 | every closed fallback listing has a listing gain and a listing price, and every listing names its registrar and lead manager |
| Dashboard.ReadCache | components/Dashboard.tsx:54-68 | initial data exists exactly when the key holds non-empty text that parses to a value whose `data` is an array, and then those are the records; the time stamp is the stored one when that is truthy, and `now` otherwise |
| Dashboard.CacheEntry | components/Dashboard.tsx:46-50 | the object written to storage is a (truthy) object whose `data` is the records and whose `timestamp` is the fetch time |
| Dashboard.CacheRoundTrip | components/Dashboard.tsx:43-68 | with a round-tripping codec, what a fetch writes reads back as the same records and time, whenever the time is not 0 |
| Dashboard.CachedLabelNeverNever | components/Dashboard.tsx:77-82 | records seeded from the cache always come with a truthy time stamp (line 61), so the label is never 'Never' |
| Dashboard.CacheSeedsSynced | components/Dashboard.tsx:54-68 | the cache's initial data, read again at its own time, is the same |
| Dashboard.Records | components/Dashboard.tsx:74 | no query data gives no records; otherwise the records are the query's |
| Dashboard.LastUpdatedLabel | components/Dashboard.tsx:77-82 | the label is 'Never' exactly when there is no query data or its time stamp is falsy; otherwise it formats that time stamp |
| Dashboard.JsString | components/Dashboard.tsx:111 | `String` of a string is the string itself, of a boolean the literal "true" or "false", and of a number the host's number text |
| Dashboard.SafeRender | components/Dashboard.tsx:102-112 | null and undefined render as "", and a string renders as itself |
| Dashboard.SafeRenderObject | components/Dashboard.tsx:104-110 | with a round-tripping codec, an object or array renders as "" exactly when stringifying throws, and otherwise as text that parses back to it |
| Dashboard.StripDecoration | components/Dashboard.tsx:122 | no 'x', 'X', ',' or white space is left |
| Dashboard.Clean | components/Dashboard.tsx:118-124 | a number is kept as it is, a value that is neither number nor string counts 0, and a string that does not read as a number (NaN) counts 0 |
| Dashboard.SubTotal | components/Dashboard.tsx:127 | a value that is not an object, or an object with none of the three figures, totals 0 |
| Dashboard.GetTotalSub | components/Dashboard.tsx:115-133 | the subscription figure is never empty |
| Dashboard.TotalSubMeaning | components/Dashboard.tsx:115-133 | "N/A" exactly for an undefined, falsy or non-object argument; otherwise the text ends in '.', one digit and 'x', and the part before the 'x' reads back as the total rounded to one decimal, within 0.05 of the total |
| Dashboard.CleanDecimal | components/Dashboard.tsx:118-124 | a figure "a.bx" cleans to the number a.b |
| Dashboard.StripNumber | components/Dashboard.tsx:122 | stripping "a.bx" leaves "a.b" |
| Dashboard.ExampleFigures | components/Dashboard.tsx:118-124 | "12.5x", "4.2x" and "1.1x" clean to 12.5, 4.2 and 1.1 |
| Dashboard.ExampleFixed | components/Dashboard.tsx:129 | 17.8 to one decimal prints as "17.8" |
| Dashboard.TotalSubExample | components/Dashboard.tsx:127-129 | the subscription of fallback listing mock-2 (services/geminiService.ts:36) shows as "17.8x" |
| Dashboard.FilteredDataMeaning | components/Dashboard.tsx:85-94 | a record is shown exactly when it has the active tab's status and, on the Closed tab with a type chosen, that type; the shown records keep their order |
| Dashboard.FilteredData | components/Dashboard.tsx:85-94 | the corrected filter shows no more records than there are, each one of them with the active tab's status, and never a null record |
| Dashboard.FilteredDataAsWritten | components/Dashboard.tsx:85-94 | the code as written throws exactly when a record is null, and otherwise shows what the corrected filter shows |
| Dashboard.NullRecordThrows | components/Dashboard.tsx:86 | a response "[null]" passes the feed as one record, and the filter as written then throws |
| Dashboard.FetchNullArray | services/geminiService.ts:501-511 | the feed returns the single null record of "[null]" |
| Dashboard.ListingGainValue | components/Dashboard.tsx:242-244 | a listing without a listing gain has gain value 0 |
| Dashboard.IsProfit | components/Dashboard.tsx:242-245 | a listing without a listing gain counts as a profit |
| Dashboard.PercentGain | components/Dashboard.tsx:243-245 | a gain "n%" or "-n%" has value n or -n, and is a loss exactly when it is negative and not zero |
| Dashboard.UnreadableGainIsProfit | components/Dashboard.tsx:242-245 | a listing gain whose text, once its first '%' is removed, does not start a number has value 0 (the `|| 0` fallback) and counts as a profit |
| Dashboard.TbaIsProfit | components/Dashboard.tsx:242-245 | a listing gain "TBA" has value 0 and counts as a profit |
| Dashboard.DecimalGain | components/Dashboard.tsx:242-245 | a gain "a.b%", "-a.b%" or "+a.b%" has value a.b with that sign, and is a loss exactly when the sign is '-' and the digits are not all zero |
| Dashboard.GainValueOf | components/Dashboard.tsx:244 | a gain text made of a number text and "%" has the value `parseFloat` gives the number text |
| Dashboard.RemovePercent | components/Dashboard.tsx:244 | removing the first '%' from a number text followed by "%" leaves the number text |
| Dashboard.DashboardState.constructor | components/Dashboard.tsx:29-68 | first render (state at lines 29-31, cache read at lines 54-68): Ongoing tab, type filter 'All', nothing selected, the query seeded from the cache and in step with it |
| Dashboard.DashboardState.Refresh | components/Dashboard.tsx:43-52 | a fetch stores `{data, timestamp}` under the cache key and makes it the query's data, fallback included; when stringifying throws, storage and query stay as they were; the other fields are kept; with a non-empty fallback the records are non-empty; with a round-tripping codec, query and storage stay in step |
| Dashboard.DashboardState.Store | components/Dashboard.tsx:45-51 | the write half of the query function: the storage entry and the query's new data, or nothing when stringifying throws; with a round-tripping codec, query and storage stay in step |
| Dashboard.DashboardState.SetActiveTab | components/Dashboard.tsx:188 | a tab button changes only the tab; the grid becomes that tab's listings |
| Dashboard.DashboardState.SetClosedFilter | components/Dashboard.tsx:209 | a type button changes only the type filter; the grid follows it |
| Dashboard.DashboardState.SelectIPO | components/Dashboard.tsx:250 | a card click opens that listing's details and changes nothing else |
| Dashboard.DashboardState.CloseDetails | components/Dashboard.tsx:351 | the backdrop and close buttons (lines 351, 371, 461) close the details and change nothing else |
| Tools.Pow | components/Tools.tsx:57 | a base of at least 1 gives a power of at least 1 |
| Tools.MonthlyRate | components/Tools.tsx:55 | the monthly rate times 1200 is the yearly percentage |
| Tools.Months | components/Tools.tsx:56 | a year or more is at least twelve instalments |
| Tools.TotalInvested | components/Tools.tsx:58 | a non-negative instalment gives a non-negative invested amount |
| Tools.TotalValueAsWritten | components/Tools.tsx:57 | the formula as written is undefined (NaN) exactly at rate 0 |
| Tools.TotalValue | components/Tools.tsx:57 | the corrected total value: at a non-zero rate it is the formula as written, and at rate 0 it is the instalments paid |
| Tools.ScheduleClosedForm | components/Tools.tsx:54-57 | for every rate, the closed form `P((1+i)^n - 1)(1+i)` equals `i` times the month-by-month balance |
| Tools.MonthStep | components/Tools.tsx:54-57 | the closed form carries over one instalment and one month of growth |
| Tools.TotalValueIsSchedule | components/Tools.tsx:55-57 | the total value is what the month-by-month reference says the plan is worth |
| Tools.ScheduleAtZero | components/Tools.tsx:56-58 | at rate 0 the reference balance is the instalments |
| Tools.ZeroRateIsNaN | components/Tools.tsx:55-71 | at rate 0 the code as written gives NaN for the total value, the returns and the invested share, while the plan is worth exactly its instalments |
| Tools.AsWrittenAgrees | components/Tools.tsx:57-71 | at every non-zero rate the returns and the invested share as written equal the corrected ones |
| Tools.ScheduleAtLeastPaid | components/Tools.tsx:57-58 | at a non-negative rate the balance is at least what was paid, and strictly more once a positive rate applies to a positive instalment |
| Tools.ScheduleOfNothing | components/Tools.tsx:57 | paying nothing in, the plan is worth nothing |
| Tools.EstimatedReturnsAsWritten | components/Tools.tsx:59 | the returns as written are NaN exactly at rate 0 |
| Tools.EstimatedReturns | components/Tools.tsx:59 | the corrected returns are 0 at rate 0 |
| Tools.ReturnsNonNegative | components/Tools.tsx:59 | the returns, shown with a leading '+' (line 220), are not negative at a positive rate, and are positive once something is paid in |
| Tools.InvestedPercentageAsWritten | components/Tools.tsx:71 | the share as written is NaN or infinite exactly at rate 0 or where the total value is 0 |
| Tools.InvestedPercentage | components/Tools.tsx:71 | the corrected share is undefined exactly when the total value is 0, and at rate 0 it is 100 whenever defined |
| Tools.InvestedShareBounds | components/Tools.tsx:71 | at a positive rate the share is defined exactly when something is paid in, and then lies strictly between 0 and 100 |
| Tools.ShareBelowWhole | components/Tools.tsx:71 | a positive part of a larger whole is strictly between 0 and 100 percent of it |
| Tools.LotValue | components/Tools.tsx:235 | non-negative inputs give a non-negative lot value |
| Tools.LotValueFacts | components/Tools.tsx:235 | the lot value is 0 exactly when a field is 0, and grows with either field |
| Tools.Probability | components/Tools.tsx:236 | the chance lies in (0, 100], and above one subscription it is exactly 100 divided by the rate |
| Tools.ProbabilityAntitone | components/Tools.tsx:236 | a more subscribed issue never gives a better chance |
| Tools.DisplayedChance | components/Tools.tsx:295 | "0" when no positive rate is entered |
| Tools.DisplayedChanceClose | components/Tools.tsx:295 | for a positive rate the text shown has no sign and exactly two decimals, and reads back within 0.005 of the chance |
| Tools.OneInN | components/Tools.tsx:298 | the "1 in N" figure is at least 1 |
| Tools.OneInNNearest | components/Tools.tsx:298 | from a rate of one half on, N is the rate rounded to the nearest whole number, ties upward; below that N is 1 |
| Academy.FilteredTerms | components/Academy.tsx:162-165 | the search never lists more entries than the glossary has |
| Academy.FilteredTermsMeaning | components/Academy.tsx:162-165 | an entry is listed exactly when its lowercased term or definition contains the lowercased search; the list keeps the table's order |
| Academy.EmptySearchKeepsAll | components/Academy.tsx:162-165 | an empty search lists every entry |
| Academy.SearchIgnoresCase | components/Academy.tsx:163-164 | a search and its lowercase form list the same entries |
| Academy.FindsOwnTerm | components/Academy.tsx:162-165 | searching for an entry's term lists that entry |
| Academy.Toggled | components/Academy.tsx:194 | clicking an entry closes it when it is the open one, and otherwise opens it |
| Academy.ToggleTwice | components/Academy.tsx:194 | a second click restores what the first changed, when that entry or nothing was open |
| Academy.GlossarySection.constructor | components/Academy.tsx:159-160 | empty search, every entry closed, everything listed |
| Academy.GlossarySection.SetSearch | components/Academy.tsx:176-179 | typing sets the search and closes every entry; the listed entries are exactly the matching ones |
| Academy.GlossarySection.Toggle | components/Academy.tsx:194 | a click toggles that entry and keeps the open entry on screen |
| Academy.QuizSection.constructor | components/Academy.tsx:221-227 | first question, score 0, three lives, nothing selected, game running |
| Academy.QuizSection.HandleOptionClick | components/Academy.tsx:231-246 | ignored while an explanation shows or the game is over; otherwise selects and explains, and a right answer adds exactly 10 while a wrong one costs exactly one life and ends the game exactly at 0 lives; the quiz invariant is kept |
| Academy.QuizSection.HandleNext | components/Academy.tsx:248-257 | offered only under an explanation while the game runs (lines 358-365); before the last question it moves to the next one and clears the explanation and selection, and on the last one it marks the game won and over; score and lives are kept |
| Academy.QuizSection.ResetGame | components/Academy.tsx:259-267 | back to the first question, score 0, three lives, every flag cleared, nothing selected |
| Academy.WonScore | components/Academy.tsx:283-287 | a won game scored at least ten points for every question but two |
| Academy.LostScore | components/Academy.tsx:269-274 | a lost game has 0 lives, and its score is ten points for every answered question but the three answered wrong |
| Academy.QuizTablePlayable | components/Academy.tsx:229 | the quiz table has questions, and a game won on it scores at least 80 |

## Left out

- The generative-service request is not modelled: the client, the prompt and the `await` (services/geminiService.ts:1-4, 429-492). Its outcome is an input, `GeminiService.Response`.
- The grammar of `JSON.parse` and `JSON.stringify`, and the text of `String(number)`, are not modelled. They are a `Codec` parameter. Properties that need them require only that the codec round-trips (`JsonValues.RoundTrips`).
- `Date.now()` is a `now` parameter.
- Console logging is left out: the `console.warn` and `console.error` calls (services/geminiService.ts:496, 507, 514; components/Dashboard.tsx:64) have no effect on the result.
- The browser storage is a `map` field. An exception thrown by `localStorage.setItem` (for a full quota) is not modelled.
- React Query's scheduling, loading and error flags and its memory cache are not modelled (components/Dashboard.tsx:34-41, 69-71, 96, 136-176). `DashboardState.Refresh` is one run of the query function, and a failed run keeps the old data.
- `GeminiService.FetchOr` and `Dashboard.DashboardState` take the fallback table as a parameter; in the app it is `GeminiService.MockRecords`, and `FetchIPOData` fixes it.
- The two Academy classes take their tables as parameters; in the app they are `Constants.GlossaryData` and `Constants.QuizQuestions`.
- Locale formatting is not modelled: the "Last Updated" date text, `Intl.NumberFormat` currency output, and `toLocaleString` of the lot value.
- The calculators use exact real arithmetic, not IEEE-754 doubles. `toFixed` and `Math.round` round half away from zero on the exact value (half up for `Math.round`), not on the binary value.
- `parseFloat` is modelled for an optional sign, integer digits and fraction digits after leading white space. Exponents, "Infinity" and hexadecimal forms are left out. The fallback figures do not use them.
- `toLowerCase` lowers ASCII letters only.
- GeminiService.Cleanup: no lemma says the cleaned text has no fence left. A single global `replace` pass can create a new occurrence: "```j```jsonson" becomes "```json". What is proved instead: `RemoveAll` leaves text unchanged exactly when the pattern does not occur, and the plain and fenced shapes clean up as expected.
- Tools.Pow: takes whole exponents only, so `years` is a `nat`. The year field (components/Tools.tsx:153-157) has no step, so fractional years such as 1.3 (15.6 months) and negative years are not modelled.
- The `catch` in `getTotalSub` (components/Dashboard.tsx:130-132) is not modelled. Nothing in its `try` can throw once `sub` is a non-null object.
- Presentational code is not modelled: JSX, icons, `getIcon`, the Tools tool switch (components/Tools.tsx:5, 41) and the Academy tab switch.
- The loading screen's tip rotation is not modelled. It is driven by a timer and `Math.random`. Only the size of its table is stated (`Constants.LoadingTipsCount`).
- JsBuiltins.ToFixed: numbers of magnitude 10^21 or more, which `toFixed` prints in exponent form, are not modelled; the model prints them in plain digits.
- Tools.DisplayedChance: its own contract states only the zero case. The positive case is stated by `Tools.DisplayedChanceClose`: no sign, two decimals, and within half a hundredth; the exact digits follow from `JsBuiltins.ToFixedForm`.
- Dashboard.SafeRender: its contract covers null, undefined and strings. Objects and arrays are covered by `Dashboard.SafeRenderObject`. Booleans are the literals "true" and "false" in `Dashboard.JsString`. Numbers use the codec's number text.
- Dashboard.GetTotalSub: its own contract only says the text is non-empty; what it means is `Dashboard.TotalSubMeaning`.

## Findings

| source | as written | input that shows it | evidently intended | confidence | as-written member | corrected member |
|---|---|---|---|---|---|---|
| components/Tools.tsx:55-57 | `totalValue` divides by the monthly rate, and the rate field accepts 0 | rate 0, any instalment and years: `0/0` gives NaN, and NaN spreads to the returns and the chart share (lines 59 and 71) | at rate 0 the plan is worth its instalments, `P * n`, the formula's limit: returns 0 and a 100 percent invested share | not executed | Tools.ZeroRateIsNaN | Tools.TotalValueIsSchedule |
| components/Dashboard.tsx:86 | `ipo.status` is read off every record, and the feed returns any non-empty parsed array without checking its elements | a response whose text is "[null]": the feed returns `[null]`, and the filter throws a TypeError | null records are skipped, as the `ipo?.` reads elsewhere in the component suggest | not executed | Dashboard.NullRecordThrows | Dashboard.FilteredDataMeaning |
