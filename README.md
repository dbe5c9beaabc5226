# Scenario planner core, in Dafny

The server behind a field-service scenario planner. A scenario holds agents
(service representatives with a start location and a schedule), accounts
(customer stops with a location, a service time, a service window, an
optional pinned agent and a schedule), global limits and embedding
parameters. This project models:

- schedule expansion: the recurrence tags WEEKLY, BIWEEKLY_AC, BIWEEKLY_BD,
  MONTHLY_<n> and the anchor weekday, turned into day offsets of a cycle;
  the RRULE fallback keeps the occurrence offsets that fall inside the cycle;
- the embedding builder: parameter defaulting, five account channels and
  one agent channel built by superimposing sine waves per active day,
  L2-normalised, then concatenated in a fixed order with an offset map;
- similarity search: the sqlite-vec statement, and the brute-force
  fallback over the stored embeddings of the requested dimension, sorted
  by cosine distance and cut to k hits;
- the heatmap: per-feature amplitudes of the accounts active on a day,
  summed per H3 cell;
- the VROOM problem for one day: a vehicle per agent and a job per active
  account;
- the greedy one-day simulation: each active account goes to the nearest
  vehicle;
- the reduction of the simulation statistics to a fixed vector of 28
  numbers (four blocks of min, max, mean and three percentiles, then four
  totals).

Every loop of the source that builds a result is a method with loop
invariants, except two in `searchSimilar`: the copy of the query into the
argument list (extended.go:90-92), which the model does not need because the
query is passed as it is, and the loop over the rows sqlite-vec returns
(extended.go:97-103), which is the comprehension `Search.IndexHits`. Each
method is proved equal to a function of its inputs or, where Go leaves the
order open (the sort of the search buffer, the map iteration of the heatmap),
related by a specification to it, and the lemmas are about those functions. The in-place updates of the source keep their form: the embedding
channels, `superimpose`, `l2Normalize`, the simulation's vehicle slice and the
sorts of the search buffer and of each block work on arrays. Floating point is
modelled by `real`. The library calls (sine, square root, the haversine
distance, the H3 cell functions, the RRULE evaluator and the sqlite-vec index)
are parameters of function type.

Modules, one file each:

- `Wrappers`: `Option` and `Result`.
- `Numeric`: clamp, defaults, truncation, int64 wrap-around and sums.
- `GoStrings`: the parts of Go's `strings` and `fmt` that are used.
- `Schedules`: `expandSchedule` and `weekdayIndex`.
- `Recurrence`: the RRULE filter and the active-day prologue.
- `Domain`: the scenario types, the per-account ratios and the selection of active accounts.
- `Signal`: normalize, amplitude, phShift, superimpose and l2Normalize.
- `Sorting`: an insertion sort by key.
- `Embedding`: `buildEmbedding`.
- `Search`: `searchSimilar`.
- `Heatmap`: `heatmapFor`.
- `Vroom`: `buildVroom`.
- `Simulation`: `naiveSim`.
- `Reduction`: `simToVector`.

## Model

| member | source | states |
|---|---|---|
| Numeric.OrDefault | main.go:247-254 | a zero setting takes the default; any other value is kept |
| Numeric.Clamp | main.go:384 | the result lies in [a, b] when a <= b; it is x when x is inside and a bound otherwise |
| Numeric.ClampInt | main.go:385 | the integer clamp: the result is in [a, b] and equals x when x is inside |
| Numeric.ClampMonotone | main.go:384 | clamp is monotone in x |
| Numeric.Max | main.go:412 | the result is at least both arguments and equals one of them |
| Numeric.MinInt | extended.go:132 | the result is at most both arguments and equals one of them |
| Numeric.TruncToInt | extended.go:145 | Go's float-to-int conversion truncates toward zero: floor for x >= 0, ceiling below |
| Numeric.TruncMonotone | extended.go:324 | truncation toward zero is monotone |
| Numeric.WrapInt64 | main.go:356 | int64 arithmetic: the result is in the int64 range, congruent to x modulo 2^64, and equal to x when x is in range |
| Numeric.Sum | extended.go:320 | the float64 running total of a loop `sum += v`, elements in order |
| Numeric.SumSnoc | extended.go:320 | the running sum grows by the appended element |
| Numeric.SumUpdate | extended.go:296-298 | replacing one element changes the sum by the difference |
| Numeric.SumBounds | extended.go:320-321 | n elements in [lo, hi] sum to a value in [n*lo, n*hi] |
| Numeric.MulLe | extended.go:325 | multiplying by a non-negative factor keeps the order |
| Numeric.DivBounds | extended.go:321 | a sum between n*lo and n*hi, divided by n > 0, lies in [lo, hi] |
| GoStrings.IsSpace | main.go:290 | unicode.IsSpace: the characters of the Unicode White_Space set |
| GoStrings.TrimLeft | main.go:290 | the result is a suffix of s; it drops only white space and starts with a non-space |
| GoStrings.TrimRight | main.go:290 | the result is a prefix of s; it drops only white space and ends with a non-space |
| GoStrings.TrimSpace | main.go:290 | strings.TrimSpace: the slice of s between its leading and trailing white space |
| GoStrings.TrimLeftEmptyIff | main.go:290 | trimming the left side leaves nothing exactly when s is all white space |
| GoStrings.TrimSpaceEmptyIff | extended.go:175 | TrimSpace(s) != "" exactly when s has a non-space character |
| GoStrings.TrimSpaceOfTrimmed | main.go:366 | a string without white space at its ends is its own TrimSpace |
| GoStrings.ToUpper | main.go:346 | strings.ToUpper keeps the length |
| GoStrings.UpperChar | main.go:346 | the upper case of one rune, for the ASCII letters and the two runes whose capital is ASCII |
| GoStrings.ToUpperFixesCapitals | main.go:366-373 | an ASCII string without lower-case letters is its own upper case |
| GoStrings.HasPrefix | main.go:354 | strings.HasPrefix: s begins with p |
| GoStrings.SkipSpace | main.go:355 | Sscanf's space skipping drops a prefix and keeps a suffix |
| GoStrings.DigitRun | main.go:355 | the length of the leading run of decimal digits, maximal |
| GoStrings.ScanDecimal | main.go:355 | the %d verb reads only values in the int64 range |
| GoStrings.ScanMonthly | main.go:355 | Sscanf("MONTHLY_%d") reads a number only when the text starts with MONTHLY_ as written |
| GoStrings.ScanMonthlyThree | main.go:355 | "MONTHLY_3" scans to 3 |
| GoStrings.ScanMonthlyLowerCase | main.go:355 | "monthly_3" does not scan: the literal is case sensitive |
| GoStrings.FormatNat | extended.go:100 | the %d text of n: non-empty and all decimal digits |
| GoStrings.FormatNatRoundTrip | extended.go:100 | reading the digits back gives n |
| GoStrings.FormatInt | extended.go:100 | the %d text of an integer, with a minus sign exactly for negatives |
| GoStrings.Repeat | extended.go:94 | strings.Repeat panics exactly for a negative count; otherwise the result has count times the piece's length |
| GoStrings.RepeatCount | extended.go:94 | k copies of a piece hold k times its count of any character |
| GoStrings.SprintfS | extended.go:93-94 | fmt.Sprintf for formats whose verbs are %s: each verb takes the next argument, and prints %!s(MISSING) when none is left |
| GoStrings.SprintfLiteral | extended.go:93-94 | text without a % sign is copied as it is, before the rest of the format |
| GoStrings.SprintfVerb | extended.go:93-94 | a %s verb prints the next argument, or %!s(MISSING) when there is none |
| GoStrings.SprintfTwoVerbs | extended.go:93-94 | a template with two %s verbs and two arguments prints the pieces with the two arguments in order |
| Schedules.DayNumber | main.go:366-375 | the switch of weekdayIndex: 0..6, and a non-zero value only for its weekday name |
| Schedules.WeekdayIndex | main.go:365-376 | weekdayIndex always lies in [0, 6] |
| Schedules.WeekdayNamesRoundTrip | main.go:367-373 | MON..SUN map to 0..6 |
| Schedules.AnchorOfName | main.go:365-376 | a capitalised weekday name without surrounding space gives its position |
| Schedules.MonthlyWeek | main.go:355-356 | the week of a MONTHLY tag lies in [0, 3] |
| Schedules.Classify | main.go:342-356 | the branch of expandSchedule: an empty tag with a rule is left to the rule; otherwise the upper-cased tag selects WEEKLY, BIWEEKLY_AC, BIWEEKLY_BD or, by its MONTHLY_ prefix, a monthly week; any other tag is unrecognised |
| Schedules.Selects | main.go:348-358 | the day test of each branch: d % 7 is the anchor index, in any week, in weeks 0 and 2, in weeks 1 and 3, or in the one monthly week; no day for the other branches |
| Schedules.ScheduleDays | main.go:339-363 | the value of expandSchedule: the days below cycleDays that the tag's branch keeps, in ascending order |
| Schedules.SelectedBelow | main.go:347-359 | the kept days below n are strictly increasing and are exactly the d in [0, n) the branch selects |
| Schedules.SelectedBelowStable | main.go:348 | running the loop over days the branch does not select adds nothing |
| Schedules.SelectedBelowStep | main.go:348 | a stretch whose only selected day is its last appends exactly that day |
| Schedules.WeeklyLoop | main.go:347-348 | the WEEKLY loop returns the selected days below cycleDays |
| Schedules.BiweeklyLoop | main.go:349-352 | the BIWEEKLY_AC and BIWEEKLY_BD loops return the selected days below cycleDays |
| Schedules.MonthlyLoop | main.go:357-359 | the MONTHLY loop, over one week, returns the selected days below cycleDays |
| Schedules.ExpandSchedule | main.go:339-363 | expandSchedule returns the days of the branch its tag selects |
| Schedules.ScheduleDaysInCycle | main.go:339-363 | every offset is in [0, cycleDays), increasing and without duplicates |
| Schedules.WeeklyDays | main.go:347-348 | WEEKLY keeps exactly the d in [0, cycleDays) with d % 7 = weekdayIndex(anchor) |
| Schedules.BiweeklyDays | main.go:349-352 | BIWEEKLY_AC keeps the anchor weekday of weeks 0 and 2, BIWEEKLY_BD of weeks 1 and 3 |
| Schedules.MonthlyKeepsOneDay | main.go:357-359 | a monthly branch keeps at most one day |
| Schedules.MonthlyAtMostOneDay | main.go:353-360 | MONTHLY_n keeps at most one day, the anchor weekday inside week clampInt(n-1, 0, 3) |
| Schedules.NoTagNoDays | main.go:342-345 | an empty tag with a rule, or an unrecognised tag, gives no days |
| Schedules.SameWeekSameWeekday | main.go:357-358 | within one week the weekday determines the day |
| Schedules.IncreasingSpan | main.go:357-359 | an increasing list of integers spans at least its length minus one |
| Schedules.UpperCharIdempotent | main.go:346 | upper-casing a character twice is upper-casing it once |
| Schedules.TagCaseInsensitive | main.go:346-352 | the WEEKLY and BIWEEKLY tags match in any letter case |
| Schedules.ClassifyMonthlyTag | main.go:353-356 | a tag whose upper case starts with MONTHLY_ takes the monthly branch, with the week scanned from the tag as written |
| Schedules.MonthlyCaseQuirk | main.go:346-356 | "monthly_3" falls into week 0 while "MONTHLY_3" falls into week 2 |
| Schedules.ClassifyLowerMonthly | main.go:354-355 | "monthly_3" takes the monthly branch |
| Schedules.ClassifyUpperMonthly | main.go:354-355 | "MONTHLY_3" takes the monthly branch |
| Schedules.UpperMonthlyLower | main.go:354 | "monthly_3" upper-cases to "MONTHLY_3" |
| Schedules.ClassifyWeekly | main.go:346-347 | WEEKLY with anchor MON takes the weekly branch |
| Schedules.ClassifyBiweeklyAC | main.go:346-349 | BIWEEKLY_AC takes its branch |
| Schedules.WeeklyMondayExample | main.go:347-348 | WEEKLY from MON over 28 days is [0, 7, 14, 21] |
| Schedules.WeeklyMondayDays | main.go:348 | the weekly loop for Monday over 28 days gives [0, 7, 14, 21] |
| Schedules.WeeklyFourWeeks | main.go:348 | WEEKLY over 28 days keeps weekday a of each of the four weeks |
| Schedules.WeeklyWeek | main.go:348 | each whole week adds its weekday a |
| Schedules.WeekWithDay | main.go:348-352 | a week in which exactly weekday a is selected adds that day |
| Schedules.WeekdayInWeek | main.go:350 | inside a whole week, d % 7 is the distance from the week's start and d / 7 is the week number |
| Schedules.BiweeklyWednesdayExample | main.go:349-350 | BIWEEKLY_AC from WED over 28 days is [2, 16] |
| Schedules.BiweeklyWednesdayDays | main.go:350 | the AC loop for Wednesday over 28 days gives [2, 16] |
| Schedules.BiweeklyACFourWeeks | main.go:350 | BIWEEKLY_AC over 28 days keeps weekday a of weeks 0 and 2 |
| Recurrence.OffsetDay | extended.go:145 | int(hours/24 + 0.00001) truncated: non-negative, and the integer part, for non-negative hours |
| Recurrence.DaysInCycle | extended.go:144-147 | the kept offsets are exactly the occurrence offsets in [0, cycleDays) |
| Recurrence.RRuleDays | extended.go:135-149 | the value of expandScheduleRRULE: nothing for a blank rule or one that does not parse, otherwise the in-cycle offsets of the occurrences |
| Recurrence.ExpandScheduleRRule | extended.go:135-149 | the RRULE loop returns the in-cycle offsets of the occurrences, or nothing |
| Recurrence.RRuleDaysBounds | extended.go:136-146 | a blank rule or a parse failure gives nothing, and every kept day is in [0, cycleDays) |
| Recurrence.BlankRule | extended.go:136 | a rule of only white space gives no days |
| Recurrence.ActiveDays | main.go:279-285 | an account's active days: the tag's days, or the rule's days when the tag gives none |
| Recurrence.ActiveDaysInCycle | main.go:279-285 | the active days lie in the cycle, and are the tag's days when the tag gives any |
| Recurrence.ActiveDaysOf | main.go:279-285 | the prologue returns the tag's days, or the rule's days when the tag gives none |
| Recurrence.ContainsDay | extended.go:167 | the break-out search finds the day exactly when it is listed |
| Domain.ServiceRatio | main.go:287 | the service ratio lies in [0, 1] and is minutes/200 for minutes in [0, 200] |
| Domain.WindowStartRatio | main.go:288 | the window start ratio lies in [0, 1] and is minutes/1440 within a day |
| Domain.WindowDurationRatio | main.go:289 | the window duration ratio lies in [0, 1] and is minutes/1440 within a day |
| Domain.PinnedIndicator | main.go:290 | the pinned amplitude is 1 exactly when the trimmed pinned agent id is non-empty, and 0 otherwise |
| Domain.EffectiveMaxAgents | main.go:273-274 | at least 1; MaxAgents when positive, otherwise exactly max(1, number of agents) |
| Domain.AvailabilityRatio | main.go:291-294 | the availability lies in [0, 1]; a positive ratio up to 1 is kept; with no limit and some agents it is 1 |
| Domain.ActiveOn | extended.go:237-242 | an account is active on a day when the day is among its active days |
| Domain.ActiveAccounts | extended.go:236-243 | exactly the accounts active on the day are selected |
| Domain.ActiveAccountsAppend | extended.go:237-243 | the selection keeps input order: it distributes over concatenation |
| Domain.ActiveAccountsOutsideCycle | extended.go:236-243 | a day outside the cycle selects nobody |
| Domain.CollectActive | extended.go:236-243 | the selection loop returns the active accounts in order |
| Signal.QuotientBounds | main.go:380-381 | the quotient bounds behind normalize's clipping |
| Signal.ScaledRatioBounds | main.go:396 | norm*(1+overshoot) stays within [0, 1+overshoot] for norm in [0, 1] and is not positive for norm <= 0 |
| Signal.Normalize | main.go:378-383 | normalize lies in [0, 1]; it is 0 for an empty range; it clips below and above; otherwise it is the relative position |
| Signal.NormalizeMonotone | main.go:378-383 | normalize is monotone in x |
| Signal.Amplitude | main.go:396 | for overshoot > -1 the amplitude is in [0, 1+overshoot]; norm*(1+overshoot) for norm in [0, 1]; 0 for norm <= 0 |
| Signal.PhShift | main.go:386-390 | the spatial phase plus the day's share of a full turn for cycle >= 1 |
| Signal.PhShiftPeriodic | main.go:386-390 | a whole cycle later the phase is 2*pi further on |
| Signal.PhShiftShortCycle | main.go:388 | a cycle length below 1 is read as 1 |
| Signal.Pow2 | main.go:393 | 2 to an integral power is positive |
| Signal.Pow2Succ | main.go:393 | each step of the exponent doubles the power |
| Signal.FrequencyForLevel | main.go:391-395 | the frequency of a level: base / 2^(level-5) |
| Signal.FrequencyHalves | main.go:391-395 | level 5 keeps the base frequency and each finer level halves it |
| Signal.Theta | main.go:402 | the angle 2*pi*f*(i/n) + phi of entry i of an n-entry channel |
| Signal.AddWave | main.go:401-404 | one level adds amp*sin(2*pi*f*i/n + phi) to each entry |
| Signal.Superimposed | main.go:397-406 | superimpose keeps the length and is a no-op for amp = 0 or no levels |
| Signal.WaveSum | main.go:399-404 | the sum over the levels of the sine at entry i: the reference for one entry of the superposition |
| Signal.SuperimposedPointwise | main.go:397-406 | entry i becomes the old entry plus amp times the sum of the level waves |
| Signal.SuperimposedTwice | main.go:298-302 | two superpositions add both weighted wave sums |
| Signal.SuperimposeCommutes | main.go:296-303 | superimposing two days' waves gives the same channel in either order |
| Signal.Superimpose | main.go:397-406 | the in-place loop leaves the superposition in the array |
| Signal.AddWaveInPlace | main.go:401-404 | the inner loop adds one level's wave in place |
| Signal.SumSq | main.go:408 | a sum of squares is non-negative |
| Signal.SumSqOfZero | main.go:409 | the zero vector has sum of squares 0 |
| Signal.SumSqScaled | main.go:410 | scaling by c multiplies the sum of squares by c*c |
| Signal.Scaled | main.go:410 | every entry multiplied by c, length kept |
| Signal.L2Normalized | main.go:407-411 | l2Normalize keeps the length |
| Signal.L2NormalizedZero | main.go:409 | l2Normalize leaves an all-zero vector unchanged |
| Signal.ScaledUnit | main.go:410 | dividing by a positive root of the sum of squares gives unit norm |
| Signal.L2NormalizedUnit | main.go:407-411 | with an exact square root a non-zero vector comes out with norm 1 |
| Signal.L2NormalizedIdempotent | main.go:407-411 | with an exact square root, normalising twice is normalising once |
| Signal.SumOfSquares | main.go:408 | the accumulation loop computes the sum of squares |
| Signal.L2Normalize | main.go:407-411 | the in-place normalisation leaves L2Normalized of the old contents |
| Signal.ScaleInPlace | main.go:410 | the scaling loop multiplies every entry in place |
| Sorting.SortByKey | extended.go:123 | the in-place sort leaves the entries ordered by key and a permutation of the input |
| Sorting.InsertAt | extended.go:123 | one insertion step extends the ordered prefix and keeps the multiset |
| Sorting.SortedPermutationUnique | extended.go:319 | two sorted permutations of the same reals are equal |
| Sorting.SortedHeadIsLeast | extended.go:321 | the head of a sorted list is its least element |
| Sorting.SortedSeq | extended.go:319 | sort.Float64s: ordered, a permutation, the same length |
| Sorting.Insert | extended.go:319 | inserting into an ordered list keeps it ordered and adds exactly x |
| Embedding.Resolve | main.go:247-254 | each zero or empty parameter takes the configuration default; the others are kept |
| Embedding.ResolveIdempotent | main.go:247-254 | resolving twice is resolving once; a request that sets everything is kept |
| Embedding.Zeros | main.go:258 | make([]float64, n): n zeros |
| Embedding.AgentsStep | main.go:259-264 | the agent loop keeps the channel length |
| Embedding.AgentsStepLast | main.go:259-264 | each agent adds a full-amplitude superposition phased by its start location on day 0 |
| Embedding.AccountAmps | main.go:287-295 | the five amplitudes of one account: each ratio through amplitude with the configured overshoot |
| Embedding.DayStep | main.go:297-302 | one active day: the five superimpose calls with the day's phase |
| Embedding.DaysStep | main.go:296-303 | the day loop of one account as a value: the five superpositions of each active day, in order |
| Embedding.AccountStep | main.go:277-303 | one account: its amplitudes, its normalised location and its active days through the day loop |
| Embedding.AccountsStep | main.go:276-304 | the account loop as a value: each account's days, accounts in order |
| Embedding.DaysStepLengths | main.go:296-303 | the day loop keeps the five channel lengths |
| Embedding.AccountsStepLengths | main.go:276-304 | the account loop keeps the five channel lengths |
| Embedding.DaysStepNext | main.go:296-303 | one more active day adds its five superpositions |
| Embedding.AccountsStepNext | main.go:276-304 | one more account adds its days' contributions |
| Embedding.AppendWithOffset | main.go:311-313 | appendWithOffset appends v and records [old length, new length) under the name |
| Embedding.Assemble | main.go:309-319 | the channels appended by appendWithOffset one after another, from an empty embedding and offset map |
| Embedding.Flatten | main.go:310-319 | the concatenation of the channels |
| Embedding.Start | main.go:312 | the offset of channel k: the total length of the channels before it |
| Embedding.FlattenAppend | main.go:314-319 | flattening distributes over concatenation |
| Embedding.StartOfPrefix | main.go:314-319 | a channel's offset within a prefix is its offset in the whole |
| Embedding.StartsTile | main.go:311-319 | offsets start at 0; each ends where the next begins; the last ends at the length; each slice is its channel |
| Embedding.FlattenSnoc | main.go:312 | flattening one more channel appends it |
| Embedding.FlattenSplit | main.go:314-319 | the flattening splits after any channel |
| Embedding.AssembleEmbedding | main.go:309-319 | the embedding is the concatenation of the channels |
| Embedding.AssembleKeys | main.go:309-319 | there is an offset entry for each name and no other |
| Embedding.AssembleOffsets | main.go:309-319 | with distinct names each channel's offsets are [Start(k), Start(k+1)) |
| Embedding.LayoutOfSix | main.go:314-319 | the six channels tile the embedding in order, without gaps or overlap |
| Embedding.SlicesOfSix | main.go:314-319 | each of the six channels is the slice of the embedding between its offsets |
| Embedding.AssembleSix | main.go:314-319 | the six appendWithOffset calls in a row build the assembled layout |
| Embedding.ChannelOrderDistinct | main.go:333 | the six channel names are distinct |
| Embedding.Components | main.go:258-307 | six channels, each with its resolved resolution as its length |
| Embedding.ByName | main.go:321-328 | the components map holds exactly the six names, each with its channel |
| Embedding.Package | main.go:309-336 | the response around six channels: the assembled embedding and offsets, the components by name, the levels, the cycle and the fixed order |
| Embedding.PackageLayout | main.go:309-336 | the response: the fixed order; components and offsets keyed by the six names; offsets tiling the embedding; each slice equal to its component |
| Embedding.FirstNegative | main.go:258-271 | the first channel, in allocation order (agent, pinned, available, stop, start, duration), whose resolution is negative, where make panics |
| Embedding.Embed | main.go:245-337 | buildEmbedding as a value: the make panic at the first negative resolution, otherwise the packaged six channels |
| Embedding.EmbedFailsIffNegative | main.go:258-271 | buildEmbedding panics exactly when some resolved resolution is negative |
| Embedding.EmbedLayout | main.go:245-337 | a successful embedding packages six channels of the resolved lengths |
| Embedding.NoAgentsZeroChannel | main.go:258-265 | with no agents the agent channel is all zero |
| Embedding.AgentChannel | main.go:258-265 | the agent loop over an array, then l2Normalize |
| Embedding.SuperimposeDay | main.go:297-302 | the five superimpose calls of one day update the five arrays |
| Embedding.AccumulateAccount | main.go:277-303 | one account's day loop updates the five arrays |
| Embedding.AccumulateAccounts | main.go:276-304 | the account loop leaves the accumulated channels in the arrays |
| Embedding.NormalizeChannels | main.go:306-307 | the five l2Normalize calls |
| Embedding.AccountChannels | main.go:267-307 | the allocations, the account loop and the normalisations produce the normalised accumulated channels |
| Embedding.BuildEmbedding | main.go:245-337 | buildEmbedding over arrays returns exactly the value model |
| Search.EffectiveK | extended.go:87 | a non-positive k becomes 5; otherwise k is kept |
| Search.TableName | extended.go:88 | the table vec_embeddings_<dim> |
| Search.Placeholders | extended.go:94 | the placeholder list exists exactly when dim >= 1 (strings.Repeat panics below) |
| Search.PlaceholderCount | extended.go:94 | one ? per coordinate |
| Search.TemplatePieces | extended.go:93 | the literal pieces of the statement hold no verb |
| Search.PrimaryQueryAsWritten | extended.go:93-94 | the statement as the source formats it: the template with the placeholder list as its only argument; None where strings.Repeat panics |
| Search.PrimaryQuery | extended.go:88-94 | the intended statement: the template with the placeholder list and the table name |
| Search.PrimaryQueryMissingTable | extended.go:93-94 | the statement as written ends FROM %!s(MISSING) |
| Search.PrimaryQueryNamesTable | extended.go:88-94 | the corrected statement queries vec_embeddings_<dim> |
| Search.PrimaryQueryAsWrittenDiffers | extended.go:93-94 | the two statements differ for every dimension |
| Search.IndexHits | extended.go:97-102 | one hit per returned row, referenced as table:rowid with its distance |
| Search.Candidates | extended.go:112-118 | exactly the decodable stored vectors of length dim are candidates |
| Search.CandidatesMonotone | extended.go:112-118 | a candidate among the first rows is a candidate of all of them |
| Search.Dot | extended.go:131 | the sum of a[i]*b[i] over the indices of a |
| Search.Distance | extended.go:131 | cosineDistance: 1 minus the dot product |
| Search.DotWithZero | extended.go:131 | the dot product with a zero vector is 0 |
| Search.DistanceToZero | extended.go:131 | the distance to or from a zero vector is exactly 1 |
| Search.CosineDistance | extended.go:131 | cosineDistance = 1 - the sum of a[i]*b[i] |
| Search.L2NormalizeCopy | extended.go:130 | the copy is the normalised vector; the input, a value, is untouched |
| Search.L2NormalizeCopyOfZero | extended.go:130 | the copy keeps the length, and a zero vector comes back unchanged |
| Search.Pool | extended.go:110-120 | one entry per candidate, in row order, with its distance to the normalised query |
| Search.PoolStep | extended.go:111-120 | one more row adds at most its entry |
| Search.ScoreRows | extended.go:110-120 | the fallback loop builds the pool, or meets the index panic when the query is longer than a candidate |
| Search.TopK | extended.go:123-125 | the specification of the sort and cut: min(k, n) entries in non-decreasing distance, a sub-multiset of the pool, none farther than an entry left out |
| Search.TopKNearest | extended.go:123-125 | the first hit is nearest among all candidates |
| Search.SortedPrefixIsTopK | extended.go:123-125 | the first min(k, n) entries of a sorted permutation are the k nearest, in order |
| Search.SortedRestIsFarther | extended.go:123-125 | in a sorted list what follows a position is no nearer than what precedes it |
| Search.CutToK | extended.go:123-125 | the sort and cut return min(k, n) hits, a sub-multiset of the pool, ordered, none farther than any left out |
| Search.FallbackOutcome | extended.go:107-126 | the specification of the fallback: the index panic when the query is longer than a candidate, no hits when it is longer and there is none, otherwise a TopK of the pool for the normalised query |
| Search.Fallback | extended.go:107-126 | the fallback returns the top k of the pool, or the index panic |
| Search.SearchWith | extended.go:86-126 | around a given statement: no database fails; no statement is the strings.Repeat panic; the engine's hits are returned as they come; otherwise the fallback result |
| Search.SearchSimilar | extended.go:85-127 | as written: no database fails; dim < 1 panics; the engine is handed the statement whose table prints as %!s(MISSING), its hits are returned as they come, and otherwise the fallback result |
| Search.SearchSimilarCorrected | extended.go:85-127 | the same with the table name as the second Sprintf argument, so that the engine is asked about vec_embeddings_<dim> |
| Heatmap.KnownFeature | extended.go:170-184 | the five feature names of the switch; any other name takes the default branch and is skipped |
| Heatmap.Contributes | extended.go:163-185 | an account contributes when it is active on the day and the feature is known |
| Heatmap.FeatureAmplitude | extended.go:169-185 | each known feature's amplitude lies in [0, 1] and is its ratio; pinned is 1 exactly for a pinned account; an unknown feature has none |
| Heatmap.AddTo | extended.go:187 | m[h] += amp: h reads as 0 when missing and every other key is untouched |
| Heatmap.Contribution | extended.go:163-187 | what one account adds: its cell and its amplitude when it is active on the day and the feature is known, otherwise nothing |
| Heatmap.Totals | extended.go:161-188 | the map m after the account loop, accounts in order |
| Heatmap.CellSum | extended.go:186-187 | reference definition: the sum of the amplitudes of the contributing accounts in one cell |
| Heatmap.CellCount | extended.go:186-187 | the number of contributing accounts in one cell |
| Heatmap.TotalsLast | extended.go:162-188 | one more account adds its contribution to its cell |
| Heatmap.TotalsAreCellSums | extended.go:162-188 | a cell is present exactly when some account contributes, and holds the sum of the contributions (same cell sums, no overwrite) |
| Heatmap.CellSumOfEmptyCell | extended.go:186-187 | a cell no account reaches sums to 0 |
| Heatmap.CellSumBounds | extended.go:169-187 | a cell's value lies between 0 and the number of accounts in it |
| Heatmap.UnknownFeatureIsEmpty | extended.go:183-184 | an unknown feature gives an empty map |
| Heatmap.AccountContribution | extended.go:163-186 | the schedule test and the feature switch of one account |
| Heatmap.AccumulateTotals | extended.go:161-188 | the accumulation loop builds the totals map |
| Heatmap.Cells | extended.go:189-197 | the output set: one cell per key of the map that parses back, with its centre and its value |
| Heatmap.ElementsAppend | extended.go:196 | appending a cell adds it to the set of cells |
| Heatmap.DistinctAppend | extended.go:190-196 | appending a new key keeps the keys distinct |
| Heatmap.CellsGrow | extended.go:190-196 | taking one more key adds its cell exactly when the key parses back |
| Heatmap.EmitOne | extended.go:191-196 | one emission step keeps the emitted-cells invariant |
| Heatmap.EmitCells | extended.go:189-198 | exactly one cell per key that parses back, distinct keys, no more cells than keys |
| Heatmap.HeatmapFor | extended.go:159-199 | the cells of the totals for the day, with the cycle defaulting to the server setting |
| Vroom.ServiceSeconds | extended.go:247 | the service is a whole number of minutes in seconds, in [0, 12000] |
| Vroom.ServiceOfWholeMinutes | extended.go:247 | in exact arithmetic, a whole number of minutes up to 200 is kept exactly |
| Vroom.ServiceCapped | extended.go:247 | 200 minutes and more give 12000 seconds |
| Vroom.MinutesToSeconds | extended.go:250-251 | int(m)*60 in int64 arithmetic: always in the int64 range |
| Vroom.MinutesToSecondsExact | extended.go:250-251 | for minute counts within ±1.5e17 the product does not wrap: it is the truncated minutes times 60 |
| Vroom.WindowStart | extended.go:250 | the start int(ServiceWindowStartMin)*60, in the int64 range |
| Vroom.WindowEnd | extended.go:251 | the end int(ServiceWindowStartMin+ServiceWindowDurationMin)*60, in the int64 range |
| Vroom.TimeWindows | extended.go:250-252 | a single [start, end] window exactly when end > start, otherwise none |
| Vroom.NoWindowWithoutDuration | extended.go:250-252 | a window of no duration gives no time window, for minute counts below the int64 wrap-around |
| Vroom.WindowOfAMinute | extended.go:250-252 | a window of at least a minute from a non-negative start, ending below the int64 wrap-around, is kept and lasts at least 60 seconds |
| Vroom.WrappedStartKeepsWindow | extended.go:250-252 | past the wrap-around a start of 1.6e17 minutes wraps below zero while the end does not, so a window of negative duration is emitted |
| Vroom.VehicleFor | extended.go:231-233 | vehicle i: id i+1, start and end [lng, lat] |
| Vroom.JobFor | extended.go:245-252 | job i: id i+1, the service seconds, [lng, lat] and the time windows |
| Vroom.Vehicles | extended.go:230-234 | the vehicle loop as a value |
| Vroom.Jobs | extended.go:244-254 | the job loop as a value |
| Vroom.VroomActive | extended.go:235-243 | the accounts that become jobs: those active on the day, with the cycle defaulting to 28 |
| Vroom.VroomOf | extended.go:228-256 | buildVroom as a value: the jobs of the accounts active on the day and the vehicles of the agents |
| Vroom.VehiclesShape | extended.go:230-234 | one vehicle per agent, ids 1..n, start = end = [lng, lat] |
| Vroom.JobsShape | extended.go:244-254 | one job per active account, in order, ids 1..m |
| Vroom.VroomShape | extended.go:228-256 | the input's vehicles and jobs in order, with locations, services in [0, 12000] and windows only when end > start |
| Vroom.VroomJobsAreActive | extended.go:235-243 | exactly the active accounts become jobs; a day outside the cycle gives none |
| Vroom.VehiclesNext | extended.go:230-234 | one more agent appends its vehicle |
| Vroom.JobsNext | extended.go:244-254 | one more active account appends its job |
| Vroom.BuildVehicles | extended.go:230-234 | the vehicle loop |
| Vroom.BuildJob | extended.go:245-252 | one job with its integer conversions, the window products wrapping in int64 |
| Vroom.BuildJobs | extended.go:244-254 | the job loop |
| Vroom.BuildVroom | extended.go:228-256 | buildVroom returns exactly the value model |
| Simulation.ToSec | extended.go:276-277 | km/50*3600 seconds, that is 72 seconds per kilometre |
| Simulation.ServiceSec | extended.go:298 | the service seconds lie in [0, 12000] and are minutes*60 for minutes in [0, 200] |
| Simulation.Dist | extended.go:293 | the haversine distance from a vehicle's position to an account |
| Simulation.Fleet | extended.go:279-280 | one vehicle per agent |
| Simulation.Scan | extended.go:291-295 | the nearest-vehicle scan over the first n vehicles: from (0, 1e18), replaced on a strictly smaller distance |
| Simulation.Nearest | extended.go:291-295 | the scan over all the vehicles |
| Simulation.ScanIsFirstNearest | extended.go:291-295 | the scan gives the least distance below 1e18, reached first at the index returned; when nothing is nearer than 1e18, index 0 |
| Simulation.NearestInRange | extended.go:291-295 | with at least one vehicle the index is valid |
| Simulation.Assign | extended.go:296-298 | an assignment keeps the number of vehicles |
| Simulation.AssignMovesNearest | extended.go:291-298 | the first nearest vehicle moves to the account and gains the drive and the service; every other vehicle is unchanged |
| Simulation.Dispatch | extended.go:289-300 | the account loop keeps the fleet size |
| Simulation.DispatchFailsIff | extended.go:289-300 | the loop panics exactly when some account is waiting and there is no vehicle |
| Simulation.AssignServiceTotal | extended.go:298 | an assignment adds exactly the account's service time to the fleet total |
| Simulation.DispatchServiceTotal | extended.go:289-300 | the fleet's service total grows by the accounts' service times |
| Simulation.DispatchNext | extended.go:289-300 | one more account is one more assignment |
| Simulation.ServiceSecs | extended.go:298 | one service time per account |
| Simulation.Drives | extended.go:303 | one drive total per vehicle |
| Simulation.Services | extended.go:303 | one service total per vehicle |
| Simulation.Stats | extended.go:301-312 | the statistics of a final fleet |
| Simulation.StatsOfTally | extended.go:301-312 | the tally and the totals form the statistics |
| Simulation.SimActive | extended.go:281-287 | the accounts naiveSim serves: those active on the day, with the cycle defaulting to 28 |
| Simulation.NaiveSimOf | extended.go:275-313 | naiveSim as a value: the dispatch panic, or the statistics of the dispatched fleet |
| Simulation.NaiveSimCases | extended.go:275-313 | naiveSim fails with the loop's panic or returns the final fleet's statistics |
| Simulation.NaiveSimFailsIff | extended.go:275-313 | naiveSim panics exactly when there is no agent but some account is active |
| Simulation.NaiveSimStats | extended.go:301-312 | one entry per agent; totals are the sums; RepsUsed = [agents]; idle 0; Unassigned = accounts - active; service total is the active accounts' service |
| Simulation.InitFleet | extended.go:279-280 | the vehicle slice starts at the agents' locations with nothing driven |
| Simulation.NearestVehicle | extended.go:291-295 | the inner loop returns the nearest vehicle by strict comparison |
| Simulation.Serve | extended.go:296-298 | the three in-place updates of vs[best] |
| Simulation.DispatchAll | extended.go:289-300 | the account loop over the array succeeds exactly when the value model does, with its fleet |
| Simulation.Tally | extended.go:301-303 | the two lists and the two totals of the final loop |
| Simulation.NaiveSim | extended.go:275-313 | naiveSim returns exactly the value model |
| Reduction.Lerp | extended.go:325 | cp[i]*(1-f) + cp[i+1]*f |
| Reduction.LerpBetween | extended.go:325 | linear interpolation with f in [0, 1] stays between its ends |
| Reduction.LerpMonotone | extended.go:325 | for a <= b interpolation is monotone in f |
| Reduction.Position | extended.go:324 | the percentile position is non-negative |
| Reduction.PositionMonotone | extended.go:324 | the position is monotone in q |
| Reduction.Interpolate | extended.go:322-326 | the closure p at a position: the only element of a singleton, the last element from index n-1 on, otherwise interpolation between the two neighbours |
| Reduction.Percentile | extended.go:322-326 | p(q), at position q*(n-1) |
| Reduction.Mean | extended.go:320-321 | sum/n |
| Reduction.InterpolateBounds | extended.go:322-326 | in a sorted list the interpolated value lies between its first and last elements |
| Reduction.InterpolateMonotone | extended.go:322-326 | in a sorted list interpolation is monotone in the position |
| Reduction.PercentileBounds | extended.go:322-327 | a percentile lies between the minimum and the maximum |
| Reduction.PercentileMonotone | extended.go:322-327 | percentiles are monotone in q |
| Reduction.MeanBounds | extended.go:320-321 | the mean lies between the minimum and the maximum |
| Reduction.Summary | extended.go:319-327 | six numbers: min, max, mean, p50, p75, p95 |
| Reduction.SummaryOrdered | extended.go:319-327 | min <= mean <= max and min <= p50 <= p75 <= p95 <= max |
| Reduction.Block | extended.go:317-328 | six numbers for every input; six zeros for an empty one |
| Reduction.BlockIgnoresOrder | extended.go:319 | a block depends only on the multiset of its values |
| Reduction.SortedEnds | extended.go:319-321 | the first of the sorted copy is the least value and the last the greatest |
| Reduction.BlockOrdered | extended.go:317-328 | min and max are values of the input and bound it; mean and the percentiles are ordered between them |
| Reduction.BlockSingle | extended.go:323 | a single value gives that value six times |
| Reduction.SummaryExample | extended.go:319-327 | [1, 2, 3, 4, 5] summarises to 1, 5, 3, 3, 4, 4.8 |
| Reduction.BlockExample | extended.go:317-328 | the block of [1, 2, 3, 4, 5] is 1, 5, 3, 3, 4, 4.8 |
| Reduction.RepsAsReals | extended.go:331 | each count converted, in order |
| Reduction.SimVector | extended.go:315-335 | 28 numbers: the four blocks and the four totals |
| Reduction.BlockIsOrdered | extended.go:317-328 | every block is ordered as above |
| Reduction.SimVectorSlices | extended.go:329-333 | each six-number slice is its block and the last four are the totals |
| Reduction.SimVectorLayout | extended.go:329-333 | the four blocks are each ordered; entries 24..27 are travel, service, idle and unassigned |
| Reduction.SimVectorConstantBlocks | extended.go:331-332 | the reps block and the unassigned block of a single count repeat it six times |
| Reduction.SimVectorOfNaiveSim | extended.go:304-333 | for a simulated day: the agent count six times, Unassigned six times, the service total, idle 0 and Unassigned at the end |
| Reduction.Total | extended.go:320 | the summation loop gives the sum |
| Reduction.SortedCopy | extended.go:319 | a fresh array holding the sorted copy |
| Reduction.Push | extended.go:317-328 | the push closure returns the block of its values |
| Reduction.RepsToReals | extended.go:331 | the conversion loop |
| Reduction.SimToVector | extended.go:315-335 | simToVector returns exactly the 28-number value model |

## Left out

- Floating point: float64 values are modelled by `real`, so rounding is not modelled. The proved equalities (unit norm, 4.8 in the example, exact sums) hold over the reals.
- Library functions are parameters of function type:
  - math.Sin (`Signal.Sine`);
  - math.Sqrt (`Signal.SqrtFn`, assumed only positive on positive inputs);
  - havKM (`Simulation.HavKM`, extended.go:337-343);
  - h3.LatLngToCell, Cell.UnmarshalText and h3.CellToLatLng (`Heatmap.CellOf`, `Heatmap.CellCenter`);
  - the rrule-go evaluator together with time.Now (`Recurrence.Occurrences`, which gives the occurrence offsets in hours);
  - the sqlite-vec engine (`Search.VecIndex`).
- math.Pow is modelled exactly, as `Signal.Pow2`, since its exponent is an integer.
- Persistence is not modelled: SQLite and sqlite-vec (initDB, ensureVecTable, saveScenario, saveEmbedding, indexEmbeddingVec). The fallback's stored rows are an input, with JSON decoding already done; a row that does not decode has no vector.
- The HTTP handlers, writeJSON, cors, main and the YAML configuration are I/O. The configuration enters as `Embedding.EmbeddingConfig` and as a default cycle parameter.
- maybeRunVroom is left out because it executes an external program. uuidNew is left out because it is random.
- The scenario registry and its mutex are concurrency.
- The web front end is not part of this model.
- The order of Go's map iteration in the heatmap is not modelled. The output is specified as a set of cells, with distinct keys.
- sort.Slice is unstable; the model sorts stably. `Search.CutToK` is therefore proved against a specification that any order of tied distances meets, `Search.TopK`, rather than against one fixed order.
- GoStrings.ToUpper: upper-cases ASCII letters and the two non-ASCII runes whose upper case is ASCII (U+0131, U+017F). Every other rune is left as it is. This is the only difference that matters for comparisons against ASCII tags.
- GoStrings.TrimSpace: uses the Unicode White_Space set, as unicode.IsSpace does.
- Numeric.TruncToInt: Go leaves int(x) undefined for an x outside the int range. The model truncates the unbounded value.
- Vroom.ServiceSeconds: its `*60` product is not wrapped, because it is at most 12000. The window products `Vroom.WindowStart` and `Vroom.WindowEnd` do wrap in int64, as in Go.
- Vroom.NoWindowWithoutDuration: stated only for minute counts within ±1.5e17, below the int64 wrap-around of the `*60` products. Beyond it the wrap decides the window test, as `Vroom.WrappedStartKeepsWindow` shows.
- Vroom.WindowOfAMinute: stated only for windows ending within 1.5e17 minutes, for the same reason.
- Simulation.ServiceSec: keeps Go's float product without truncation, unlike Vroom's integer service.
- GoStrings.SprintfVerb: only the %s verb is modelled, and extra arguments are ignored. They are all the source's format strings need, except `%d`, which is `GoStrings.FormatInt`.
- Signal.L2NormalizedUnit: unit norm is proved only under an exact square root. Float rounding makes it approximate in the source.
- Embedding.EmbedLayout: its body is empty, because its three facts follow from the definitions once unfolded. The lemma is kept as the statement of the successful case.
- Vroom.ServiceCapped: its body is empty, because the cap follows from `Numeric.Clamp` directly.
- Simulation.StatsOfTally: its body is empty, because it only connects the tally's outputs to the statistics.
- The primary sqlite-vec path is modelled only up to the statement text and the rows returned. An engine error (the statement of `Search.SearchSimilar` is not valid SQL) is modelled as an empty result, which leads to the fallback. Row scanning errors drop the row, as in the source.
- Vroom.ServiceOfWholeMinutes: holds over the reals only. In float64, int(m/200.0*200.0) loses a minute for m in {29, 57, 58, 113, 114, 115, 116}; 29 minutes give 1680 seconds instead of 1740.
- Recurrence.ExpandScheduleRRule: the log.Printf warning on a rule that does not parse (extended.go:139) is a side effect and is not modelled.

Where the description of the system and the code disagree, the model follows the code:

- The simulation's Unassigned is |accounts| minus |active accounts| (it counts the accounts not active that day), not 0.
- The heatmap emits a cell for every key of its map, including cells whose value is 0 (for example pinned_accounts over unpinned accounts).
- naiveSim and buildVroom default the cycle to 28, but heatmapFor defaults it to the server configuration.
- A query longer than the stored vectors makes cosineDistance panic, which is modelled as `Search.SearchError.IndexOutOfRange`.

## Findings

| source | as written | input that shows it | evidently intended | confidence | as-written member | corrected member |
|---|---|---|---|---|---|---|
| extended.go:93-94 | the statement's format has two %s verbs but only the placeholder list is passed, so the table prints as %!s(MISSING) and the sqlite-vec query can never run | any dim >= 1, e.g. dim = 3 gives `... FROM %!s(MISSING) ORDER BY d ASC LIMIT ?` | the table name `vec_embeddings_<dim>` as the second argument | not executed | Search.PrimaryQueryAsWritten, Search.PrimaryQueryMissingTable, Search.PrimaryQueryAsWrittenDiffers, Search.SearchSimilar | Search.PrimaryQuery, Search.PrimaryQueryNamesTable, Search.SearchSimilarCorrected |
