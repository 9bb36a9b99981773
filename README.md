# dest-admin panel core, modelled in Dafny

This project models the logic of an admin panel for a sports-services marketplace. The marketplace links partners (academies, gyms and turfs) with customers. The panel:

- signs an administrator in with a mailed one-time code;
- lists, filters, pages and exports partners, customers, course and turf orders, and support requests;
- drills into a partner's courses, batches and plans, or its turfs, courts and bookings;
- approves, disables and manually enrolls.

The model covers the part of the panel that computes. I/O is abstracted away throughout.

- **Search-token builder** (`SearchUtils`). It walks a record and collects lowercase search tokens: text, numbers, dates and times in many spellings. Values live in an arena of objects, and a visited set of object references stops the walk on cycles that pass through objects.
- **Record normalisers**:
  - `Partners`, `PartnerDetail` and `RecordHelpers`: partners, plans, batches, courses, courts and turfs;
  - `Customers`: customers;
  - `Orders`: course and turf orders, payments, the combined newest-first list and its totals;
  - `Support`: support requests;
  - `Supabase`: sports normalisation, page ranges, payment-id deduplication, partner lookup by identifier and course-order hydration.

  Each normaliser is a total function with its defaults spelled out. The four sports-list parsers are kept separate.
- **Roll-ups** of counts, in two places:
  - the nested records in `PartnerDetail`;
  - the foreign-key joins of the partner pages in `PartnerCourses` and `PartnerTurfs`.
- **Table logic**:
  - `DataTable`: the global search filter, page-size choice, page window and toggling all columns;
  - `OrdersTabs`, `SupportTabs`, `CustomersTable`, `PartnersTable` and `FilterOptions`: per-page filters and option lists;
  - `PartnerSection`: state shared by the two partner sections.
- **State machines**. Each is a `class` whose methods change its fields:
  - sessions in `Auth`;
  - the OTP login form in `LoginForm`;
  - the partners page in `PartnersPage`;
  - the manual-enrollment dialog in `ManualEnrollment`;
  - the support queues in `SupportTabs`;
  - the order tabs in `OrdersTabs`;
  - the data table in `DataTable`.
- **CSV export** (`CsvExport`, `ExportColumns`). The serialiser quotes cells as rules 6 and 7 of section 2 of RFC 4180 require, but separates records with a line feed. A reference reader is defined beside it, and an export is proved to read back as its header labels followed by every row's cell texts.
- **API routes**:
  - `PartnersRoutes`: the `parseInt`-based page and limit checks, and the active-partner list with its limit;
  - `EnrollmentRoute`: validation and construction of a manual enrollment record.

Shared definitions sit in their own modules:

- `Json` is the loose JavaScript value model: `undefined`, `null`, booleans, integer numbers, `NaN`, strings, arrays and objects, with truthiness, `??`, `||`, `String()` and `Number()`.
- `Strings` covers trimming, case, splitting, joining and printing integers.
- `Seqs` holds filters and sums.
- `Wrappers` holds `Option`.
- `Utils` holds the role terminology.

Foreign behaviour is passed in as a function parameter and left uninterpreted:

- `JSON.parse`;
- the YouTube id regex;
- date parsing and formatting;
- `Intl` currency formatting;
- `parseFloat`;
- the random digits of a one-time code;
- the clock.

## Model

| member | source | states |
|---|---|---|
| Auth.GenerateOtp | lib/auth.js:12-21 | the code has exactly six characters, all decimal digits, the i-th being the i-th random draw |
| Auth.ReadSession | lib/auth.js:37-65 | nothing stored gives null and keeps the entry; a parse failure, a missing or non-numeric `expiresAt`, or an expiry at or before now gives null and removes the entry; a returned session is the parsed text and expires after now; and a parsed session whose numeric `expiresAt` lies after now is returned with the entry kept |
| Auth.PersistThenRead | lib/auth.js:23-65 | a session persisted at t reads back unchanged before t plus six hours and reads as null, with the entry removed, from then on |
| Auth.SessionStore.constructor | lib/auth.js:42 | the store starts with the given entries |
| Auth.SessionStore.Persist | lib/auth.js:23-35 | the session key holds `{issuedAt, expiresAt}` with expiresAt = now + 6·3600·1000; no other key changes |
| Auth.SessionStore.Read | lib/auth.js:37-65 | the result is that of `ReadSession`; the key is removed exactly when `ReadSession` says so and nothing else changes |
| Auth.SessionStore.Clear | lib/auth.js:67-72 | only the session key is removed |
| Utils.RoleTerminology | lib/utils.js:8-36 | the wording is one of the three sets, and a null or undefined role gets the academy wording |
| Utils.GymAndTurf | lib/utils.js:9-25 | a role that lowercases to "gym" gets Program/Programs/Member, one that lowercases to "turf" gets Turf/Turfs/Player |
| Utils.OtherRolesAreAcademy | lib/utils.js:26-35 | every other role gets Course/Courses/Student |
| Utils.RoleCaseInsensitive | lib/utils.js:9 | a role and its lowercase form get the same wording |
| SearchUtils.Insert | lib/search-utils.js:48 | after `add` the token is in the set, which grew by at most one |
| SearchUtils.InsertKeepsValid | lib/search-utils.js:48 | adding keeps the set free of duplicates and made of tokens |
| SearchUtils.InsertAllMembers | lib/search-utils.js:129 | after a run of additions the set holds exactly the old tokens and the added ones |
| SearchUtils.TextTokens | lib/search-utils.js:42-52 | a string adds at most two tokens |
| SearchUtils.TextTokensAreTokens | lib/search-utils.js:42-52 | every token a string adds is non-empty, trimmed and lowercase |
| SearchUtils.TextTokensShape | lib/search-utils.js:42-52 | a string adds nothing iff it trims to nothing or to "—"; otherwise its trimmed lowercase form comes first, and a second token is its `[a-z0-9]` compaction, different from the first |
| SearchUtils.TextTokensOfToken | lib/search-utils.js:42-48 | a token other than "—" is indexed as itself |
| SearchUtils.NumberTokens | lib/search-utils.js:26-40 | a finite number adds two or three tokens |
| SearchUtils.NumberTokensContents | lib/search-utils.js:31-38 | a number adds its numeral, its two-decimal form and its digits without the sign, all tokens |
| SearchUtils.DigitsOfInt | lib/search-utils.js:35 | removing every non-digit from a numeral leaves the digits of its absolute value |
| SearchUtils.Hour12 | lib/search-utils.js:76 | `((hour + 11) % 12) + 1` lies in 1..12 and agrees with the hour modulo 12 |
| SearchUtils.MatchClock | lib/search-utils.js:71-74 | a match of `^(\d{1,2}):(\d{2})$` gives an hour below 100 and two minute digits |
| SearchUtils.ClockTokens | lib/search-utils.js:71-81 | an `H:MM` text adds at most four 12-hour tokens |
| SearchUtils.CompactTokens | lib/search-utils.js:66-69 | the whitespace-free form adds at most two tokens |
| SearchUtils.TimeTokens | lib/search-utils.js:55-63 | a blank text or "—" adds nothing |
| SearchUtils.ClockTokensAreTokens | lib/search-utils.js:71-81 | every 12-hour token is a token |
| SearchUtils.TimeTokensAreTokens | lib/search-utils.js:55-82 | every token a time text adds is a token |
| SearchUtils.TimeTokensSplit | lib/search-utils.js:65-81 | a non-blank time adds the text's tokens, then the whitespace-free form's, then the 12-hour forms' |
| SearchUtils.ClockVariant | lib/search-utils.js:71-81 | for `H:MM` the 12-hour variant is indexed, its hour is in 1..12 and it reads "pm" iff the hour is at least 12 |
| SearchUtils.DateVariants | lib/search-utils.js:110-127 | there are sixteen renderings; the 7th to 9th and the 11th are dd/mm/yyyy, d/m/yyyy, m/d/yyyy and yyyy-mm-dd |
| SearchUtils.NamedDateVariants | lib/search-utils.js:111-116 | the six month-name and dash renderings |
| SearchUtils.NumericDateVariants | lib/search-utils.js:117-121 | the five slashed and ISO-like numeric renderings |
| SearchUtils.TimedDateVariants | lib/search-utils.js:122-126 | the five renderings with a time of day |
| SearchUtils.DateTokensAreTokens | lib/search-utils.js:96-132 | every token a valid date adds is a token |
| SearchUtils.DateTokensInclude | lib/search-utils.js:110-121 | a valid date is indexed under its yyyy-mm-dd, dd/mm/yyyy, d/m/yyyy and m/d/yyyy renderings |
| SearchUtils.DateValueTokens | lib/search-utils.js:84-87 | a falsy value adds nothing |
| SearchUtils.DateValueTokensAreTokens | lib/search-utils.js:84-136 | every token a date value adds, including an unparseable string taken as it is, is a token |
| SearchUtils.Emit | lib/search-utils.js:1-53 | the walk only grows the visited set; it terminates because each expanded object moves an unvisited reference into it |
| SearchUtils.EmitSeq | lib/search-utils.js:6-9 | the entries of an array are walked in order, threading the visited set |
| SearchUtils.EmitTokensAreTokens | lib/search-utils.js:1-53 | every token the walk adds is non-empty, lowercase and trimmed |
| SearchUtils.EmitSeqStep | lib/search-utils.js:7 | walking one more entry appends that entry's tokens and continues from the visited set it leaves |
| SearchUtils.VisitedRefIsSkipped | lib/search-utils.js:18-20 | an object already visited adds nothing and leaves the visited set unchanged |
| SearchUtils.SkippedValues | lib/search-utils.js:2-4 | values that are falsy and not 0 add nothing |
| SearchUtils.MutualReferenceExpandedOnce | lib/search-utils.js:16-24 | two objects that refer to each other are each expanded once and the walk stops |
| SearchUtils.RefFreeIgnoresVisited | lib/search-utils.js:1-53 | a value without object references neither depends on nor changes the visited set |
| SearchUtils.ArrayTokensAreEntryTokens | lib/search-utils.js:6-9 | an array without references adds exactly its entries' tokens, entry by entry |
| SearchUtils.ItemTokensSnoc | lib/search-utils.js:7 | the per-entry token lists of an array end with the last entry's |
| SearchUtils.SearchString | lib/search-utils.js:138-140 | every token is a substring of the joined search string |
| SearchUtils.TokenSet.constructor | lib/search-utils.js:1 | a new target set is empty |
| SearchUtils.TokenSet.Add | lib/search-utils.js:33 | `add` inserts the token at the end unless present |
| SearchUtils.TokenSet.AddText | lib/search-utils.js:42-52 | the set grows by exactly the string's tokens |
| SearchUtils.TokenSet.AddNumber | lib/search-utils.js:26-40 | the set grows by exactly the number's tokens |
| SearchUtils.TokenSet.AddSearchValue | lib/search-utils.js:1-53 | the set grows by exactly the walk's tokens, and the visited set returned is the walk's |
| SearchUtils.TokenSet.AddObject | lib/search-utils.js:16-24 | an unvisited object is marked visited and its values are added; a visited one adds nothing |
| SearchUtils.TokenSet.AddEach | lib/search-utils.js:7 | adding each entry in turn adds the entries' tokens in order |
| SearchUtils.TokenSet.AddTimeVariants | lib/search-utils.js:55-82 | the set grows by exactly the time text's tokens |
| SearchUtils.TokenSet.AddCompact | lib/search-utils.js:66-69 | the set grows by the whitespace-free form's tokens |
| SearchUtils.TokenSet.AddClock | lib/search-utils.js:71-81 | the set grows by the 12-hour forms' tokens |
| SearchUtils.TokenSet.AddDate | lib/search-utils.js:96-132 | the set grows by exactly the valid date's tokens |
| SearchUtils.TokenSet.AddDateValue | lib/search-utils.js:84-136 | the set grows by exactly the value's date tokens |
| SearchUtils.TokenSet.SearchText | lib/search-utils.js:138-140 | every token in the set is a substring of the search string |
| RecordHelpers.FormatDate | lib/partners.js:7-18 | a falsy date value renders as "-" |
| RecordHelpers.EntryCount | lib/partners.js:225 | a numeric `count` is taken as it is; any other count is a number (`Number(x) \|\| 0`), never NaN |
| RecordHelpers.ExtractAggregateCount | lib/partners.js:219-228 | a non-array or an empty array gives 0 |
| RecordHelpers.SumCountsIsTotal | lib/partners.js:224-227 | without a NaN count the aggregate is the sum of the counts, non-numeric ones read as 0; one NaN count makes it NaN |
| RecordHelpers.CountTotalAppend | lib/partners.js:224-227 | the sum of counts splits over a concatenation of the entries |
| RecordHelpers.StripQuote | lib/partners.js:55 | removing one leading and one trailing quote never lengthens the text |
| RecordHelpers.CleanSports | lib/partners.js:55 | each delimited part is cleaned, one result per part, each trimmed |
| RecordHelpers.CleanPlain | lib/partners.js:55 | an unquoted trimmed part is kept as it is |
| RecordHelpers.CleanPadded | lib/partners.js:55 | a part after ", " loses the space |
| RecordHelpers.CleanQuoted | lib/partners.js:55 | a double-quoted part loses its quotes |
| Partners.AddressText | lib/partners.js:20-27 | a falsy address or a non-object gives "" |
| Partners.PresentTexts | lib/partners.js:25 | filtering out falsy parts never adds any |
| Partners.PresentTextsKeepTruthy | lib/partners.js:25 | every truthy part is kept |
| Partners.PresentTextsOfFalsy | lib/partners.js:25 | all-falsy parts give no text |
| Partners.AddressTextHasParts | lib/partners.js:20-27 | each truthy street, city, state or pin occurs in the address text |
| Partners.AddressTextOfEmpty | lib/partners.js:20-27 | an address whose four parts are falsy reads as "" |
| Partners.StripSquare | lib/partners.js:53 | removing one leading `[` and one trailing `]` never lengthens the text |
| Partners.CommaSports | lib/partners.js:52-56 | the fallback gives non-empty trimmed names |
| Partners.ParseSports | lib/partners.js:29-60 | every sport is non-empty and trimmed; falsy input and anything but an array or a string give [] |
| Partners.CommaPair | lib/partners.js:52-56 | two parts that clean to two names are the whole fallback answer |
| Partners.CommaSportsPair | lib/partners.js:52-56 | "a, b" splits into the two names |
| Partners.CommaSportsQuotedPair | lib/partners.js:52-56 | `["a","b"]` read by the fallback gives the two names |
| Partners.QuotedPairInner | lib/partners.js:53-54 | stripping the brackets of `["a","b"]` leaves two quoted parts split at the one comma |
| Partners.BracketedSports | lib/partners.js:41-56 | bracketed text is read as JSON when it parses to an array, and by the fallback otherwise |
| Partners.JsonSportsPair | lib/partners.js:38-56 | two names written as a JSON array text read as those names whether or not the text parses |
| Partners.PlainSportsPair | lib/partners.js:38-56 | "a, b" reads as the two names |
| Partners.VideoSource | lib/partners.js:88-94 | a URL that yields a video id gives the embed URL with that id; otherwise the raw data |
| Partners.GalleryEntry | lib/partners.js:82-117 | an entry's id is its source index as text; a falsy item gives nothing; a non-empty string is an image titled "Gallery image" |
| Partners.GalleryEntries | lib/partners.js:81-117 | one candidate per source item, built from that item and its index |
| Partners.ParseGallery | lib/partners.js:62-80 | falsy input, text that does not parse and anything but an array or a string give [] |
| Partners.GalleryIdsAreIndices | lib/partners.js:81-118 | every output entry is built from some source position and its id is that position |
| Partners.GalleryOfUrls | lib/partners.js:107-118 | a gallery of non-empty URLs keeps all of them |
| Partners.VideoEntry | lib/partners.js:87-95 | a video item is a video; an id found gives the embed URL, none keeps the URL; a missing name gives "Gallery video" |
| Partners.NormalizePartner | lib/partners.js:121-193 | a non-object gives the default record; otherwise status, type and `verified` follow their rules |
| Partners.StatusRules | lib/partners.js:151-152 | the status is lowercase, and without a string status it is "active" iff verified and "pending" otherwise |
| Partners.TypeRules | lib/partners.js:153-154 | the type is lowercase, `type` before `partner_type`, and "academy" when all three fields are nullish |
| Partners.DatesOfPartner | lib/partners.js:162-191 | no creation date means joinedAt "-"; lastActive falls back to the creation date; raw dates are never undefined |
| Partners.CityOfPartner | lib/partners.js:150-175 | the city is the partner's, else the address's city or town, else "" |
| Partners.FallbacksOfPartner | lib/partners.js:167-182 | the slug falls back to the id; state, pin and street are never nullish; no address object gives no address text |
| PartnerDetail.DeriveMetadata | lib/partners.js:230-254 | the loop builds exactly the metadata map: the entries outside the exclude set whose values are neither nullish nor objects |
| PartnerDetail.MetadataFields | lib/partners.js:237-251 | the metadata never holds an excluded key, a nullish value or an object, and keeps every other field with its value |
| PartnerDetail.MetadataOrNull | lib/partners.js:310 | empty metadata becomes null; otherwise it is the derived metadata |
| PartnerDetail.NoMetadataWhenAllExcluded | lib/partners.js:292-310 | an object holding only excluded keys has null metadata |
| PartnerDetail.NormalizeCoach | lib/partners.js:204-217 | a coach exists iff the entry is a truthy object; its id and name are never nullish and its date never undefined |
| PartnerDetail.NormalizePlan | lib/partners.js:256-312 | a plan exists iff the entry is a truthy object, and its booking count is the aggregate of its `students` |
| PartnerDetail.PlanPrice | lib/partners.js:262-306 | price is fees, else price, else amount, else null; `fees` equals the price; `active` defaults to true when absent |
| PartnerDetail.PlanBookings | lib/partners.js:321 | the plans' booking counts, one per plan |
| PartnerDetail.NormalizeBatch | lib/partners.js:314-366 | a batch exists iff the entry is a truthy object; its plans are the kept `batch_plans`, its plan count their number and its booking count their sum |
| PartnerDetail.BatchPlanCounts | lib/partners.js:375 | the batches' plan counts, one per batch |
| PartnerDetail.BatchBookings | lib/partners.js:376 | the batches' booking counts, one per batch |
| PartnerDetail.NormalizeCourse | lib/partners.js:368-428 | a course exists iff the entry is a truthy object; its plan and booking counts are the sums of its batches' |
| PartnerDetail.BatchesCounted | lib/partners.js:373 | every batch kept from a list carries counts rolled up from its plans |
| PartnerDetail.BatchesRollUp | lib/partners.js:319-376 | summed batch counts equal the number of plans and the bookings over all plans of those batches |
| PartnerDetail.CourseRollUp | lib/partners.js:368-428 | a course's plan count is the number of its plans and its booking count the total over all of them |
| PartnerDetail.CourtKey | lib/partners.js:528-539 | a declined booking counts for no court |
| PartnerDetail.CourtCountsAreOccurrences | lib/partners.js:528-542 | each court's entry is the number of its counted bookings, and a court appears only when that is positive |
| PartnerDetail.DeclinedNotCounted | lib/partners.js:529-531 | adding a declined booking changes no court's count |
| PartnerDetail.BookingCountsByCourt | lib/partners.js:528-542 | the loop that fills the map gives exactly the per-court counts |
| PartnerDetail.NormalizeCourt | lib/partners.js:430-472 | a court exists iff the entry is a truthy object; its booking count is the count under its id text, 0 when absent |
| PartnerDetail.CourtBookings | lib/partners.js:483 | the courts' booking counts, one per court |
| PartnerDetail.NormalizeTurf | lib/partners.js:474-518 | a turf exists iff the entry is a truthy object; its courts are the kept ones, its court count their number and its booking count their sum |
| PartnerDetail.TurfCourtCounts | lib/partners.js:558 | the turfs' court counts, one per turf |
| PartnerDetail.TurfBookings | lib/partners.js:559 | the turfs' booking counts, one per turf |
| PartnerDetail.TurfsRollUp | lib/partners.js:480-559 | summed turf counts equal the number of courts and the bookings over all courts |
| PartnerDetail.CourseBatchCounts | lib/partners.js:555 | the courses' batch counts, one per course |
| PartnerDetail.CoursePlanCounts | lib/partners.js:556 | the courses' plan counts, one per course |
| PartnerDetail.CourseBookings | lib/partners.js:557 | the courses' booking counts, one per course |
| PartnerDetail.CoursesCounted | lib/partners.js:547-549 | every course kept from a list carries rolled-up counts |
| PartnerDetail.TurfsCounted | lib/partners.js:550-554 | every turf kept from a list carries rolled-up counts |
| PartnerDetail.DetailOf | lib/partners.js:520-583 | an academy has no turfs and empty turf courts and bookings; otherwise turfs are the kept ones and turf courts and bookings pass through unchanged; coaches are the tutors that normalise, in order; courses are the kept ones; batches, batch plans and enrollments pass through unchanged; metrics are computed from them; every course and turf is counted |
| PartnerDetail.NormalizeDetail | lib/partners.js:520-525 | a detail exists iff the partner is truthy, built around the normalised base record |
| PartnerDetail.MetricsRollUp | lib/partners.js:555-582 | the metrics are the counts over every batch, plan, court and booking reachable from the courses and turfs |
| PartnerDetail.CoursesRollUp | lib/partners.js:555-557 | course-level sums equal the sums over every batch and every plan |
| PartnerDetail.CoursesBatchRollUp | lib/partners.js:555 | summed batch counts equal the number of batches |
| PartnerDetail.CoursesPlanRollUp | lib/partners.js:556 | summed plan counts equal the number of plans under all courses |
| PartnerDetail.CoursesBookingRollUp | lib/partners.js:557 | summed booking counts equal the bookings over all plans under all courses |
| PartnerDetail.CourtCountInDetail | lib/partners.js:527-542 | a court's count is the number of non-declined bookings in `turfBookings` for its id |
| Customers.StripBrackets | lib/customers.js:59 | removing one leading `[`/`{` and one trailing `]`/`}` never lengthens the text |
| Customers.DelimitedSports | lib/customers.js:58-62 | the fallback gives non-empty trimmed names |
| Customers.ParseLikedSports | lib/customers.js:31-66 | every sport is non-empty and trimmed; falsy or blank input gives [] |
| Customers.CleanedPair | lib/customers.js:58-62 | two parts that clean to two names are the whole fallback answer |
| Customers.DelimitedPair | lib/customers.js:58-62 | "a, b" splits into the two names |
| Customers.PlainPairParts | lib/customers.js:59-60 | "a, b" has no brackets to strip and splits at its one comma |
| Customers.DelimitedQuotedPair | lib/customers.js:58-62 | `["a","b"]` read by the fallback gives the two names unquoted |
| Customers.ArraySports | lib/customers.js:36-38 | an array of trimmed non-empty names reads as those names |
| Customers.BracketedText | lib/customers.js:47-62 | bracketed text is read as JSON when it parses to an array, and by the fallback otherwise |
| Customers.JsonTextPair | lib/customers.js:40-62 | `'["tennis","golf"]'` reads as the two names whether or not it parses |
| Customers.PlainTextPair | lib/customers.js:40-62 | "tennis, golf" reads as the two names |
| Customers.ResolveInitials | lib/customers.js:68-83 | at most two characters, none a lowercase letter; a non-string or "" gives "" |
| Customers.ManyWordInitials | lib/customers.js:73-82 | for two or more words separated by single spaces, the initials are the upper-cased first letters of the first and the last word |
| Customers.JoinedWords | lib/customers.js:73 | words joined by single spaces form trimmed, non-empty text that splits back into the same words |
| Customers.OneWordInitials | lib/customers.js:78-80 | a one-word name gives its first two characters uppercased |
| Customers.TwoWordInitials | lib/customers.js:82 | a two-word name gives the uppercased first letters of both words |
| Customers.NormalizeCustomer | lib/customers.js:85-132 | a non-object gives the default record (0 enrollments, 0 bookings, no sports); otherwise the name defaults to "Unnamed customer", the pincode is stringified when present and "" otherwise, `lastUpdatedAt` falls back to `created_at`, and id, email, phone, gender and the raw sports are never nullish |
| Orders.ToAmountCases | lib/orders.js:57-64 | a number is its own amount; null, undefined, "" and NaN give 0; blank text gives 0; other text gives the value of its trimmed numeric literal, 0 when it does not read as a finite whole number |
| Orders.AmountOfLiteral | lib/orders.js:62-63 | text without surrounding white space is the amount its numeric literal reads as, 0 when it reads as nothing |
| Orders.AmountWithPointZeros | lib/orders.js:62-63 | "100.00" is the amount 100 |
| Orders.AmountWithExponent | lib/orders.js:62-63 | "1e3" is the amount 1000 |
| Orders.AmountWithHexPrefix | lib/orders.js:62-63 | "0x10" is the amount 16 |
| Orders.AmountWithFraction | lib/orders.js:62-63 | "12.5" lies outside the whole numbers the model holds and counts as 0 |
| Orders.AmountOfWord | lib/orders.js:62-63 | "abc" (NaN) and "Infinity" (not finite) count as 0 |
| Strings.DecimalDigits | lib/orders.js:62 | a run of decimal digits reads, under `Number`, as its decimal value |
| Strings.NegatedDecimal | lib/orders.js:62 | a minus sign before an unsigned decimal literal negates its value |
| Strings.IntToStringRoundTrip | lib/orders.js:62 | `Number(String(n))` is `n` for every integer |
| Strings.PointZerosLiteral | lib/orders.js:62 | digits, a point and only zeros read as the digits' value |
| Strings.ExponentLiteral | lib/orders.js:62 | digits, `e` and a natural exponent k read as the digits' value times 10^k |
| Strings.PrefixedLiteral | lib/orders.js:62 | after `0x`, `0b` or `0o` the digits are read in base 16, 2 or 8 |
| Strings.FractionLiteral | lib/orders.js:62 | digits, a point and digits ending in a non-zero digit are a fraction, outside the whole numbers |
| Strings.SignedPrefixIsNaN | lib/orders.js:62 | a sign before `0x`, `0b` or `0o` makes the text NaN |
| Strings.WordIsNaN | lib/orders.js:62 | text starting with anything but a digit, a sign, a point or an exponent mark reads as nothing |
| Strings.UnsignedLiteral | lib/orders.js:62 | text with no radix prefix and no sign is read as an unsigned decimal literal |
| Strings.RadixLiteral | lib/orders.js:62 | after a radix prefix the text reads as a number exactly when it is a non-empty run of that radix's digits |
| Orders.ToAmountOfNumeral | lib/orders.js:62-63 | a numeral text reads back as its number |
| Orders.SafeString | lib/orders.js:66-68 | a string is kept; null and undefined give "" |
| Orders.FormatTime | lib/orders.js:41-55 | a falsy value gives "-"; a text gives its first five characters (all of it when shorter) |
| Orders.Capitalize | lib/orders.js:87 | same length, first character not a lowercase letter, the rest unchanged |
| Orders.KnownCourseStatus | lib/orders.js:75-85 | whatever their case, completed, active and success give Completed, cancelled and canceled give Cancelled, and failed gives Failed |
| Orders.DeriveCourseStatus | lib/orders.js:70-89 | a falsy status gives "Pending", and the label is never empty |
| Orders.DeriveTurfStatus | lib/orders.js:91-96 | the status is "Declined" exactly when `declined` is truthy, and "Accepted" otherwise |
| Orders.UnknownCourseStatus | lib/orders.js:86-87 | any other status is returned with its first letter capitalised and the rest unchanged |
| Orders.NormalizePayment | lib/orders.js:98-115 | a payment exists iff the value is a truthy object; its status is never empty ("Unknown" default), its amount is `toAmount(amount)`, and currency defaults to "INR" |
| Orders.CustomerOf | lib/orders.js:142-148 | the customer name is never empty ("Unknown customer" default) |
| Orders.PlanAmountCases | lib/orders.js:127 | `fees` wins over `price`; with neither the amount is 0 |
| Orders.NormalizeCourseOrder | lib/orders.js:117-165 | an order exists iff the value is a truthy object; it is a course order with a plan and no booking, `plan.fees` equals `amount`, which is the plan amount, and `statusRaw` is lowercase |
| Orders.NormalizeTurfOrder | lib/orders.js:167-216 | an order exists iff the value is a truthy object; it is a turf order with a booking and no plan, currency "INR", amount `toAmount(total_amount)`; status is "Declined" and statusRaw "declined" iff declined, otherwise "Accepted"/"accepted" |
| Orders.Tag | lib/orders.js:222-227 | the tagged order keeps the order, shows its amount and carries the detail type |
| Orders.Tagged | lib/orders.js:221-237 | one tagged entry per order, in order |
| Orders.InsertByTime | lib/orders.js:239-243 | one insertion step: the result holds the sorted list plus the new entry, one longer |
| Orders.SortByTime | lib/orders.js:238-243 | the stable sort on values: the result is a permutation of the input, of the same length |
| Orders.InsertByTimeNewestFirst | lib/orders.js:238-243 | inserting into a newest-first list keeps it newest first |
| Orders.SortByTimeNewestFirst | lib/orders.js:238-243 | the sorted list is newest first, a missing creation date counting as 0 |
| Orders.InsertByTimeStable | lib/orders.js:238-243 | an inserted entry passes only strictly older entries, so it stays behind every entry it ties with |
| Orders.SortByTimeStable | lib/orders.js:238-243 | the sort is stable: the entries with any one timestamp come out in the order they went in |
| Orders.SortNewestFirst | lib/orders.js:239-243 | the array ends as the stable newest-first sort of what it held, hence newest first and a permutation |
| Orders.InsertNewest | lib/orders.js:239-243 | one insertion pass leaves the prefix as the new entry inserted into the sorted prefix, and the rest of the array unchanged |
| Orders.InsertingStep | lib/orders.js:239-243 | swapping the moving entry past a strictly older one keeps the pass's invariant |
| Orders.InsertingDone | lib/orders.js:239-243 | once the entry before is at least as new, the prefix is the inserted list |
| Orders.Swap | lib/orders.js:239 | swapping two entries keeps the contents |
| Orders.BuildCombinedOrders | lib/orders.js:218-244 | the result is the stable newest-first sort of the tagged course orders followed by the tagged turf orders: a permutation of them, newest first |
| Orders.CombinedTiesCourseFirst | lib/orders.js:218-244 | among orders created at the same time the course orders stay ahead of the turf orders, each group in its fetched order |
| Orders.ComputeTotals | lib/orders.js:246-256 | the count is the number of orders and the amount the sum of their amounts |
| Orders.CombinedTotals | lib/orders.js:315 | the same totals over the combined list |
| Orders.TaggedAmount | lib/orders.js:224 | tagging keeps the sum of amounts |
| Orders.RemoveAt | lib/orders.js:239-243 | removing one entry removes it from the multiset and its amount from the sum |
| Orders.TotalsOfPermutation | lib/orders.js:239-315 | reordering the combined list does not change its totals |
| Orders.CombinedTotalsSplit | lib/orders.js:312-316 | the combined totals are the course totals plus the turf totals, in count and amount |
| Orders.PaymentIdsSpec | lib/orders.js:266-278 | every payment id appears once, and an id appears iff some order carries it |
| Orders.CollectPaymentIds | lib/orders.js:266-278 | the two loops collect exactly the deduplicated ids over both lists |
| Orders.AddPaymentId | lib/orders.js:269-271 | one order's truthy id is added unless already present |
| Orders.PaymentMap | lib/orders.js:280-288 | no ids (no query) or a failed query leave the map empty |
| Orders.WithPayment | lib/orders.js:290-298 | only `payment` may change; it is the looked-up payment when the order's id is found, otherwise the order is unchanged |
| Orders.PaymentJoin | lib/orders.js:290-302 | a course order gets the looked-up payment when its id is found, and keeps its own otherwise |
| Orders.Hydrated | lib/orders.js:290-298 | each order joined with its payment, one per order |
| Orders.HydratedInputs | lib/orders.js:290-302 | the join keeps every course order's status, so normalising the joined orders cannot throw |
| Orders.FetchOrders | lib/orders.js:258-321 | the course and turf orders are the joined, normalised lists; the combined list is the stable newest-first sort of their tagged concatenation; course and turf totals are computed on them and the combined totals are their sums |
| Support.OrChainSpec | lib/support.js:38-41 | an `\|\|` chain gives the first truthy value, and the last value when none is truthy |
| Support.Fields | lib/support.js:38-41 | the record's fields under the listed keys, in order |
| Support.PickEntity | lib/support.js:32-42 | a falsy record gives null; the result is null or truthy |
| Support.PickEntityOrder | lib/support.js:37-41 | the entity is the first truthy field in precedence order (partner, partners, entity; or customer, user, users, entity), and null iff none is truthy |
| Support.SafeText | lib/support.js:24-30 | a string is kept; null and undefined give "" |
| Support.Resolved | lib/support.js:67-102 | the request keeps its audience, `resolved` is the truthiness of `record.resolved`, and no `updatedAt` gives the label "-" |
| Support.NormalizeSupportRequest | lib/support.js:44-108 | a falsy or non-object record gives the default record ("Unknown", unresolved, "-" labels); otherwise the resolved record with its search index |
| Support.EntityNameOrder | lib/support.js:69-90 | the entity's name wins; else the audience's name field, `entity_name`, `name`; else "Unknown partner" or "Unknown customer" |
| Support.AliasOrder | lib/support.js:77-80 | each alias takes the first truthy source; with all sources nullish the field is "" |
| Support.ToValue | lib/support.js:116-129 | a record field as the token walk sees it holds no object reference |
| Support.IndexedValues | lib/support.js:116-129 | twelve values are indexed, the last being "resolved" or "open" |
| Support.SupportIndex | lib/support.js:110-113 | no record gives "" |
| Support.BuildSupportSearchIndex | lib/support.js:110-133 | the token set it fills gives exactly the specified index |
| Support.ListedToken | lib/support.js:116-129 | a token listed among the indexed values is among their tokens |
| Support.ValuesHaveStatus | lib/support.js:128 | the status word is among the values' tokens |
| Support.IndexHasStatus | lib/support.js:110-133 | every index contains "resolved" or "open" according to the request |
| Support.Queue | lib/support.js:150-155 | an array gives one request per entry; anything else gives [] |
| Support.FetchSupportQueues | lib/support.js:135-157 | each queue depends on its own fetch only; a failed fetch gives [] for that queue and leaves the other alone |
| Support.QueuesAreTyped | lib/support.js:151-154 | partner requests are typed "partner" and customer requests "customer" |
| Supabase.CommaParts | lib/supabase.js:66 | every part of the comma split is non-empty and trimmed |
| Supabase.NormalizeSports | lib/supabase.js:50-70 | falsy input gives no sports, an array is returned as it is, bracketed text that parses as an array gives the parsed items, and a value that is neither text nor array gives no sports |
| Supabase.SportsOfText | lib/supabase.js:55-66 | non-empty text gives either the parsed array of its trimmed, bracketed form or its comma-separated trimmed words, and nothing else |
| Supabase.CommaListRoundTrip | lib/supabase.js:55-66 | plain words joined with commas normalise back to exactly those words, in order |
| Supabase.UnparsedBracketsKept | lib/supabase.js:57-66 | bracketed text whose parse fails keeps its brackets as one sport |
| Supabase.PageRange | lib/supabase.js:86-87 | the inclusive range `[from, to]` holds exactly `limit` rows |
| Supabase.PagesAdjacent | lib/supabase.js:86-87 | the next page starts on the row after this page ends: no row is skipped or fetched twice |
| Supabase.HasMoreMeansRowsBeyond | lib/supabase.js:86-119 | for a valid page, `hasMore` holds exactly when the total exceeds the rows up to this page's end, and then the next page starts inside the total |
| Supabase.WithSports | lib/supabase.js:111-114 | an object row gets `sports` normalised and keeps every other field |
| Supabase.PaginatedPartners | lib/supabase.js:86-121 | PGRST103 gives an empty page without more; any other error throws "Unable to fetch partners"; otherwise one normalised row per data row, the count or 0 as total, and `hasMore` as defined |
| Supabase.ToggleDisabled | lib/supabase.js:149-189 | a missing id, a failed read and a missing row each throw their message; a failed update throws "Unable to update partner status" and an update returning no row throws "Partner not found"; it succeeds exactly when none of these happens, and then the written flag is the negation of the stored `disabled` and the result is the updated row |
| Supabase.ToggleTwice | lib/supabase.js:170 | toggling twice restores a boolean flag; a row without the flag becomes disabled |
| Supabase.Where | lib/supabase.js:544 | the kept values satisfy the filter, come from the input, and every input value that satisfies it is kept |
| Supabase.Distinct | lib/supabase.js:542-546 | the same values as the input, each exactly once |
| Supabase.PaymentQueryIds | lib/supabase.js:542-546 | the queried ids are exactly the argument's non-blank text ids, with no repeats |
| Supabase.PaymentsByIds | lib/supabase.js:541-564 | no surviving id gives no payments; a successful array answer is returned as it is |
| Supabase.NoIdsNoQuery | lib/supabase.js:548-550 | without a usable id the result is empty whatever the backend answers |
| Supabase.FirstHitWins | lib/supabase.js:223-237 | a found row is the answer of a column all of whose predecessors missed; no row is found exactly when every column misses |
| Supabase.PartnerDetailLookup | lib/supabase.js:191-295 | an empty identifier throws "Partner identifier is required"; a found row comes from one of `id`, `public_id`, `slug` |
| Supabase.IdPrecedence | lib/supabase.js:217-221 | an `id` hit wins; a missed `id` followed by a `public_id` hit returns the `public_id` row |
| Supabase.FindPartnerDetail | lib/supabase.js:223-237 | the loop over the attempts returns the lookup's outcome |
| Supabase.TruthyColumn | lib/supabase.js:392-398 | the result holds exactly the truthy values of the column among the rows |
| Supabase.IdIndexKeys | lib/supabase.js:386-390 | an id is a key of the map exactly when some row carries it as a truthy `id` |
| Supabase.IdIndexLast | lib/supabase.js:386-390 | a key maps to the last row carrying that id |
| Supabase.IndexById | lib/supabase.js:386-442 | the loop builds the id map |
| Supabase.AddIds | lib/supabase.js:415-427 | adding a column's truthy values to an insertion-ordered set gives the distinct values of the old and new ids together |
| Supabase.ResolvedCourse | lib/supabase.js:464-466 | a known course through the plan's `course_id` wins; otherwise the course through the batch's `course_id` when it is known; an unresolved course is null |
| Supabase.HydrationCases | lib/supabase.js:452-483 | no plan id leaves the enrollment unchanged; an unknown plan gives `plan: null`; otherwise the joined plan keeps every field of the plan other than `batch` and `course`, carries its batch (null when unknown) and the course resolved from the plan first, the batch second; a known batch keeps every field other than `course`, and its `course` is its own unless null or undefined, else the resolved course; no other field of the enrollment changes |
| Supabase.LookupsAfterPlans | lib/supabase.js:385-447 | the plan lookup indexes every returned plan by id |
| Supabase.LookupsOf | lib/supabase.js:377-447 | when the plan query returns no rows all three lookups are empty |
| Supabase.FetchCourses | lib/supabase.js:415-442 | the two id loops and the course query fill the course lookup |
| Supabase.FetchAfterPlans | lib/supabase.js:385-447 | the batch and course steps fill the lookups as specified |
| Supabase.CourseNeedsBatches | lib/supabase.js:400-447 | when no batch comes back no course is looked up, so no enrollment gets a course, even through its plan's own `course_id` |
| Supabase.Hydration | lib/supabase.js:452-483 | one hydrated enrollment per enrollment, in order |
| Supabase.NoPlanIdsUnchanged | lib/supabase.js:369-371 | with no plan id the enrollments are returned untouched |
| Supabase.HydrateCourseOrders | lib/supabase.js:357-483 | no enrollments gives none; otherwise the result is the join with the lookups the query chain produces |
| DataTable.GlobalFilter | components/ui/data-table.jsx:71-80 | an empty query keeps every row |
| DataTable.SubstringIsKept | components/ui/data-table.jsx:76-79 | a row whose search value contains the query as typed is kept |
| DataTable.SearchIgnoresCase | components/ui/data-table.jsx:76-79 | lower-casing the query does not change the verdict, and a null or undefined search value matches no non-empty query |
| DataTable.PageSizeOf | components/ui/data-table.jsx:113 | a missing page size is the default 10 |
| DataTable.PageSizeChoicesRoundTrip | components/ui/data-table.jsx:311-318 | each offered size (10, 25 or 50) is shown as text and read back by `Number` as the same size |
| DataTable.TotalPages | components/ui/data-table.jsx:108 | there is always at least one page |
| DataTable.CurrentPageInRange | components/ui/data-table.jsx:108-112 | the page shown lies between 1 and the page total |
| DataTable.PageWindow | components/ui/data-table.jsx:117-119 | an empty table shows rows 0 to 0 |
| DataTable.PageWindowCoversPage | components/ui/data-table.jsx:114-119 | for a page the slice fills, the window numbers exactly that page's rows and lies within the table |
| DataTable.FooterText | components/ui/data-table.jsx:326-329 | the footer says "No rows to display." exactly when the filtered table is empty |
| DataTable.TableBody | components/ui/data-table.jsx:276-304 | the single spanning empty row appears exactly when the page has no rows and carries the given or default message; otherwise every page row is shown |
| DataTable.ToggledAll | components/ui/data-table.jsx:158-165 | the column list keeps its length |
| DataTable.ToggleAllEffect | components/ui/data-table.jsx:154-165 | nothing changes without hideable columns; ids and hideability are kept and fixed columns are untouched; all hideable columns are hidden when all were shown, and shown otherwise |
| DataTable.ToggleAllTwice | components/ui/data-table.jsx:158-165 | from all columns shown, toggling twice restores the columns |
| DataTable.TableState.constructor | components/ui/data-table.jsx:60-64 | the search is empty and paging starts at the first page |
| DataTable.TableState.SearchChange | components/ui/data-table.jsx:134-141 | the value goes to the global search when a search-value function is given, else to the search column's filter when there is one; the page index resets to 0 |
| DataTable.TableState.SearchClear | components/ui/data-table.jsx:143-151 | afterwards no search value remains, paging restarts, and `onClearFilters` is called once when given |
| DataTable.TableState.ToggleAllColumns | components/ui/data-table.jsx:158-165 | the columns become the toggled-all columns and nothing else changes |
| OrdersTabs.FilterFacts | components/orders/orders-tabs.jsx:86-124 | blank filters accept every order; a turf filter alone is met exactly when the order's booking carries that turf id |
| OrdersTabs.MatchesOrderFilters | components/orders/orders-tabs.jsx:86-124 | no filters, or all-blank ones, accept every order; a set partner id is met only by an order of that partner, and a set court id only by a turf order booked on that court |
| OrdersTabs.FilterOrders | components/orders/orders-tabs.jsx:126-128 | the result holds exactly the orders that match the filters, taken from the list (an absent list counts as empty) |
| OrdersTabs.FilterOrdersFacts | components/orders/orders-tabs.jsx:86-128 | an absent list filters to nothing; no filters, or blank ones, keep the list as it is; filtering a concatenation is concatenating the filtered parts |
| OrdersTabs.NoTurfNoMatch | components/orders/orders-tabs.jsx:111-117 | an order without a booking never meets a turf filter |
| OrdersTabs.TurfFilterHidesCourseOrders | components/orders/orders-tabs.jsx:111-117 | a turf filter hides every course order |
| OrdersTabs.TabRule | components/orders/orders-tabs.jsx:908-962 | an explicit `turf` or `course` tab wins; otherwise a turf or court filter selects the turf tab; the initial tab differs from the effect's tab exactly for an unknown `order_tab` next to a turf or court filter |
| OrdersTabs.NextTab | components/orders/orders-tabs.jsx:951-958 | the effect picks the turf tab exactly when `order_tab` is "turf", or is not "course" and a turf or court filter is set |
| OrdersTabs.InitialTab | components/orders/orders-tabs.jsx:908-912 | for an absent, "turf" or "course" `order_tab` the first render shows the tab the effect would pick |
| OrdersTabs.TurfStatusFiltered | components/orders/orders-tabs.jsx:980-988 | "all" keeps the list; any other status keeps exactly the orders whose lower-cased status equals it, lower-cased |
| OrdersTabs.DeclinedFilter | components/orders/orders-tabs.jsx:980-988 | on turf orders whose status says "Declined" exactly for declined bookings, the "declined" choice keeps exactly the declined bookings |
| OrdersTabs.AcceptedFilter | components/orders/orders-tabs.jsx:980-988 | on the same orders the "accepted" choice keeps exactly the bookings that were not declined |
| OrdersTabs.LowerWord | components/orders/orders-tabs.jsx:984-986 | the status words lower-case to the filter values |
| OrdersTabs.CheckedTurfStatus | components/orders/orders-tabs.jsx:895-978 | the status after the effect is always one of "all", "accepted", "declined" |
| OrdersTabs.Unhyphenate | components/orders/orders-tabs.jsx:136 | every `_` and `-` becomes a space and nothing else changes |
| OrdersTabs.CollapseSpaces | components/orders/orders-tabs.jsx:137 | the result has no two whitespace characters in a row, every character is a space or a non-whitespace character of the input, and the first character is kept or becomes a space |
| OrdersTabs.CapitalizeWords | components/orders/orders-tabs.jsx:139 | the length is kept |
| OrdersTabs.CapitalizedAtFacts | components/orders/orders-tabs.jsx:139 | only a lower-case letter changes; whitespace, spaces and dashes stay as they were; a word start is never lower-case afterwards |
| OrdersTabs.TrimIsSlice | components/orders/orders-tabs.jsx:138 | trimming keeps a contiguous piece of the text |
| OrdersTabs.CollapsedShape | components/orders/orders-tabs.jsx:136-137 | collapsing dash-free text leaves no dashes and no doubled whitespace |
| OrdersTabs.TrimmedShape | components/orders/orders-tabs.jsx:138 | trimming keeps both properties |
| OrdersTabs.CapitalizedShape | components/orders/orders-tabs.jsx:139 | capitalising keeps the shape and every word starts capitalised |
| OrdersTabs.ToTitleCase | components/orders/orders-tabs.jsx:130-140 | the label is the words of the text, once `_` and `-` are spaces, each with its word starts capitalised, joined by single spaces; so it has no `_` or `-`, no leading, trailing or doubled whitespace, and no word starts with a lower-case letter |
| OrdersTabs.LeadingWord | components/orders/orders-tabs.jsx:137 | the longest prefix without whitespace: a prefix with no whitespace, followed by whitespace when shorter than the text, and non-empty when the text starts with something else |
| OrdersTabs.WordsOf | components/orders/orders-tabs.jsx:137-138 | the words are non-empty and contain no whitespace |
| OrdersTabs.CapitalizeEach | components/orders/orders-tabs.jsx:139 | one capitalised word per word, in order |
| OrdersTabs.WordsOfTrimStart | components/orders/orders-tabs.jsx:138 | leading whitespace changes no word |
| OrdersTabs.CollapseAfterWord | components/orders/orders-tabs.jsx:137 | a run without whitespace is kept as it is by the collapse |
| OrdersTabs.CollapsedWords | components/orders/orders-tabs.jsx:137 | text without leading whitespace collapses to its words joined by single spaces, with at most one space after the last word |
| OrdersTabs.CollapseTrimStart | components/orders/orders-tabs.jsx:137-138 | collapsing whitespace and then dropping what leads is dropping it first |
| OrdersTabs.NormalizedWords | components/orders/orders-tabs.jsx:137-138 | collapsing and trimming leaves exactly the words joined by single spaces |
| OrdersTabs.TrimEndGap | components/orders/orders-tabs.jsx:138 | text ending in non-whitespace is kept by `trimEnd`, and one space after it is dropped |
| OrdersTabs.CapitalizeAcrossSpace | components/orders/orders-tabs.jsx:139 | capitalising two pieces joined by a space capitalises each piece |
| OrdersTabs.CapitalizeJoined | components/orders/orders-tabs.jsx:139 | capitalising words joined by single spaces joins the capitalised words |
| OrdersTabs.StatusVariant | components/orders/orders-tabs.jsx:375-400 | an empty status is the default colour |
| OrdersTabs.StatusVariantIgnoresCase | components/orders/orders-tabs.jsx:380 | the colour depends only on the lower-cased status |
| OrdersTabs.TurfStatusColours | components/orders/orders-tabs.jsx:381-397 | "Declined" is destructive and "Accepted" is success |
| OrdersTabs.BuildCustomerRows | components/orders/orders-tabs.jsx:142-168 | no order gives no rows; otherwise the rows are Age, Name, Email, Phone, Gender in that order, and none of the first four is ever blank |
| OrdersTabs.CustomerRowValues | components/orders/orders-tabs.jsx:142-168 | each of Age, Name, Email, Phone and Gender shows the truthy `customerDetails` value first, then the order customer's non-empty text, then the dash; a gender shows with its first letter capitalised |
| OrdersTabs.BuildPaymentRows | components/orders/orders-tabs.jsx:170-210 | there are no rows exactly when there is no order, or neither a payment nor a payment id; otherwise the nine labels in their fixed order |
| OrdersTabs.PaymentRowValues | components/orders/orders-tabs.jsx:170-210 | with a payment: its id (else the order's payment id, else the dash), status, type, formatted amount, both Razorpay ids and creation label, an empty text showing the dash; the currency falls back to the order's then INR, the user id to the customer's then the dash |
| OrdersTabs.PaymentRowsWithoutPayment | components/orders/orders-tabs.jsx:170-210 | without a payment but with a payment id: that id, the order's formatted amount, the order's currency or INR, the customer's id or the dash, and the dash for every payment-only row |
| OrdersTabs.CourseTabView | components/orders/orders-tabs.jsx:636-656 | the empty-state card shows exactly when there are no course orders at all |
| OrdersTabs.CourseNoMatchShown | components/orders/orders-tabs.jsx:636-656 | orders that exist but do not match show the table with the no-match row, not the card |
| OrdersTabs.TurfEmptyMessage | components/orders/orders-tabs.jsx:870-873 | the "no data yet" text shows exactly with status "all" and no filter active |
| OrdersTabs.TurfStatusCountsAsFilter | components/orders/orders-tabs.jsx:870-873 | on the turf tab, which counts a status other than "all" as an active filter, the "no data yet" text shows exactly with status "all" and no query filter |
| OrdersTabs.DeclineReasonText | components/orders/orders-tabs.jsx:1150-1151 | the text is the booking's trimmed reason when it is not blank, and the fixed sentence when there is no order or no booking; never empty |
| OrdersTabs.AfterOpenChange | components/orders/orders-tabs.jsx:1135-1197 | the dialog follows `open`; opening keeps its order and closing forgets it |
| OrdersTabs.OrdersTabsState.constructor | components/orders/orders-tabs.jsx:908-921 | the tab is the initial tab, the status is "all" and every dialog is closed |
| OrdersTabs.OrdersTabsState.SyncTab | components/orders/orders-tabs.jsx:951-962 | the tab becomes the effect's tab and nothing else changes |
| OrdersTabs.OrdersTabsState.SelectTab | components/orders/orders-tabs.jsx:1091 | the tab becomes the chosen one and nothing else changes |
| OrdersTabs.OrdersTabsState.SetTurfStatus | components/orders/orders-tabs.jsx:974-978 | an offered status is kept, any other falls back to "all"; nothing else changes |
| OrdersTabs.OrdersTabsState.TurfClear | components/orders/orders-tabs.jsx:1022-1025 | the status returns to "all" and nothing else changes |
| OrdersTabs.OrdersTabsState.ShowCustomerDetails | components/orders/orders-tabs.jsx:1027-1030 | the customer dialog opens on the order and nothing else changes |
| OrdersTabs.OrdersTabsState.ShowPaymentDetails | components/orders/orders-tabs.jsx:1032-1035 | the payment dialog opens on the order and nothing else changes |
| OrdersTabs.OrdersTabsState.ShowDeclineReason | components/orders/orders-tabs.jsx:1037-1040 | the decline dialog opens on the order, or on nothing, and nothing else changes |
| OrdersTabs.OrdersTabsState.CustomerDialogChange | components/orders/orders-tabs.jsx:1163-1168 | the customer dialog follows the close, or keeps the open state it already has; the state stays valid and nothing else changes |
| OrdersTabs.OrdersTabsState.PaymentDialogChange | components/orders/orders-tabs.jsx:1192-1197 | the payment dialog follows the close, or keeps the open state it already has; the state stays valid and nothing else changes |
| OrdersTabs.OrdersTabsState.DeclineDialogChange | components/orders/orders-tabs.jsx:1135-1140 | the decline dialog follows the open change; the state stays valid and nothing else changes |
| OrdersTabs.ReopenedDialogIsEmpty | components/orders/orders-tabs.jsx:1135-1207 | a dialog closed and reopened without a new order shows no customer rows, no payment rows and the fixed decline sentence |
| PartnerSection.SetIfTruthy | components/partners/partner-courses-section.jsx:108-122 | the key is present afterwards exactly when it was before or the value is truthy, and a truthy value is stored as its text |
| PartnerSection.ParamSet | components/partners/partner-courses-section.jsx:105-124 | a set parameter reads back as the id's text; a falsy id leaves the parameter as it was |
| PartnerSection.ParamKept | components/partners/partner-courses-section.jsx:105-124 | setting one parameter leaves every other parameter as it was |
| PartnerSection.FindById | components/partners/partner-courses-section.jsx:340-344 | a found row is one of the rows and carries the selected id; nothing is found exactly when no row carries it |
| PartnerSection.FindByIdFirst | components/partners/partner-courses-section.jsx:340-344 | the row found is the first row carrying the id |
| PartnerSection.SectionState.constructor | components/partners/partner-courses-section.jsx:301-303 | no row is selected and both filters are "all" |
| PartnerSection.SectionState.SetStatusFilter | components/partners/partner-courses-section.jsx:454 | the status filter takes the chosen value and nothing else changes |
| PartnerSection.SectionState.SetSportFilter | components/partners/partner-courses-section.jsx:466 | the sport filter takes the chosen value and nothing else changes |
| PartnerSection.SectionState.FiltersClear | components/partners/partner-courses-section.jsx:406-411 | afterwards no filter is active and the selection is kept |
| PartnerSection.SectionState.Open | components/partners/partner-courses-section.jsx:413-415 | the selection becomes the given id and the filters are kept |
| PartnerSection.SectionState.SheetChange | components/partners/partner-courses-section.jsx:417-421 | closing the sheet clears the selection, opening keeps it; the filters are kept |
| PartnerSection.ClosedSheetSelectsNothing | components/partners/partner-courses-section.jsx:340-421 | after the sheet closes no row is found, as long as no row has a null id |
| PartnerCourses.BatchWithCounts | components/partners/partner-courses-section.jsx:308-319 | the entry keeps its batch; the batch's plans are exactly the plans with its `batch_id`, its enrollments exactly those on one of those plans, and the counts are their numbers |
| PartnerCourses.BatchesWithCounts | components/partners/partner-courses-section.jsx:308-320 | one counted batch per batch of the course, in order |
| PartnerCourses.CourseWithCounts | components/partners/partner-courses-section.jsx:306-337 | the course's three counts are the numbers of its batches, plans and enrollments; every batch listed belongs to the course, and every batch of the course is listed; a plan is among the course's plans exactly when it is one of the plans and its `batch_id` is one of the course's batches; an enrollment is among the course's enrollments exactly when it is one of the enrollments and is on one of the course's plans |
| PartnerCourses.CoursesWithCounts | components/partners/partner-courses-section.jsx:306-338 | one entry per course, in order, each keeping its course (absent courses count as none) |
| PartnerCourses.CourseEnrollmentInBatch | components/partners/partner-courses-section.jsx:321-326 | an enrollment counted for a course is counted for one of its batches |
| PartnerCourses.BatchEnrollmentInCourse | components/partners/partner-courses-section.jsx:321-326 | an enrollment counted for a batch of the course is counted for the course |
| PartnerCourses.EnrollmentInOneBatch | components/partners/partner-courses-section.jsx:309-312 | when plan ids determine their batch, an enrollment belongs to at most one batch id |
| PartnerCourses.FirstBatchSplit | components/partners/partner-courses-section.jsx:309-326 | with distinct batch ids, an enrollment of the course is in the first batch or in one of the others, never both |
| PartnerCourses.BatchBookingsSum | components/partners/partner-courses-section.jsx:309-326 | the enrollments in some batch number exactly the sum of the per-batch enrollments |
| PartnerCourses.CourseBookingsAreBatchSum | components/partners/partner-courses-section.jsx:316-332 | with distinct batch ids and plan ids that determine their batch, a course's `bookingCount` is the sum of its batches' `bookingCount`s |
| PartnerCourses.SumOverBatches | components/partners/partner-courses-section.jsx:316 | summing the batches' `bookingCount`s is summing their enrollments |
| PartnerCourses.ToNumberOr | components/partners/partner-courses-section.jsx:147-158 | a number is returned as it is; anything that is neither number nor text gives the fallback |
| PartnerCourses.TotalsOf | components/partners/partner-courses-section.jsx:346-362 | the course total is the number of courses |
| PartnerCourses.TotalsAreSums | components/partners/partner-courses-section.jsx:346-362 | the batch, plan and booking totals are the sums of the per-course counts, and none is negative |
| PartnerCourses.SportCandidates | components/partners/partner-courses-section.jsx:366-372 | one candidate per course, keyed by the course's normalised sport |
| PartnerCourses.CourseSportOptionsSpec | components/partners/partner-courses-section.jsx:364-377 | the options are sorted by label, their keys are distinct, none is empty or "all", and every real sport a course has is offered |
| PartnerCourses.CourseSportOptionsSound | components/partners/partner-courses-section.jsx:364-377 | every option is the normalised sport and the spelling of the first course with that sport |
| PartnerCourses.CourseSportOptions | components/partners/partner-courses-section.jsx:364-377 | the options are sorted by label, at most one per course, and none is blank or "all" |
| PartnerCourses.FilteredCourses | components/partners/partner-courses-section.jsx:386-404 | the result holds exactly the courses that pass the status filter and the sport filter |
| PartnerCourses.FilteredCoursesFacts | components/partners/partner-courses-section.jsx:386-406 | with no filter active every course is listed in order; a status filter other than "all", "active" and "inactive" hides every course |
| PartnerCourses.OrdersHrefQuery | components/partners/partner-courses-section.jsx:98-125 | `order_tab` is always set to the tab; each id is set exactly when it is truthy; no turf or court id is set |
| PartnerCourses.OrdersHrefRoundTrip | components/partners/partner-courses-section.jsx:98-125 | following a course link opens the course tab, and every course order of that partner and course (and the batch and plan given) passes the orders page's filters |
| PartnerCourses.HrefParams | components/partners/partner-courses-section.jsx:105-122 | each parameter of a course link reads back as the tab or the id's text |
| PartnerCourses.HrefCourseParams | components/partners/partner-courses-section.jsx:105-114 | after the partner and course ids, the tab and both ids read back and no batch or plan is set |
| PartnerCourses.HrefBatchParams | components/partners/partner-courses-section.jsx:116-122 | setting the batch and plan ids reads them back and keeps the tab, partner and course |
| PartnerCourses.SelectedCourseOrdersHref | components/partners/partner-courses-section.jsx:436-441 | the link exists exactly for a selected course with a positive booking count and an id |
| PartnerCourses.PartnerOrdersHref | components/partners/partner-courses-section.jsx:443-446 | the link exists exactly with a partner id and a positive booking total |
| PartnerTurfs.CourtWithCounts | components/partners/partner-turfs-section.jsx:282-290 | the court is kept and its `bookingCount` is the number of bookings that name it, declined ones included |
| PartnerTurfs.CourtsWithCounts | components/partners/partner-turfs-section.jsx:280-290 | one counted court per court, in order |
| PartnerTurfs.TurfWithCounts | components/partners/partner-turfs-section.jsx:279-301 | the turf is kept; its courts are exactly the courts with its id as `turf_id`; the counts are the numbers of those courts and of the bookings on them |
| PartnerTurfs.TurfsWithCounts | components/partners/partner-turfs-section.jsx:278-303 | one entry per turf, in order (absent turfs count as none) |
| PartnerTurfs.FirstCourtSplit | components/partners/partner-turfs-section.jsx:283-293 | with distinct court ids, a booking on the turf is on its first court or on one of the others, never both |
| PartnerTurfs.CourtBookingsSum | components/partners/partner-turfs-section.jsx:283-293 | the bookings on some court number exactly the sum of the per-court bookings |
| PartnerTurfs.SumOverCourts | components/partners/partner-turfs-section.jsx:288 | summing the courts' `bookingCount`s is summing their bookings |
| PartnerTurfs.TurfBookingsAreCourtSum | components/partners/partner-turfs-section.jsx:288-298 | with distinct court ids, a turf's `bookingCount` is the sum of its courts' `bookingCount`s |
| PartnerTurfs.DeclinedBookingCounted | components/partners/partner-turfs-section.jsx:283-298 | a declined booking adds one to the turf's count in this section, while the partner-detail roll-up's court counts ignore it |
| PartnerTurfs.TotalsAreSums | components/partners/partner-turfs-section.jsx:309-318 | the turf total is the number of turfs, and the court and booking totals are sums of the per-turf counts |
| PartnerTurfs.TurfCandidates | components/partners/partner-turfs-section.jsx:322-336 | a turf offers its own sport first, then each court's sport, in order |
| PartnerTurfs.TurfCandidatesStep | components/partners/partner-turfs-section.jsx:322-336 | the turf's own candidate opens its list and each court's candidate follows the ones before it |
| PartnerTurfs.AddTurfSports | components/partners/partner-turfs-section.jsx:323-335 | after one turf, the entries are the first-seen candidates so far and the seen keys are exactly their values |
| PartnerTurfs.CollectCourtSports | components/partners/partner-turfs-section.jsx:320-341 | the nested loops and the sort produce the specified sport options |
| PartnerTurfs.CandidatesPrefix | components/partners/partner-turfs-section.jsx:322 | the candidates of the first turfs come first |
| PartnerTurfs.CandidateAt | components/partners/partner-turfs-section.jsx:322-336 | the sport of every turf and of every court appears among the candidates |
| PartnerTurfs.CandidateSource | components/partners/partner-turfs-section.jsx:322-336 | every candidate is the sport of some turf or of one of its courts |
| PartnerTurfs.SportAtMatches | components/partners/partner-turfs-section.jsx:359-365 | the key of a turf's or a court's sport passes that turf's sport test |
| PartnerTurfs.CourtSportOptionsSound | components/partners/partner-turfs-section.jsx:320-341 | the options are sorted by label, none is blank or "all", and each is the sport of some turf or of one of its courts |
| PartnerTurfs.CourtSportOptions | components/partners/partner-turfs-section.jsx:320-341 | the options are sorted by label and none is blank or "all" |
| PartnerTurfs.CourtSportOptionsComplete | components/partners/partner-turfs-section.jsx:320-341 | every turf's and court's sport that is not blank or "all" is offered |
| PartnerTurfs.FilteredTurfs | components/partners/partner-turfs-section.jsx:350-372 | the result holds exactly the turfs passing the status filter and the sport filter, the latter met by the turf's sport or any court's |
| PartnerTurfs.FilteredTurfsFacts | components/partners/partner-turfs-section.jsx:350-374 | with no filter active every turf is listed in order; an unknown status hides all; any offered sport leaves at least one turf listed |
| PartnerTurfs.FormatIndoor | components/partners/partner-turfs-section.jsx:255-261 | nothing exactly for null or undefined; "Indoor" exactly for a truthy flag; otherwise "Outdoor" |
| PartnerTurfs.FormatLocation | components/partners/partner-turfs-section.jsx:263-265 | the location text is never empty |
| PartnerTurfs.FormatLocationCases | components/partners/partner-turfs-section.jsx:263-265 | city and state joined by ", " when both are given, the one given when only one is, and a dash when neither is |
| PartnerTurfs.LocationOfParts | components/partners/partner-turfs-section.jsx:264 | the location text for each number of truthy parts |
| PartnerTurfs.OrdersHrefQuery | components/partners/partner-turfs-section.jsx:107-124 | `order_tab` is always set; the partner, turf and court ids are set exactly when truthy; no course, batch or plan id is set |
| PartnerTurfs.HrefParams | components/partners/partner-turfs-section.jsx:107-124 | each parameter of a turf link reads back as the tab or the id's text |
| PartnerTurfs.OrdersHrefRoundTrip | components/partners/partner-turfs-section.jsx:107-124 | following a turf link opens the turf tab, and a turf order passes the page's filters exactly when it belongs to that partner, turf and court |
| PartnerTurfs.TurfFiltersMatch | components/partners/partner-turfs-section.jsx:107-124 | a turf booking meets the partner, turf and court filters exactly when it has each given id |
| PartnerTurfs.OrdersHrefTab | components/partners/partner-turfs-section.jsx:109 | a link whose tab is "turf" opens the turf tab whatever its turf and court |
| PartnerTurfs.SelectedTurfOrdersHref | components/partners/partner-turfs-section.jsx:407-412 | the link exists exactly for a selected turf with a positive booking count and an id, and names that turf |
| PartnerTurfs.PartnerTurfOrdersHref | components/partners/partner-turfs-section.jsx:414-417 | the link exists exactly with a partner id and a positive booking total, and names no turf or court |
| PartnerTurfs.SheetSubtitle | components/partners/partner-turfs-section.jsx:399-401 | the subtitle is never empty and is the fixed line when nothing is selected |
| PartnerTurfs.SectionView | components/partners/partner-turfs-section.jsx:391-397 | the "no turfs" card shows exactly when there are no turfs; otherwise every listed row is one of the turfs |
| SupportTabs.Indexed | components/support/support-tabs.jsx:57-59 | the copy carries the index built from the record and differs from it only in the index |
| SupportTabs.WithSearchIndex | components/support/support-tabs.jsx:52-60 | a missing record passes through; otherwise the record is returned with its index rebuilt |
| SupportTabs.IndexedIdempotent | components/support/support-tabs.jsx:52-60 | rebuilding the index twice gives the same row as once |
| SupportTabs.InitializeRows | components/support/support-tabs.jsx:62-66 | anything but an array gives no rows; otherwise one indexed row per record, in order |
| SupportTabs.FilterRowsByStatus | components/support/support-tabs.jsx:68-75 | no rows give none; "all" keeps every row |
| SupportTabs.FilterRowsByStatusSpec | components/support/support-tabs.jsx:68-75 | apart from "all", "resolved" keeps exactly the resolved rows and every other value exactly the open ones |
| SupportTabs.BuildStatsSpec | components/support/support-tabs.jsx:266-273 | open and resolved add up to the total, and each count is the length of its filtered list |
| SupportTabs.QueueHealth | components/support/support-tabs.jsx:505-509 | "Clear" exactly when neither queue has an open request |
| SupportTabs.UpdateRows | components/support/support-tabs.jsx:352-363 | the length is kept; the rows with the id are changed and re-indexed, the others kept |
| SupportTabs.ResolveRowsSpec | components/support/support-tabs.jsx:350-378 | only rows with the id change: they become resolved with the new update time and keep id and solution; a resolved row stays resolved, so the resolved count never drops |
| SupportTabs.ResolveRowsMarked | components/support/support-tabs.jsx:352-363 | resolving marks the rows with the id and unresolves none |
| SupportTabs.ResolvedCountGrows | components/support/support-tabs.jsx:271 | when no resolved row becomes open, the resolved count does not drop |
| SupportTabs.SaveRowsSpec | components/support/support-tabs.jsx:407-432 | saving gives the rows with the id the trimmed solution and the new update time and keeps their id and resolved flag |
| SupportTabs.BlankSolutionCannotBeSaved | components/support/support-tabs.jsx:744 | the save button is disabled exactly while saving or when the text is blank |
| SupportTabs.SupportTabsState.constructor | components/support/support-tabs.jsx:276-296 | both queues are initialised rows, nothing is resolving, both dialogs are closed and both filters are "all" |
| SupportTabs.SupportTabsState.ResetRows | components/support/support-tabs.jsx:298-304 | both queues are re-initialised from their props; the resolving id, both dialogs and both filters are kept |
| SupportTabs.SupportTabsState.OpenSolutionDialog | components/support/support-tabs.jsx:309-312 | the dialog opens on the record and audience, prefilled with its solution, not saving; the rows, the resolving id, the screenshot dialog and the filters are kept |
| SupportTabs.SupportTabsState.CloseSolutionDialog | components/support/support-tabs.jsx:314-320 | closing clears the dialog, its audience and request, the text and the saving flag; opening changes nothing; the rows, the resolving id, the screenshot dialog and the filters are kept |
| SupportTabs.SupportTabsState.TypeSolution | components/support/support-tabs.jsx:725 | the text takes the typed value and every other field is kept |
| SupportTabs.SupportTabsState.OpenScreenshotDialog | components/support/support-tabs.jsx:322-332 | nothing happens without a screenshot; otherwise the dialog opens on its URL, titled by the entity name or "Screenshot"; the rows, the resolving id, the solution dialog and the filters are kept |
| SupportTabs.SupportTabsState.CloseScreenshotDialog | components/support/support-tabs.jsx:334-338 | closing clears the screenshot dialog; opening changes nothing; the rows, the resolving id, the solution dialog and the filters are kept |
| SupportTabs.SupportTabsState.Resolve | components/support/support-tabs.jsx:340-386 | a record without an id changes nothing; otherwise only the audience's queue changes, only on success, and nothing is resolving afterwards; both dialogs and both filters are kept |
| SupportTabs.SupportTabsState.SaveSolution | components/support/support-tabs.jsx:388-442 | without a request id nothing changes; on success the audience's queue gets the trimmed solution and the solution dialog is fully reset; on failure the rows stay and the dialog stays open with saving off; the screenshot dialog, the resolving id and the filters are kept |
| SupportTabs.SupportTabsState.SetPartnerStatusFilter | components/support/support-tabs.jsx:602-609 | the partner filter takes the value; every other field is kept |
| SupportTabs.SupportTabsState.SetCustomerStatusFilter | components/support/support-tabs.jsx:662-669 | the customer filter takes the value; every other field is kept |
| CustomersTable.CustomerTotals | components/customers/customers-table.jsx:115-136 | the customer total is the number of customers |
| CustomersTable.TotalsReduce | components/customers/customers-table.jsx:115-136 | no customers give zero totals; each further customer adds one to the total, its first enrollment count to the enrollments and its first booking count to the turf bookings |
| CustomersTable.FirstCount | components/customers/customers-table.jsx:119-126 | a non-array or empty array counts 0; otherwise the first entry's numeric `count`, or 0 when it has none |
| CustomersTable.TotalsAppend | components/customers/customers-table.jsx:115-136 | the totals of two lists one after the other are the sums of their totals, for all three counts |
| CustomersTable.FirstCountOfSingleAggregate | components/customers/customers-table.jsx:119-126 | with the one-entry array the aggregate query returns, the first count agrees with the customer records' sum |
| CustomersTable.FirstCountIgnoresLaterEntries | components/customers/customers-table.jsx:119-121 | with two entries the table counts only the first (2) where the customer records add both (5) |
| CustomersTable.Keyed | components/customers/customers-table.jsx:151-154 | an option's key is its label lower-cased |
| CustomersTable.GenderCandidate | components/customers/customers-table.jsx:141-151 | the label is trimmed and keyed; the key is empty exactly for a nullish or blank gender |
| CustomersTable.GenderCandidates | components/customers/customers-table.jsx:140-155 | one candidate per customer, in order |
| CustomersTable.SportCandidate | components/customers/customers-table.jsx:164-173 | the label is trimmed and keyed; the key is empty exactly for a falsy or blank sport |
| CustomersTable.SportGroup | components/customers/customers-table.jsx:163-177 | one candidate per liked sport, in order |
| CustomersTable.SportGroups | components/customers/customers-table.jsx:162-178 | one group per customer, in order |
| CustomersTable.CollectGenderOptions | components/customers/customers-table.jsx:138-158 | the loop produces the specified gender options |
| CustomersTable.AddCustomerSports | components/customers/customers-table.jsx:163-177 | after one customer, the entries are the first-seen candidates so far and the seen keys are exactly their keys |
| CustomersTable.CollectSportOptions | components/customers/customers-table.jsx:160-181 | the nested loops produce the specified sport options |
| CustomersTable.EntriesKeyed | components/customers/customers-table.jsx:151-154 | every kept entry is keyed by its trimmed label |
| CustomersTable.OptionsSpec | components/customers/customers-table.jsx:138-158 | after "all" the labels are trimmed, non-empty, distinct ignoring case, each the first candidate with its key, and every keyed candidate is offered |
| CustomersTable.OptionsComplete | components/customers/customers-table.jsx:138-158 | every candidate with a key has its key among the labels after "all" |
| CustomersTable.GenderOptionsSpec | components/customers/customers-table.jsx:138-158 | `genderOptions` opens with "all", then trimmed, non-empty genders distinct ignoring case, each spelled as first met, and every customer's non-blank gender is offered |
| CustomersTable.SportOptionsSpec | components/customers/customers-table.jsx:160-181 | `sportOptions` opens with "all", then trimmed, non-empty sports distinct ignoring case, each spelled as first met |
| CustomersTable.GenderOptions | components/customers/customers-table.jsx:138-158 | the gender list opens with "all" and holds at most one more entry per customer |
| CustomersTable.SportOptions | components/customers/customers-table.jsx:160-181 | the sport list opens with "all" |
| CustomersTable.SportCandidatesKeyed | components/customers/customers-table.jsx:168-173 | each sport candidate is keyed by its trimmed label |
| CustomersTable.SportOptionsComplete | components/customers/customers-table.jsx:160-181 | every customer's truthy, non-blank liked sport is offered |
| CustomersTable.SportTexts | components/customers/customers-table.jsx:192-194 | one lower-cased text per liked sport, in order |
| CustomersTable.FilteredCustomers | components/customers/customers-table.jsx:183-200 | the result holds exactly the customers passing the gender and sport filters |
| CustomersTable.FilteredCustomersFacts | components/customers/customers-table.jsx:183-200 | with both filters "all" every customer is listed in order; two spellings of a filter that agree ignoring case list the same customers |
| CustomersTable.OfferedGenderListsItsCustomers | components/customers/customers-table.jsx:138-200 | choosing the option offered for a customer's trimmed gender lists that customer |
| CustomersTable.OfferedSportListsItsCustomers | components/customers/customers-table.jsx:160-200 | choosing the option offered for a customer's trimmed liked sport lists that customer |
| CustomersTable.UntrimmedGenderHidden | components/customers/customers-table.jsx:146-190 | a gender stored as " M" is offered as "M", and choosing "M" hides that customer |
| CustomersTable.UntrimmedGenderOffered | components/customers/customers-table.jsx:146-157 | the option offered for " M" is "M" |
| CustomersTable.IntTextReadsBack | components/customers/customers-table.jsx:467 | an integer's text reads back as the integer |
| CustomersTable.PageQueryRoundTrip | components/customers/customers-table.jsx:464-477 | the page and size navigated to read back on the customers page, a zero falling back to 1 and 10 |
| CustomersTable.View | components/customers/customers-table.jsx:456-501 | the empty state shows exactly for no customers; the error shows exactly for a non-empty list with an error; the table lists the filtered customers |
| CustomersTable.LoadFailureShowsEmptyState | components/customers/customers-table.jsx:456-480 | a failed load, which the customers page passes as no rows and an error, shows the empty state, and the error message never shows |
| CustomersTable.CustomersTableState.constructor | components/customers/customers-table.jsx:100-110 | the state starts from the props, not loading, sheet closed, empty history and both filters "all" |
| CustomersTable.CustomersTableState.RowsArrived | components/customers/customers-table.jsx:203-207 | the new rows and total replace the old ones and loading ends; the rest is kept |
| CustomersTable.CustomersTableState.SetGenderFilter | components/customers/customers-table.jsx:220 | the gender filter takes the value and the shown rows are the customers filtered by it; every other field is kept |
| CustomersTable.CustomersTableState.SetSportFilter | components/customers/customers-table.jsx:232 | the sport filter takes the value and the shown rows are the customers filtered by it; every other field is kept |
| CustomersTable.CustomersTableState.PageChange | components/customers/customers-table.jsx:464-469 | the page changes, loading starts, and the query names the new page and the current size; the rows, total, filters and sheet are kept |
| CustomersTable.CustomersTableState.PageSizeChange | components/customers/customers-table.jsx:471-477 | the size changes, the page returns to 1 (offset 0), loading starts, and the query names page 1 and the new size; the rows, total, filters and sheet are kept |
| CustomersTable.CustomersTableState.Open | components/customers/customers-table.jsx:247-269 | the sheet opens on the customer; with an id and an ok response the history is the response's enrollments and bookings, or empty lists; the rows, total, page, size, filters and loading flag are kept |
| CustomersTable.CustomersTableState.SheetChange | components/customers/customers-table.jsx:271-277 | closing forgets the customer and the history; opening changes nothing; the rows, total, page, size, filters and both loading flags are kept |
| FilterOptions.NormalizeFilterValue | components/partners/partner-courses-section.jsx:201-203 | the key is trimmed and has no upper-case letter; anything but text gives ""; text gives "" exactly when blank |
| FilterOptions.FirstSeenSpec | components/partners/partner-courses-section.jsx:364-372 | the options have distinct keys, none skipped; each is the first candidate with its key; every key a kept candidate has is among them |
| FilterOptions.CollectFirstSeen | components/partners/partner-courses-section.jsx:365-372 | the loop filling the `Map` produces the first-seen options |
| FilterOptions.Admit | components/partners/partner-courses-section.jsx:367-371 | one step adds the candidate exactly when it is not skipped and its key is new, and the seen set stays the key set of the entries |
| FilterOptions.InsertByText | components/partners/partner-courses-section.jsx:376 | inserting keeps every option: the result is the old options plus the new one |
| FilterOptions.SortByText | components/partners/partner-courses-section.jsx:374-376 | the result is a permutation of the options, sorted by label |
| FilterOptions.SortedOptions | components/partners/partner-courses-section.jsx:364-377 | the sorted drop-down is sorted, holds only first-seen unskipped options, and offers every kept candidate's key |
| FilterOptions.SortedOptionsFirst | components/partners/partner-courses-section.jsx:364-377 | each sorted option is the first candidate with its key |
| FilterOptions.SortedOptionsDistinct | components/partners/partner-courses-section.jsx:364-377 | the sorted drop-down offers each key once |
| FilterOptions.InsertKeepsDistinct | components/partners/partner-courses-section.jsx:376 | inserting an option with a new key keeps the keys distinct |
| FilterOptions.SortKeepsDistinct | components/partners/partner-courses-section.jsx:376 | sorting options with distinct keys keeps them distinct |
| PartnersTable.ResolveStatus | components/partners/partners-table.jsx:55-62 | the active style exactly for "active" ignoring case, the suspended style exactly for "suspended", and the pending style otherwise |
| PartnersTable.ResolveType | components/partners/partners-table.jsx:64-71 | gym's colour exactly for "gym" ignoring case, turf's exactly for "turf", and academy's otherwise |
| PartnersTable.DerivedStatus | components/partners/partners-table.jsx:166 | "suspended" exactly when disabled; "active" exactly when enabled and verified; "pending" otherwise |
| PartnersTable.StatusBadgeOfDerived | components/partners/partners-table.jsx:55-166 | the status badge shows the derived status's style |
| PartnersTable.StatusDisagreesWithList | components/partners/partners-table.jsx:166 | a disabled, verified partner is suspended here but active in the partner list's own status |
| PartnersTable.SplitInner | components/partners/partners-table.jsx:178 | one cleaned part per comma-separated piece of the text between the brackets |
| PartnersTable.CleanPart | components/partners/partners-table.jsx:178 | no quote of either kind remains |
| PartnersTable.CleanPartDouble | components/partners/partners-table.jsx:232 | no double quote remains |
| PartnersTable.NormalizeSports | components/partners/partners-table.jsx:169-183 | an array as it is; a blank or non-text value gives nothing; unbracketed text is one trimmed sport; bracketed text that does not parse is split with all quotes removed |
| PartnersTable.OptionSports | components/partners/partners-table.jsx:221-238 | an array is kept as it is |
| PartnersTable.BracketedSportsPair | components/partners/partners-table.jsx:172-179 | `["a","b"]` reads as the two sports whether it parses or falls back to the split |
| PartnersTable.PairFallback | components/partners/partners-table.jsx:178 | the fallback splits `["a","b"]` at its one comma and drops the quotes |
| PartnersTable.QuotesRemoved | components/partners/partners-table.jsx:178 | a quoted plain name loses its quotes |
| PartnersTable.AddressFields | components/partners/partners-table.jsx:93-97 | the five parts read from an address |
| PartnersTable.AddressLine | components/partners/partners-table.jsx:73-100 | a falsy partner gives "" |
| PartnersTable.BuildAddressLine | components/partners/partners-table.jsx:73-100 | the pushes and the join produce the specified line |
| PartnersTable.PushParts | components/partners/partners-table.jsx:92-97 | the pushes give the truthy parts' texts, in order |
| PartnersTable.AddressLineHasParts | components/partners/partners-table.jsx:92-99 | each truthy part of an address object occurs in the line |
| PartnersTable.AddressLineCases | components/partners/partners-table.jsx:79-99 | text that is not JSON is shown trimmed; an object with no truthy part gives "" |
| PartnersTable.AddressDisagreesWithList | components/partners/partners-table.jsx:94 | an address holding only an area shows that area here and nothing in the partner list's address text |
| PartnersTable.AreaOnlyLine | components/partners/partners-table.jsx:94 | an area-only address gives the area |
| PartnersTable.AreaOnlyParts | components/partners/partners-table.jsx:93-97 | of the five parts of an area-only address only the area is present |
| PartnersTable.MapLink | components/partners/partners-table.jsx:102-120 | null or truthy; null for a falsy address or text that is not JSON; else `mapLink` when truthy, then `map_link`, then null |
| PartnersTable.ToRow | components/partners/partners-table.jsx:163-192 | the row keeps the partner, carries the derived status and the normalised sports |
| PartnersTable.ToRows | components/partners/partners-table.jsx:162-194 | one row per partner, in order |
| PartnersTable.DerivedStatusLower | components/partners/partners-table.jsx:166-272 | the derived status is already lower-case |
| PartnersTable.AddressById | components/partners/partners-table.jsx:196-200 | every row's id is a key |
| PartnersTable.AddressColumnOwn | components/partners/partners-table.jsx:196-200 | a row's id maps to its own line when no later row shares the id |
| PartnersTable.TypeCandidate | components/partners/partners-table.jsx:205-212 | the type's key is its trimmed text |
| PartnersTable.TypeCandidates | components/partners/partners-table.jsx:204-213 | one candidate per row, in order |
| PartnersTable.SportCandidate | components/partners/partners-table.jsx:240-250 | a text sport is keyed by its trimmed, lower-cased form and labelled as written; anything else has no key |
| PartnersTable.SportGroup | components/partners/partners-table.jsx:240-251 | one candidate per sport of the row, in order |
| PartnersTable.SportGroups | components/partners/partners-table.jsx:219-252 | one group per row, in order |
| PartnersTable.FilteredRows | components/partners/partners-table.jsx:269-300 | the result holds exactly the rows passing the status, type and sport filters |
| PartnersTable.NoFilterListsAll | components/partners/partners-table.jsx:269-303 | with no filter active every row is listed in order |
| PartnersTable.StatusCountCons | components/partners/partners-table.jsx:271-276 | one status filter over a non-empty list counts the first row, then the rest |
| PartnersTable.StatusFiltersPartition | components/partners/partners-table.jsx:166-276 | the pending, active and suspended filters split the rows: their counts add up to the row count |
| PartnersTable.TypeCandidateListed | components/partners/partners-table.jsx:278-283 | a row whose type is offered is listed when that type is the filter |
| PartnersTable.TypeOptionsSpec | components/partners/partners-table.jsx:202-215 | "all" first; the types after it are distinct and each lists at least one row |
| PartnersTable.TypeOptionKey | components/partners/partners-table.jsx:202-215 | each type option after "all" is the key of a first-seen candidate |
| PartnersTable.TypeOptionListed | components/partners/partners-table.jsx:202-283 | filtering by any type option lists a row |
| PartnersTable.TypeOptionsComplete | components/partners/partners-table.jsx:202-215 | every row's non-empty type is offered |
| PartnersTable.SportOptionsSpec | components/partners/partners-table.jsx:217-263 | "All Sports" first, then options sorted by label, each with a key that lists at least one row |
| PartnersTable.SportOptions | components/partners/partners-table.jsx:217-263 | "All Sports" comes first and the options after it are sorted by label |
| PartnersTable.SportOptionsComplete | components/partners/partners-table.jsx:240-251 | every non-blank text sport of every row is offered |
| PartnersTable.SportsCellOf | components/partners/partners-table.jsx:452-476 | no sports show a dash; otherwise the first three at most show as badges and "+n" counts the rest |
| PartnersTable.RowActions | components/partners/partners-table.jsx:529-549 | a verified partner shows approved; the approve button is busy for the approving id and enabled only with a handler when not busy; the toggle is busy for the toggling id, enabled only with a handler when not busy, and reads "Enable" for a disabled partner and "Disable" otherwise |
| PartnersTable.PartnersTableState.constructor | components/partners/partners-table.jsx:265-267 | all three filters start at "all" |
| PartnersTable.PartnersTableState.SetStatusFilter | components/partners/partners-table.jsx:313 | the status filter takes the value; the others are kept |
| PartnersTable.PartnersTableState.SetTypeFilter | components/partners/partners-table.jsx:330 | the type filter takes the value; the others are kept |
| PartnersTable.PartnersTableState.SetSportFilter | components/partners/partners-table.jsx:346 | the sport filter takes the value; the others are kept |
| PartnersTable.PartnersTableState.ClearFilters | components/partners/partners-table.jsx:302-309 | afterwards no filter is active |
| PartnersPage.CountStatus | components/partners/partners-page-client.jsx:29-43 | the number of partners whose derived status is the given one never exceeds the number of partners |
| PartnersPage.StatusCountsAddUp | components/partners/partners-page-client.jsx:29-43 | every partner is exactly one of pending, active or suspended, so the three counts add up to the total |
| PartnersPage.OtherStatusUncounted | components/partners/partners-page-client.jsx:29-43 | no status other than pending, active and suspended is ever counted |
| PartnersPage.CountIsFilteredRows | components/partners/partners-page-client.jsx:29-43 | a status badge's count equals the number of rows the table's status filter lists for that status |
| PartnersPage.Summarize | components/partners/partners-page-client.jsx:35-43 | the reduce counts every partner in `total` and holds a key exactly for each status some partner has, mapped to how many partners have it |
| PartnersPage.Tally | components/partners/partners-page-client.jsx:36-41 | one reduce step adds one to the total and keeps the per-status map equal to the counts over the partners seen so far plus the new one |
| PartnersPage.SummaryBadges | components/partners/partners-page-client.jsx:116-123 | four badges: the total, then the pending, active and suspended counts, a missing status reading 0 |
| PartnersPage.BadgesCount | components/partners/partners-page-client.jsx:116-123 | for the reduce's summary each status badge shows that status's count and the three status badges add up to the total badge |
| PartnersPage.MarkVerified | components/partners/partners-page-client.jsx:73-75 | the list keeps its length; each partner with the approved id is marked verified and every other partner is unchanged |
| PartnersPage.Toggled | components/partners/partners-page-client.jsx:91-93 | the list keeps its length; each partner with the toggled id has `disabled` flipped and every other partner is unchanged |
| PartnersPage.Flip | components/partners/partners-page-client.jsx:92 | the new `disabled` is truthy exactly when the old one was not |
| PartnersPage.ApprovedStatuses | components/partners/partners-page-client.jsx:29-75 | approving makes the approved partner active unless it is disabled, in which case it stays suspended, and leaves every other partner's status as it was |
| PartnersPage.ToggledStatuses | components/partners/partners-page-client.jsx:29-93 | toggling moves a partner from suspended to active or pending by its verified flag, or from either to suspended; toggling twice restores its `disabled` truthiness |
| PartnersPage.View | components/partners/partners-page-client.jsx:102-147 | an error replaces the page exactly when one is given; otherwise a skeleton exactly while loading; the table shows the current partners |
| PartnersPage.OrDefault | components/partners/partners-page-client.jsx:21-24 | a given prop is used as is; a missing one falls back to the default |
| PartnersPage.PartnersPageState.constructor | components/partners/partners-page-client.jsx:21-27 | the state starts from the props with the defaults `[]`, 0, page 1 and page size 10, not loading and with nothing in progress |
| PartnersPage.PartnersPageState.RowsArrived | components/partners/partners-page-client.jsx:46-50 | new props replace the partners and total and end loading; page, page size and the in-progress ids are kept |
| PartnersPage.PartnersPageState.PageChange | components/partners/partners-page-client.jsx:52-57 | the page becomes the new one, loading starts, the data is kept and the router is sent to that page with the current page size |
| PartnersPage.PartnersPageState.PageSizeChange | components/partners/partners-page-client.jsx:59-65 | the page size becomes the new one, the page goes back to 1, loading starts and the router is sent to page 1 with the new size |
| PartnersPage.PartnersPageState.Approve | components/partners/partners-page-client.jsx:67-82 | on success the partners with the id are marked verified and the success toast is given; on failure the list is kept and the error toast is given; either way the approving id is cleared |
| PartnersPage.PartnersPageState.ToggleDisabled | components/partners/partners-page-client.jsx:84-100 | on success the partners with the id are flipped and the toast says "enabled" exactly when the first such partner was disabled before; on failure the list is kept with the error toast; either way the toggling id is cleared |
| UserHistory.OfEnrollment | components/users/user-history-timeline.jsx:27-31 | an enrollment becomes an enrollment entry holding the record, dated by `created_at` when truthy and by `enrolled_at` otherwise |
| UserHistory.OfBooking | components/users/user-history-timeline.jsx:32-36 | a booking becomes a booking entry holding the record, dated by its `created_at` |
| UserHistory.Merged | components/users/user-history-timeline.jsx:26-36 | the mapped enrollments come first, in order, followed by the mapped bookings, in order |
| UserHistory.Insert | components/users/user-history-timeline.jsx:37 | inserting one entry into the sorted prefix adds exactly one entry, at the head or behind the old head |
| UserHistory.SortByDate | components/users/user-history-timeline.jsx:37 | the sort keeps the number of entries |
| UserHistory.InsertPermutes | components/users/user-history-timeline.jsx:37 | one insertion step adds exactly the inserted entry to the multiset of entries |
| UserHistory.SortPermutes | components/users/user-history-timeline.jsx:37 | the sort only reorders: the same entries, each as often |
| UserHistory.InsertSorted | components/users/user-history-timeline.jsx:37 | inserting a validly dated entry into a newest-first list of validly dated entries keeps it newest first |
| UserHistory.SortDated | components/users/user-history-timeline.jsx:37 | sorting validly dated entries yields validly dated entries |
| UserHistory.SortSorted | components/users/user-history-timeline.jsx:37 | when every date is valid the sorted timeline is newest first |
| UserHistory.TimelineSpec | components/users/user-history-timeline.jsx:26-37 | the timeline holds every mapped enrollment and booking exactly once, its length is their total, and it is newest first when every date is valid |
| UserHistory.EnrollmentListed | components/users/user-history-timeline.jsx:27-31 | every enrollment appears in the timeline as its mapped entry |
| UserHistory.BookingListed | components/users/user-history-timeline.jsx:32-36 | every booking appears in the timeline as its mapped entry |
| UserHistory.StatusVariant | components/users/user-history-timeline.jsx:83-85 | the status badge is default exactly for "active", destructive exactly for "cancelled" and secondary for anything else |
| UserHistory.PaymentVariant | components/users/user-history-timeline.jsx:87-89 | the payment badge is default exactly for "paid", secondary exactly for "complimentary" and outline for anything else |
| UserHistory.BookingBadge | components/users/user-history-timeline.jsx:146-157 | a booking is destructive and "Declined" exactly when `declined` is truthy, default and "Booked" otherwise |
| UserHistory.EnrollmentCardOf | components/users/user-history-timeline.jsx:78-139 | the partner name, role, plan, status and payment texts are never empty; a missing status reads "active" and a missing payment status "unpaid"; the Admin badge shows exactly for `enrolled_by` "admin"; the note shows exactly when `admin_notes` is truthy |
| UserHistory.MissingStatusLabelledActive | components/users/user-history-timeline.jsx:83-101 | an enrollment without a status is labelled "active" yet coloured secondary, like an unknown status |
| UserHistory.BookingCardOf | components/users/user-history-timeline.jsx:141-196 | partner, court and sport texts are never empty; the badge follows `declined`; the payment id shows exactly for a truthy text id, as the whole id when it has at most 12 characters, else as its first 12 characters followed by "..."; the decline reason shows exactly for a declined booking that has one |
| UserHistory.View | components/users/user-history-timeline.jsx:39-76 | the empty-state card shows exactly when there are no enrollments and no bookings; otherwise there is one card per timeline entry |
| UserHistory.CardsFollowKinds | components/users/user-history-timeline.jsx:61-72 | the card at each position is an enrollment card of that entry's record exactly when the entry is an enrollment, and a booking card otherwise |
| CsvExport.Escape | app/api/export/users/route.js:25-28 | a cell is wrapped in quotes exactly when it holds a comma, a line feed or a quote; otherwise it is written unchanged |
| CsvExport.CellText | app/api/export/users/route.js:17-23 | null and undefined become the empty text; a text value is kept as it is |
| CsvExport.ConvertToCsv | app/api/export/users/route.js:4-35 | the export is empty exactly when there are no items |
| CsvExport.QuotedRoundTrip | app/api/export/users/route.js:26-27 | reading a quoted cell whose inner quotes were doubled gives back the original text and stops at the closing quote |
| CsvExport.PlainRoundTrip | app/api/export/users/route.js:26 | a cell left unquoted, which holds no comma or line feed, reads back as itself up to the next separator |
| CsvExport.FieldRoundTrip | app/api/export/users/route.js:23-30 | any written cell followed by a separator or the end reads back as the cell's text |
| CsvExport.LineRoundTrip | app/api/export/users/route.js:14-31 | a written line followed by a line feed or the end reads back as its fields, in order |
| CsvExport.RecordsRoundTrip | app/api/export/users/route.js:34 | records of at least two fields, written one per line and joined with line feeds, read back as themselves |
| CsvExport.Table | app/api/export/users/route.js:10-32 | the records an export holds: the header labels, then one record of cell texts per item |
| CsvExport.CsvRoundTrip | app/api/export/users/route.js:4-35 | reading back an export of at least one item and two columns with plain labels gives the header labels and then every item's cell texts in order: quoting loses and splits nothing |
| CsvExport.ExportRecord | app/api/export/users/route.js:10-34 | the read-back export has one record more than there are items; the first is the labels and record k+1 is item k's cell texts |
| CsvExport.NullCellEmpty | app/api/export/users/route.js:18-20 | a null or undefined value is written as the empty field |
| ExportColumns.ElementTexts | app/api/export/users/route.js:54 | each array element is printed as `String` would print it, null and undefined as the empty text |
| ExportColumns.SportsCell | app/api/export/users/route.js:54 | an array is its element texts joined with "; "; a truthy non-array is kept; anything else becomes "" |
| ExportColumns.CountCell | app/api/export/users/route.js:61-66 | an array is its length; a truthy non-array is kept; anything else becomes 0 |
| ExportColumns.AggregateExportedAsOne | app/api/export/users/route.js:59-66 | a customer whose enrollments and bookings are one-entry `[{count: n}]` aggregates exports "1" in both count columns, while the customers table reads n |
| ExportColumns.DateCell | app/api/export/users/route.js:71 | a truthy date becomes its ISO day; anything else becomes "" |
| ExportColumns.CityCell | app/api/export/partners/route.js:59 | the city is `address.city` when truthy, else `city` when truthy, else "" |
| ExportColumns.VerifiedCell | app/api/export/partners/route.js:64 | "Yes" exactly for a verified partner, "No" otherwise |
| ExportColumns.StatusCell | app/api/export/partners/route.js:69 | "Disabled" exactly for a disabled partner, "Active" otherwise |
| ExportColumns.UserColumns | app/api/export/users/route.js:46-73 | the user export has ten columns |
| ExportColumns.PartnerColumns | app/api/export/partners/route.js:46-76 | the partner export has nine columns |
| ExportColumns.RequestedFormat | app/api/export/users/route.js:40 | an absent or empty `format` parameter asks for CSV; any other is taken as given |
| ExportColumns.ExportUsers | app/api/export/users/route.js:37-89 | the response is a CSV body exactly when the requested format is "csv", and that body is empty exactly when there are no customers; any other format is refused |
| ExportColumns.ExportPartners | app/api/export/partners/route.js:37-92 | the response is a CSV body exactly when the requested format is "csv", and that body is empty exactly when there are no partners; any other format is refused |
| ExportColumns.ConvertAny | app/api/export/partners/route.js:4-35 | an array gives its CSV; a falsy value gives ""; any other value without a zero `length` reaches `data.map` and throws |
| ExportColumns.ExportRoute | app/api/export/partners/route.js:37-99 | another format answers 400; CSV over an array answers the array's CSV |
| ExportColumns.ExportUsersRoute | app/api/export/users/route.js:37-96 | over an array of rows it answers exactly what `ExportUsers` does; another format answers 400 |
| ExportColumns.ExportPartnersRoute | app/api/export/partners/route.js:37-99 | over an array of rows it answers exactly what `ExportPartners` does; another format answers 400 |
| ExportColumns.UsersExportAlwaysFails | app/api/export/users/route.js:43-75 | a CSV export over the `{ customers, total }` object `getCustomers` resolves to always fails with status 500 |
| ExportColumns.PartnersExportAlwaysFails | app/api/export/partners/route.js:43-78 | a CSV export over the `{ partners, total }` object `getPartners` resolves to always fails with status 500 |
| ExportColumns.UserHeader | app/api/export/users/route.js:46-73 | the user header is Name, Email, Phone, Gender, Liked Sports, City, State, Enrollments, Turf Bookings, Joined Date |
| ExportColumns.UserPlain | app/api/export/users/route.js:46-73 | no user header label needs quoting |
| ExportColumns.PartnerHeader | app/api/export/partners/route.js:46-76 | the partner header is Name, Email, WhatsApp, Type, Sports, City, Verified, Status, Created Date |
| ExportColumns.PartnerPlain | app/api/export/partners/route.js:46-76 | no partner header label needs quoting |
| ExportColumns.UserRowRead | app/api/export/users/route.js:4-75 | a user export reads back as the header and one ten-field record per customer: a text name as is, a liked-sports array joined with "; ", enrollment and booking arrays as their lengths, a missing join date as "" |
| ExportColumns.UserNameAndDate | app/api/export/users/route.js:47-72 | a customer's record has ten fields; a text name is written as is and a missing join date as "" |
| ExportColumns.UserSports | app/api/export/users/route.js:51-55 | a liked-sports array is written as its entries joined with "; " |
| ExportColumns.UserCounts | app/api/export/users/route.js:58-67 | enrollments and turf-bookings arrays are written as their lengths in decimal |
| ExportColumns.PartnerRowRead | app/api/export/partners/route.js:4-78 | a partner export reads back as the header and one nine-field record per partner, Verified being "Yes" exactly for verified partners, Status "Disabled" exactly for disabled ones, City following `address.city` then `city` |
| ExportColumns.PartnerCells | app/api/export/partners/route.js:56-70 | a partner's record has nine fields; City is the city cell, Verified is "Yes" or "No" by `verified`, Status is "Disabled" or "Active" by `disabled` |
| PartnersRoutes.LeadingDigits | app/api/partners/paginated/route.js:9-10 | the longest prefix of decimal digits: a prefix, all digits, and followed by a non-digit when shorter than the text |
| PartnersRoutes.ParseLeadingInt | app/api/partners/paginated/route.js:9-10 | `parseInt(s, 10)` is NaN exactly when no digit follows the leading white space and one optional sign |
| PartnersRoutes.Unsigned | app/api/partners/paginated/route.js:9-10 | one leading sign is dropped; text without one is kept |
| PartnersRoutes.DigitsThenOther | app/api/partners/paginated/route.js:9-10 | a run of digits followed by a non-digit is read up to the non-digit |
| PartnersRoutes.ParseDigitRun | app/api/partners/paginated/route.js:9-10 | a run of digits followed by a non-digit reads as the run's decimal value |
| PartnersRoutes.ParseNegativeRun | app/api/partners/paginated/route.js:9-10 | a minus sign and a run of digits read as the negated value |
| PartnersRoutes.ParsePrinted | app/api/partners/paginated/route.js:9-10 | a printed integer, followed by anything that is not a digit, reads back as itself |
| PartnersRoutes.DigitsSnoc | app/api/partners/paginated/route.js:9-10 | one more digit on the right multiplies the value by ten and adds the digit |
| PartnersRoutes.NotNumeric | app/api/partners/paginated/route.js:9-10 | text that starts with anything but a digit, a sign or white space reads as NaN |
| Strings.HexDigitValue | app/api/partners/route.js:16 | a hexadecimal digit's value is below 16, and a decimal digit keeps its decimal value |
| PartnersRoutes.LeadingHexDigits | app/api/partners/route.js:16 | the longest prefix of hexadecimal digits: a prefix, all hexadecimal digits, and followed by a non-hexadecimal character when shorter than the text |
| PartnersRoutes.ParseIntAutoRadix | app/api/partners/route.js:16 | `parseInt(s)` without a radix: a `0x` or `0X` after the sign reads the hexadecimal digits after it, NaN exactly when there are none; any other text reads exactly as `parseInt(s, 10)` |
| PartnersRoutes.HexPrefixCases | app/api/partners/route.js:16 | "0x10" reads as 16 without a radix but as 0 in base 10, and a bare "0x" is NaN |
| PartnersRoutes.AutoRadixDecimal | app/api/partners/route.js:16 | text starting with a digit and no `0x` prefix reads the same with or without the radix |
| PartnersRoutes.ParamOr | app/api/partners/paginated/route.js:9-11 | a present, non-empty parameter is taken as given; an absent one gives the fallback |
| PartnersRoutes.PaginatedRequest | app/api/partners/paginated/route.js:9-28 | the request is refused as a negative page exactly when the page is below 0, refused as out of range exactly when the page passes and the limit is below 1 or above 100, and otherwise queries the parsed page, limit and search |
| PartnersRoutes.PaginatedDefaults | app/api/partners/paginated/route.js:9-28 | without parameters the query asks for page 0 of 50 partners with no search |
| PartnersRoutes.NaNPassesChecks | app/api/partners/paginated/route.js:14-28 | a page and a limit that read as NaN pass both checks and the query runs with NaN |
| PartnersRoutes.AcceptedRange | app/api/partners/paginated/route.js:14-28 | an accepted numeric request asks for a non-negative row range of between 1 and 100 rows |
| PartnersRoutes.RangeOfValidPage | app/api/partners/paginated/route.js:14-28 | a page of at least 0 and a limit of 1 to 100 give a non-negative range of 1 to 100 rows |
| PartnersRoutes.Normalized | app/api/partners/route.js:12 | one normalized partner per row, in order |
| PartnersRoutes.SliceEnd | app/api/partners/route.js:16 | the end `slice(0, end)` uses is at most the length: NaN counts as 0, a negative end counts from the back and stops at 0, an end past the list stops at its length |
| PartnersRoutes.ListPartners | app/api/partners/route.js:9-21 | `data` is every normalized partner; `partners` is a prefix of the active ones, each of them active |
| PartnersRoutes.NoLimitListsAllActive | app/api/partners/route.js:15-16 | without a limit every active partner is listed, in row order |
| PartnersRoutes.LimitListsFirst | app/api/partners/route.js:16 | a limit that `parseInt` without a radix reads as n of at least 0 (hexadecimal after `0x`) lists the first n active partners, or all of them when there are fewer |
| PartnersRoutes.NaNLimitListsNone | app/api/partners/route.js:16 | a limit that `parseInt` without a radix reads as NaN lists no partner |
| PartnersRoutes.HexLimitListsSixteen | app/api/partners/route.js:16 | the limit "0x10" lists the first sixteen active partners |
| PartnersRoutes.DialogListsAllActive | app/api/partners/route.js:16 | the dialog's limit of 1000 lists every active partner when there are at most 1000 |
| PartnersRoutes.PartnersRoute | app/api/partners/route.js:6-25 | an array of rows gives the two lists of `ListPartners`; any other fetched value makes `map` throw and the route answer status 500 |
| PartnersRoutes.PartnersRouteAlwaysFails | app/api/partners/route.js:11-12 | the `{ partners, total }` object `getPartners` resolves to always makes the route answer status 500 |
| Supabase.ListObject | lib/supabase.js:41-44 | the resolved value is a truthy object holding the rows under their key and the count under `total` |
| EnrollmentRoute.EnrollmentData | app/api/enrollments/manual/route.js:27-37 | the record has exactly the nine keys user_id, partner_id, payment_status, payment_method, amount_paid, admin_notes, enrolled_by, enrolled_at and status |
| EnrollmentRoute.ManualEnroll | app/api/enrollments/manual/route.js:6-41 | a null or undefined body fails as a server error; otherwise the request is refused exactly when `userId` or `partnerId` is falsy; any other body inserts the built record |
| EnrollmentRoute.RecordFields | app/api/enrollments/manual/route.js:27-37 | the ids, payment method, amount and notes are copied as given; the payment status defaults to "unpaid" and the enrolling party to "admin"; the status is "active" and the time is the clock's |
| EnrollmentRoute.IdsSuffice | app/api/enrollments/manual/route.js:17-41 | a body with both ids is always inserted, and the inserted record is active |
| ManualEnrollment.AmountNeedsMethod | components/enrollment/manual-enrollment-dialog.jsx:177-200 | whenever the amount field shows, so does the payment method; the method shows without the amount exactly for "complimentary"; a blank form shows neither |
| ManualEnrollment.TextOrNull | components/enrollment/manual-enrollment-dialog.jsx:70-72 | an empty text becomes null; any other is sent as given |
| ManualEnrollment.Payload | components/enrollment/manual-enrollment-dialog.jsx:66-74 | the body carries the user id, the chosen partner and payment status, null for an empty method, amount or notes, the parsed amount otherwise, and "admin" as the enrolling party |
| ManualEnrollment.WireValue | components/enrollment/manual-enrollment-dialog.jsx:66 | going through JSON text turns NaN into null and keeps every other flat value |
| ManualEnrollment.OverWire | components/enrollment/manual-enrollment-dialog.jsx:66 | every key of the body read back holds the wire form of what was sent |
| ManualEnrollment.DialogRequestInserted | components/enrollment/manual-enrollment-dialog.jsx:52-75 | a request the dialog sends for a user with an id is inserted by the enrollment route: for the chosen partner, with the chosen payment status or "unpaid" when empty, enrolled by "admin", active, with null for an empty method or notes |
| ManualEnrollment.ManualEnrollmentDialog.constructor | components/enrollment/manual-enrollment-dialog.jsx:21-31 | closed, not loading, no partners and the blank form with status "unpaid" |
| ManualEnrollment.ManualEnrollmentDialog.SetOpen | components/enrollment/manual-enrollment-dialog.jsx:34-38 | the dialog's open flag takes the value; the partners are fetched exactly when it opens from closed with no partners loaded; nothing else changes |
| ManualEnrollment.ManualEnrollmentDialog.PartnersLoaded | components/enrollment/manual-enrollment-dialog.jsx:44-45 | the partners become the response's `partners`, or `[]` when falsy; nothing else changes |
| ManualEnrollment.ManualEnrollmentDialog.SelectPartner | components/enrollment/manual-enrollment-dialog.jsx:141 | only the form's partner id changes |
| ManualEnrollment.ManualEnrollmentDialog.SelectPaymentStatus | components/enrollment/manual-enrollment-dialog.jsx:162 | only the form's payment status changes |
| ManualEnrollment.ManualEnrollmentDialog.SelectPaymentMethod | components/enrollment/manual-enrollment-dialog.jsx:182 | only the form's payment method changes |
| ManualEnrollment.ManualEnrollmentDialog.EnterAmount | components/enrollment/manual-enrollment-dialog.jsx:208 | only the form's amount changes |
| ManualEnrollment.ManualEnrollmentDialog.EnterNotes | components/enrollment/manual-enrollment-dialog.jsx:220 | only the form's notes change |
| ManualEnrollment.ManualEnrollmentDialog.Submit | components/enrollment/manual-enrollment-dialog.jsx:52-75 | without a partner nothing is sent and loading is unchanged; otherwise loading starts and the posted body is the payload of the form; the form, partners and open flag are kept |
| ManualEnrollment.ManualEnrollmentDialog.SubmitFinished | components/enrollment/manual-enrollment-dialog.jsx:77-112 | loading ends; on success the dialog closes and the form is reset to blank; on failure the open flag and the form stay |
| LoginForm.CheckOtp | components/auth/login-form.jsx:103-124 | the checks in order: no code issued exactly when the issued code is not six characters; incomplete exactly when the trimmed entry is not six; expired exactly when no time is left; mismatch exactly when the trimmed entry differs from the issued code; verified exactly when it equals the issued code with time left |
| LoginForm.OnlyIssuedCodeVerifies | components/auth/login-form.jsx:103-124 | a verified entry implies an issued six-character code without blanks at its ends and time left, and the issued code itself then verifies |
| LoginForm.TwoDigits | components/auth/login-form.jsx:61-67 | a number below 100, padded to two, is two digits that read back as the number |
| LoginForm.CountdownReadsBack | components/auth/login-form.jsx:61-67 | below 100 minutes the countdown is five characters "mm:ss" whose seconds part is below 60 and whose minutes times 60 plus seconds is the number of seconds left |
| LoginForm.ExpiryShownWhileTimeLeft | components/auth/login-form.jsx:61-67 | the countdown reads "00:00" exactly when no time is left |
| LoginForm.FormattedCountdown | components/auth/login-form.jsx:61-67 | the countdown has a colon before its last two characters, and is exactly five characters, `mm:ss`, below 100 minutes |
| LoginForm.UiVerifyReachesCode | components/auth/login-form.jsx:160-186 | with code inputs shown, time left and six characters entered, which is when the button and the Enter key are enabled, verifying can only end in a mismatch or in success, and succeeds exactly when the trimmed entry is the issued code |
| LoginForm.LoginForm.constructor | components/auth/login-form.jsx:29-33 | idle, no entry, no issued code, 120 seconds on the countdown and checking the session |
| LoginForm.LoginForm.CheckSession | components/auth/login-form.jsx:40-47 | a stored session that is still valid redirects and keeps the form checking; otherwise checking ends; an expired or unreadable stored session is removed; nothing else changes |
| LoginForm.LoginForm.Tick | components/auth/login-form.jsx:49-59 | the timer ticks exactly while the code inputs are shown and time is left, and then lowers the seconds by one; nothing else changes |
| LoginForm.LoginForm.StartSend | components/auth/login-form.jsx:69-81 | the form becomes pending with the entry cleared, and the posted code is six digits, one per random draw; the issued code and the countdown are kept |
| LoginForm.LoginForm.FinishSend | components/auth/login-form.jsx:83-100 | when the mail goes out the code is issued, the form is sent and the countdown restarts at 120 seconds; on failure the form is idle and no code is issued |
| LoginForm.LoginForm.EnterOtp | components/auth/login-form.jsx:158 | only the entry changes |
| LoginForm.LoginForm.Verify | components/auth/login-form.jsx:103-129 | the outcome is the checks' result on the issued code, the entry and the seconds left; only a verified code moves the form to verifying and stores a six-hour session from now; any other outcome changes nothing |
| LoginForm.SendThenVerify | components/auth/login-form.jsx:69-129 | after a send that delivers, typing the mailed code signs the admin in and stores the session; any other entry is refused and leaves the store unchanged |

## Left out

- Supabase queries, `fetch`, router navigation, toasts and the mail sender in `app/api/auth/send-otp/route.js` are I/O. The model keeps the pure logic around them. Examples are the page range, the payment-id set, the identifier lookup order, the hydration joins and the per-queue failure isolation. A query's result is a parameter.
- Logging is left out: the `console.log` of each generated OTP in `lib/auth.js:19` and the `console.error` calls on failures write to the server log and change no result.
- Persist: reads the clock once for both `issuedAt` and `expiresAt`, where `lib/auth.js:28-30` calls `Date.now()` twice, so `issuedAt` may be a few milliseconds after `expiresAt` minus six hours in the source.
- WithSports: takes an object row; a string or array row, which the source would spread index by index, is modelled as spreading to no fields. The queries only return objects.
- CountStatus: `getPartnerStatus` in `components/partners/partners-page-client.jsx:29-33` throws on a null or undefined partner; the page only passes rows from the partners query, which are objects, and the model derives a status for every value.
- The async shells `getPartners`, `getCustomers`, `getUserHistory`, `getTurfOrders` and `approvePartner` only run queries. They are not modelled.
- The related-row fetches of `getPartnerDetail` in `lib/supabase.js:239-291` are not modelled. These fetch batches, plans, enrollments, courts and bookings. Only the partner lookup by identifier is modelled.
- `Intl.NumberFormat`, `Intl.DateTimeFormat`, `toLocaleString` month names, `Date` parsing and time zones are foreign calls. Each is a parameter or an opaque label, and dates arrive already split into year, month, day, hour and minute.
- Floating point is not modelled. Amounts are integers, so `toFixed(2)` and `Math.round` are not modelled, and `parseFloat` is a parameter.
- `JSON.parse` and the YouTube id regex are uninterpreted functions returning an optional value. Only their fallback paths are modelled.
- TanStack table internals are not modelled: column sort comparators, row slicing and expansion state. The page window is computed from the page index, page size and row count the table reports.
- The `setInterval` of the login form is modelled as an explicit `Tick` method. Focus timers, DOM scrolling and clipboard code are left out.
- Pure presentation components, badges, skeletons, layout and navigation are left out.
- The random source of `generateOtp` is a parameter. Only the shape of the code is stated.
- `PartnerDetail` reads `turfBookings`, as `normalizePartnerDetail` does. The lookup supplies `turf_bookings`, and that key mismatch between the two files is not modelled as a joined call.
- The deep link in `components/customers/customers-table.jsx:279-300` opens a customer from the `user_id` URL parameter. It is a router and DOM effect and is not modelled.
- The search indexes that `CourseOrdersTable` and `TurfOrdersTable` build for their own columns are not modelled, apart from the token builder they call.
- `UserHistory.SortByDate`: entries are ordered by an abstract `timeOf` whose `None` stands for an invalid date. Newest-first is proved only when every date is valid, because a JavaScript sort with an inconsistent comparator has no specified order.
- `ExportColumns.DateCell`: `toISOString()` throws on an invalid date, which the route turns into a 500. That throw is not modelled; the ISO day is a parameter.
- `CsvExport.CsvRoundTrip`: the header labels are joined without quoting. The round trip is stated for plain labels, which both exports use.
- `CsvExport.CsvRoundTrip`: it needs two columns or more, because a one-column record holding an empty cell is an empty line.
- The catch blocks that answer 500 on an unexpected throw are not modelled, except where a null body reaches the enrollment route.
- `PartnersPage.PartnersPageState.PageChange` reuses the query map that `CustomersTable.PageQuery` defines. The router path that carries it is not modelled.
- `PartnersTable.ResolveType`: a truthy type that is not a string would throw on `toLowerCase`. This case is not modelled, and only string and absent types are stated.
- `PartnersTable.OptionSports`: the option list is stated for array-valued sports only.
- `EnrollmentRoute.RecordFields` states the record field by field, in the same terms as the route. Its partner property is `ManualEnrollment.DialogRequestInserted`.
- `Strings.Lower` and `Strings.Upper` map the ASCII letters only. JavaScript's `toLowerCase` and `toUpperCase` also map other letters ("É" to "é") and can change the length ("ß" to "SS"). Every case-insensitive comparison in the model inherits this.
- ResolveInitials: its bound of two characters rests on ASCII upper-casing. With JavaScript's mapping, `resolveInitials("ßa")` is "SSA", three characters.
- Capitalize: the first character of an unknown course status is upper-cased for ASCII letters only.
- ToTitleCase: words are capitalised for ASCII letters only.
- CapitalizeText: a truthy `customerDetails.gender` that is not a string makes `.charAt` throw in `components/orders/orders-tabs.jsx:160`, and the dialog fails to render. The model shows that value's text, capitalised, instead of modelling the throw.
- SortByText: labels are ordered by `FilterOptions.TextLe`, which compares Unicode code points one by one. The source sorts with `localeCompare`, whose order depends on the locale. For example, `localeCompare` puts "apple" before "Banana", and code-point order puts it after.
- SortedOptions: "sorted" means code-point order, as for `SortByText`.
- CourseSportOptions and CourseSportOptionsSpec: the options are sorted in code-point order, not `localeCompare` order.
- CourtSportOptions and CourtSportOptionsSound: the options are sorted in code-point order, not `localeCompare` order.
- SportOptionsSpec: the partners table's sport options are sorted in code-point order, not `localeCompare` order. `PartnersTable.SportOptions` is sorted the same way.
- Strings are sequences of Unicode code points, where a JavaScript string is a sequence of UTF-16 code units. The two agree on text inside the Basic Multilingual Plane and differ on characters outside it, which JavaScript stores as two code units. Lengths, `slice` and comparisons therefore differ on such text: "😀😀😀" has length 6 in JavaScript and 3 here, and "😀" sorts before U+E000 by code unit but after it by code point. This affects SortByText, CheckOtp (the six-character checks), FormatTime (the first five characters), BookingCardOf (the 12-character payment id) and ResolveInitials (the first characters of a name).
- DeriveCourseStatus: a truthy status that is not a string throws at `status.toLowerCase` in `lib/orders.js:75`. The model requires a text or falsy status (`Orders.StatusIsText`) and does not model the throw.
- NormalizeCourseOrder: its requires `CourseOrderInput` excludes a truthy non-string status, on which the source throws. The throw is not modelled.
- SortNewestFirst: `timeOf` gives a whole number for every truthy `createdAt`. In the source a date that does not parse makes `getTime()` NaN, the comparator then returns NaN, and the order `Array.prototype.sort` produces is implementation-defined. Newest-first order and stability are promised only for dates that parse.
- BuildCombinedOrders: the same restriction to dates that parse as for `SortNewestFirst`.
- FetchOrders: the combined list is sorted under the same restriction to dates that parse as for `SortNewestFirst`.
- FetchOrders: the whole fetch fails in the source when any course order has a truthy non-string status. The model requires every status to be text or falsy and does not model that failure.
- VideoSource: a truthy `data` that is not a string makes `item.data.match` throw in `lib/partners.js:88`. The model gives the raw-data fallback instead of the throw.
- GalleryEntry: a video item whose `data` is truthy but not a string makes the source throw. The model gives it a video entry whose source is the raw `data`.
- BookingCardOf: a truthy `payment_id` that is not a string makes `slice` throw in `components/users/user-history-timeline.jsx:184`. The model shows no payment id for it.
- ToValue: an object-valued field of a support record becomes `Null`, so its values are not indexed. The source's `addSearchValue` walks the values of such an object.
- Emit: an array that contains itself makes `addSearchValue` recurse without end, because arrays are walked before any visited check. The model stores arrays inline, so such an array cannot be expressed; the visited set stops only cycles through objects.
- Approve: the source writes `partners.map(...)` over the list captured at render, after an `await`. Two overlapping runs can therefore lose one run's update. The model applies each run at once to the current list, so it does not capture this lost update.
- ToggleDisabled: the same lost update between overlapping runs is not captured, for the same reason as `Approve`.
- FirstCount: a `count` that is present but not a number is read as 0. The source adds it as it is, so a text `count` is concatenated onto the running total as a string.
- CustomerTotals: the totals rest on `FirstCount`, so a non-numeric `count` gives a numeric total here and a concatenated string in the source.
- TextToNumber: `Number(text)` is modelled on whole numbers only. Decimal, exponent, `0x`, `0b` and `0o` literals are read exactly when their value is whole ("100.00", "1e3", "0x10"). A fraction ("12.5") reads as `None`, the value that stands for NaN, so `Orders.ToAmount`, `PartnerCourses.ToNumberOr`, `CustomersTable.QueryNumber` and `PartnerSection.HasPositiveCount` treat it as unreadable where the source keeps the fraction. "Infinity" also reads as `None`: `ToAmount` and `ToNumberOr` agree with the source, because `Number.isFinite` rejects it there, but `QueryNumber` (`Number(v) || fallback`) gives Infinity in the source and the fallback here. The model's arithmetic is exact, so doubles beyond 2^53 that round, and literals such as "1e400" that overflow to Infinity, are read as their exact value.
- FetchOrders: `lib/orders.js:320` returns `JSON.parse(JSON.stringify(result))`, a deep copy that drops fields holding `undefined` and turns NaN into null. The model returns the result itself, so a field holding `undefined` is kept and NaN is not turned into null.
- HydrateCourseOrders: a null row in the enrollment list makes `enrollment.plan_id` throw a TypeError at `lib/supabase.js:364` and `lib/supabase.js:453`. The model reads every field of a null row as `undefined` instead of throwing.
- OfEnrollment: a null enrollment makes `e.created_at` throw a TypeError in `components/users/user-history-timeline.jsx:27-31`. The model reads its fields as `undefined` instead of throwing, and builds an entry from them.

## Divergences between files

The panel computes some facts twice, in different files, and the copies do not agree. Each divergence is stated as a lemma, and each copy is modelled as written:

- `PartnerTurfs.DeclinedBookingCounted`: the turf section of the partner page counts declined bookings, while `lib/partners.js` drops them from court counts.
- `CustomersTable.FirstCountIgnoresLaterEntries`: the customers table reads only the first aggregate `count`, while `lib/customers.js` sums all of them.
- `PartnersTable.AddressDisagreesWithList`: the partners table builds the address line from a different list of fields than `lib/partners.js`.
- `PartnersTable.StatusDisagreesWithList`: the partners table lets `disabled` decide the status, while `lib/partners.js` looks only at `verified`.
- `CustomersTable.UntrimmedGenderHidden`: a gender stored with surrounding blanks is offered trimmed as a filter option, but the filter compares the untrimmed text, so choosing that option hides the customer who supplied it.
- `Supabase.UnparsedBracketsKept`: bracketed sports text that `JSON.parse` rejects is kept whole, brackets included, by `normalizeSports`, while `parseSports` in `lib/partners.js` strips the brackets.
- `UserHistory.MissingStatusLabelledActive`: an enrollment without a status is labelled "active" but coloured as an unknown status.
- `Supabase.CourseNeedsBatches`: courses are looked up only inside the batch step, so when no batch comes back no enrollment gets a course, not even through its plan's own `course_id`.
- `PartnersRoutes.PartnersRouteAlwaysFails`, `ExportColumns.UsersExportAlwaysFails` and `ExportColumns.PartnersExportAlwaysFails`: `getPartners` and `getCustomers` in `lib/supabase.js` resolve to a `{ partners, total }` or `{ customers, total }` object. `app/api/partners/route.js` and both export routes treat that value as a list. `partners.map` and `data.map` then throw, and all three routes answer status 500. `PartnersRoutes.PartnersRoute`, `ExportColumns.ExportUsersRoute` and `ExportColumns.ExportPartnersRoute` model the handlers as written. `PartnersRoutes.ListPartners`, `ExportColumns.ExportUsers` and `ExportColumns.ExportPartners` model what they do with the list they evidently expect. `PartnersRoutes.DialogListsAllActive` states what the enrollment dialog would receive from the route once it is handed that list.
- `CustomersTable.LoadFailureShowsEmptyState`: the customers page in `app/(panel)/customers/page.jsx` passes a failed load as no rows plus an error. `CustomersTable.PageProps` models what that page passes. The table tests for no rows before it tests for an error, so the error text never shows.
- `PartnersRoutes.NaNPassesChecks` and `PartnersRoutes.NaNLimitListsNone`: a non-numeric page or limit passes the paginated route's checks, and a non-numeric limit empties the active-partner list.
- `ExportColumns.AggregateExportedAsOne`: the users export writes the length of each `[{count}]` aggregate array, which is 1 for every customer, while the customers table shows the count inside it.
