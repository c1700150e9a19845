# AOP Dashboard core, in Dafny

This project models the logic of the AOP outreach dashboard, a Next.js app
that reads a Google spreadsheet and shows websites, keywords, campaigns and
e-mails. The model covers five parts:

- **The spreadsheet access layer** (`src/lib/googleSheets.ts`):
  - the configuration checks;
  - the conversion of a fetched value grid into records keyed by normalised header names (a loop that fills one record per row);
  - the seven domain mappers, which choose the first non-empty alias column, apply defaults, derive statuses, drop incomplete rows and renumber them.
- **The spreadsheet analysis** (`src/lib/analyzeSheet.ts`):
  - the priority-ordered value classifier;
  - the per-column "most common type" vote (counting loop plus stable-sort head);
  - the per-sheet entry that is kept even when a read fails;
  - the Markdown report, built by loops that append to a string and pad sample rows.
- **The data store** (`src/contexts/DataContext.tsx`), a class whose `FetchAllData` and `RefreshData` change the four collections, the loading flag, the error message and the last-fetch time. The five-second debounce, per-feed success handling and the "error only when every feed failed" rule are stated against a pure step function.
- **Demo authentication** (`src/contexts/auth-context.tsx`), a class over the current user, a loading flag and browser storage, with `Mount`, `Login` and `Logout`.
- **Client-side derivations** in the Semrush, e-mails and websites pages and the dashboard shell:
  - projections, counts and the open-rate zero guard;
  - search and status/category filters (an order-preserving subsequence with an exact membership condition);
  - distinct choice lists in first-seen order;
  - colour switches, badge text, avatar initials and the active navigation entry.

Helper modules:

- `Wrappers`: `Option`.
- `TextUtil`: ASCII case mapping, ECMAScript white-space trimming, splitting, joining and substring search.
- `SeqUtil`: filter, subsequence, first-occurrence de-duplication, counting and indexed mapping.
- `JsNumbers`: JavaScript `parseInt` and the `Number()` numeric-literal test.

The network, the clock and browser storage are parameters:

- a `Fetch` outcome (value grid or failure) for each sheet read;
- a `Metadata` outcome for the spreadsheet listing;
- an `Outcome` (four decoded responses, or a thrown failure) for a data-store load;
- `now`/`finishedAt`/`today`/`date` for clock readings;
- a `map<string, StoredItem>` for local storage.

Where the prose description of the system and the code differ, the model follows the code. Count columns are read with `parseInt`, so non-numeric text gives `NaN` (modelled as `None`), not `0`. Only empty cells give `0`, through the `'0'` default.

## Model

| member | source | states |
|---|---|---|
| SheetRows.NormalizeHeaderIdempotent | src/lib/googleSheets.ts:123 | a normalised header key contains no white space and normalising it again changes nothing |
| SheetRows.NormalizeHeaderWithoutSpaces | src/lib/googleSheets.ts:123 | a header without white space is only lower-cased |
| SheetRows.CollapseSpaces | src/lib/googleSheets.ts:123 | replacing white-space runs by `_` leaves no white space, never lengthens the text, and keeps lower-case text lower-case |
| SheetRows.HeaderKeys | src/lib/googleSheets.ts:122-123 | there is one key per header column, in column order, each the normalised header |
| SheetRows.RecordOfLookup | src/lib/googleSheets.ts:121-124 | a record holds `id` and the normalised headers and nothing else; a key holds the cell of the last column normalising to it (missing cells read `''`), so a header normalising to `id` replaces the synthetic id, which survives only otherwise |
| SheetRows.ToRecords | src/lib/googleSheets.ts:108-126 | an empty grid gives no records; otherwise there is one record per row below the header row |
| SheetRows.BuildRecord | src/lib/googleSheets.ts:121-125 | the `headers.forEach` loop builds exactly the record of the row, numbered index+1, and it always has an `id` |
| SheetRows.RowsToRecords | src/lib/googleSheets.ts:115-126 | the `data.map` loop yields the grid's records in order, one per data row, each with an `id` |
| SheetRows.GetSheetData | src/lib/googleSheets.ts:87-133 | fails without a sheet id, then without credentials (a complete service account or an API key), then when the request fails; succeeds exactly otherwise, with the grid's records |
| JsNumbers.ParseIntRoundTrip | src/lib/googleSheets.ts:205-208 | `parseInt` reads back every integer written in decimal |
| JsNumbers.ParseNonNegative | src/lib/googleSheets.ts:205-208 | a run of decimal digits parses as its value |
| JsNumbers.ParseNegative | src/lib/googleSheets.ts:205-208 | a minus sign before a run of digits gives the negated value, so negative counts are possible |
| JsNumbers.ParseIntZeroDefault | src/lib/googleSheets.ts:205-208 | the `'0'` default parses as 0 |
| JsNumbers.ParseIntWithoutDigits | src/lib/googleSheets.ts:205-208 | text without leading digits, including the empty text, is `NaN` |
| JsNumbers.ParseIntReadsPrefix | src/lib/googleSheets.ts:205-208 | only the leading run of digits is read (`12abc` is 12) |
| JsNumbers.ParseIntHexPrefix | src/lib/googleSheets.ts:205-208 | a `0x` prefix switches to hexadecimal (`0x1A` is 26) |
| JsNumbers.ParseIntAfterSpaces | src/lib/googleSheets.ts:205-208 | leading white space never changes what `parseInt` reads |
| JsNumbers.ParseIntSkipsSpaceAndSign | src/lib/googleSheets.ts:205-208 | white space, then a minus sign and digits, parse as the negated value of the digits |
| JsNumbers.NumericWhenTrimmed | src/lib/analyzeSheet.ts:38 | text without white space at either end passes `!isNaN(Number(value))` exactly when it is a numeric literal |
| JsNumbers.NotNumericStart | src/lib/analyzeSheet.ts:38 | trimmed text starting with anything but a digit, sign, point or `I` is not a number |
| JsNumbers.DecimalLiterals | src/lib/analyzeSheet.ts:38 | integers, exponents and decimals (`42`, `1e5`, `3.5`) are numeric literals |
| JsNumbers.DigitLedLiteral | src/lib/analyzeSheet.ts:38 | text led by two digits, with no point and no exponent mark, is a numeric literal exactly when it is all digits |
| JsNumbers.DateLiteral | src/lib/analyzeSheet.ts:38-39 | an ISO-shaped date is not a numeric literal |
| JsNumbers.DateIsNotNumeric | src/lib/analyzeSheet.ts:38-39 | a date is not a number, so it reaches the date test |
| JsNumbers.IntegerIsNumeric | src/lib/analyzeSheet.ts:38 | `42` is a number |
| SheetMappers.TruthyText | src/lib/googleSheets.ts:157-163 | the text of a truthy cell is non-empty |
| SheetMappers.Pick | src/lib/googleSheets.ts:157-160 | the first truthy alias column gives the value; when none is truthy, the default |
| SheetMappers.PickCountDefault | src/lib/googleSheets.ts:205-208 | a count whose alias columns are all empty is 0 |
| SheetMappers.PickCountReadsInteger | src/lib/googleSheets.ts:205-208 | a count cell holding the decimal text of any integer, zero included, gives that integer |
| SheetMappers.ToWebsite | src/lib/googleSheets.ts:156-163 | status is `processed` exactly when the lower-cased contact status is `email_sent`, otherwise `pending`; `emailsExtracted` is 1 exactly when a contact e-mail is present; the category and date defaults |
| SheetMappers.WebsitesData | src/lib/googleSheets.ts:150-169 | one website per record, in order, numbered from 1; a failed read gives `[]` |
| SheetMappers.Description | src/lib/googleSheets.ts:180 | the description is at most its first 100 characters followed by `...`, so it has 3 to 103 characters and is `...` when empty |
| SheetMappers.ToWebsiteDetail | src/lib/googleSheets.ts:177-188 | the contact status is kept raw, defaulting to `Pending`; the category is the keywords-used text or `Uncategorized` |
| SheetMappers.WebsitesDetailData | src/lib/googleSheets.ts:171-194 | one entry per record, in order, numbered from 1; a failed read gives `[]` |
| SheetMappers.ToCampaign | src/lib/googleSheets.ts:202-209 | the status defaults to `active` and the creation date to today |
| SheetMappers.CampaignCountDefaults | src/lib/googleSheets.ts:205-208 | each campaign count is `parseInt` of its first truthy alias column, and 0, not `NaN`, when all its aliases are empty |
| SheetMappers.CampaignsData | src/lib/googleSheets.ts:196-215 | one campaign per record, in order, numbered from 1; a failed read gives `[]` |
| SheetMappers.ToEmail | src/lib/googleSheets.ts:223-229 | the sent date is null exactly when absent, the status defaults to `pending` and the response to `none` |
| SheetMappers.EmailsData | src/lib/googleSheets.ts:217-235 | one e-mail per record, in order, numbered from 1; a failed read gives `[]` |
| SheetMappers.KeywordList | src/lib/googleSheets.ts:247 | every kept keyword is non-empty, contains no comma and has no white space at either end; there are no more keywords than comma pieces |
| SheetMappers.KeywordListPieces | src/lib/googleSheets.ts:247 | the keyword list holds exactly the non-empty trimmed comma pieces, in their order and with their multiplicity |
| SheetMappers.KeywordListOfPieces | src/lib/googleSheets.ts:247 | the keyword list is computed from the comma pieces alone |
| SheetMappers.ThreeKeywords | src/lib/googleSheets.ts:247 | three comma pieces that are bare words after one leading space give those three words in order |
| SheetMappers.NoKeywords | src/lib/googleSheets.ts:247 | two comma pieces of white space give no keywords |
| SheetMappers.KeywordListExample | src/lib/googleSheets.ts:247 | `SEO, gaming, outreach` gives `SEO`, `gaming`, `outreach` |
| SheetMappers.KeywordListBlank | src/lib/googleSheets.ts:247 | `" , "` gives no keywords |
| SheetMappers.ToKeyword | src/lib/googleSheets.ts:244-254 | a kept row keeps its date and raw keyword text, with its keyword list |
| SheetMappers.KeywordsData | src/lib/googleSheets.ts:237-260 | exactly the records with both a date and keywords, in order, renumbered from 1; a failed read gives `[]` |
| SheetMappers.KeywordsNeedDateAndText | src/lib/googleSheets.ts:243 | a record lacking a date or keywords makes the result shorter than the input |
| SheetMappers.ToMetric | src/lib/googleSheets.ts:269-273 | a kept metric has non-empty name and value, and an empty update time when none is given |
| SheetMappers.DashboardMetrics | src/lib/googleSheets.ts:262-278 | exactly the records with both a metric and a value, in order; a failed read gives `[]` |
| SheetMappers.ToAnalytics | src/lib/googleSheets.ts:287-299 | a kept entry has its date, and each counter is `parseInt` of its column with the `'0'` default |
| SheetMappers.AnalyticsCountDefault | src/lib/googleSheets.ts:290-299 | an analytics counter whose column is empty is 0 |
| SheetMappers.AnalyticsDataOf | src/lib/googleSheets.ts:280-305 | exactly the records with a date, in order, renumbered from 1; a failed read gives `[]` |
| SheetAnalysis.TypeNameInjective | src/lib/analyzeSheet.ts:36-45 | the seven recorded type names are pairwise different |
| SheetAnalysis.DetectDataType | src/lib/analyzeSheet.ts:36-45 | the result is the first type, in test order (empty, number, date, email, url, comma-separated, text), whose feature the value shows |
| SheetAnalysis.EmailBeforeComma | src/lib/analyzeSheet.ts:41-43 | `a@b,c` is an e-mail, not comma-separated |
| SheetAnalysis.DateByShapeOnly | src/lib/analyzeSheet.ts:39-40 | an impossible date of the right shape (`9999-99-99`) is a date |
| SheetAnalysis.ColumnSamples | src/lib/analyzeSheet.ts:97-99 | a column's samples are non-empty and no more than the sample rows |
| SheetAnalysis.DominantUnique | src/lib/analyzeSheet.ts:104-109 | at most one type has the maximal count with ties going to the first seen, so the vote is determined |
| SheetAnalysis.CountTypes | src/lib/analyzeSheet.ts:104-107 | the counting loop counts every type that occurs, exactly, and lists types in first-seen order |
| SheetAnalysis.FirstMostFrequent | src/lib/analyzeSheet.ts:108 | the head of the stable descending sort has the maximal count and beats every earlier entry |
| SheetAnalysis.LeaderIsDominant | src/lib/analyzeSheet.ts:108-109 | that head is the dominant type of the column |
| SheetAnalysis.ColumnType | src/lib/analyzeSheet.ts:101-111 | a column without samples is `empty`; otherwise its type has the maximal count among the samples' types, ties going to the type seen first |
| SheetAnalysis.AnalyzeColumns | src/lib/analyzeSheet.ts:95-113 | the loop maps every header to its column's type; a repeated header takes the type of its last column |
| SheetAnalysis.DataTypesMeaning | src/lib/analyzeSheet.ts:95-113 | the keys of the result are exactly the headers, and each header's type is the vote over the samples of its last column |
| SheetAnalysis.SampleRowsOf | src/lib/analyzeSheet.ts:90-92 | the sample rows are grid rows 2 to 6, at most five, in order |
| SheetAnalysis.AnalyzeSheet | src/lib/analyzeSheet.ts:79-133 | each listed sheet gives an entry with its name and dimensions; a failed read gives empty headers, samples and types |
| SheetAnalysis.AnalyzeSpreadsheet | src/lib/analyzeSheet.ts:47-141 | the configuration errors, a failed listing, or one entry per listed sheet in order, with `totalSheets` equal to the number of entries |
| MarkdownReport.ColumnLabel | src/lib/analyzeSheet.ts:168 | column k below 26 is labelled with the letter of code 65+k |
| MarkdownReport.FirstSamples | src/lib/analyzeSheet.ts:162-165 | at most two sample values, all non-empty |
| MarkdownReport.JoinNonEmpty | src/lib/analyzeSheet.ts:166-168 | a join of non-empty values is empty exactly when there are none, which is when `N/A` is shown |
| MarkdownReport.SampleCell | src/lib/analyzeSheet.ts:162-168 | the sample cell is `N/A` for a column without values, otherwise its first two values joined by `, ` |
| MarkdownReport.TypeCell | src/lib/analyzeSheet.ts:161 | the type cell is the recorded type name, or `unknown` |
| MarkdownReport.Dashes | src/lib/analyzeSheet.ts:173 | one `---` per header |
| MarkdownReport.SeparatorPerColumn | src/lib/analyzeSheet.ts:173 | between its outer bars, the separator row splits into exactly one `---` per header |
| MarkdownReport.Padded | src/lib/analyzeSheet.ts:175-180 | a short row is extended with `''` to the header count; a longer row is kept whole |
| MarkdownReport.PadRow | src/lib/analyzeSheet.ts:176-179 | the `while`/`push` loop yields the padded row |
| MarkdownReport.FirstFive | src/lib/analyzeSheet.ts:175 | at most the first five sample rows, and all of them when there are five or fewer |
| MarkdownReport.SheetSection | src/lib/analyzeSheet.ts:151-188 | a sheet's section starts with its numbered heading and its dimensions |
| MarkdownReport.HeaderlessSection | src/lib/analyzeSheet.ts:184-188 | a sheet without headers gets the no-data note and no tables |
| MarkdownReport.Sections | src/lib/analyzeSheet.ts:151-189 | one section per sheet |
| MarkdownReport.SummaryLines | src/lib/analyzeSheet.ts:193-195 | one summary line per sheet |
| MarkdownReport.ReportHasHeading | src/lib/analyzeSheet.ts:151-152 | every sheet's numbered heading occurs in the report |
| MarkdownReport.ReportHasSummaryLine | src/lib/analyzeSheet.ts:193-195 | every sheet's summary bullet occurs in the report |
| MarkdownReport.WriteColumnRows | src/lib/analyzeSheet.ts:160-169 | the column-table loop writes one row per header |
| MarkdownReport.WriteDataRows | src/lib/analyzeSheet.ts:175-181 | the sample loop writes one padded row per sample row, at most five |
| MarkdownReport.WriteSection | src/lib/analyzeSheet.ts:152-188 | the loop body writes the sheet's section |
| MarkdownReport.WriteSections | src/lib/analyzeSheet.ts:151-189 | the sheets loop writes every section in order |
| MarkdownReport.WriteSummaryLines | src/lib/analyzeSheet.ts:193-195 | the summary loop writes every summary line in order |
| MarkdownReport.GenerateMarkdownReport | src/lib/analyzeSheet.ts:143-198 | the report is the preamble, the sections in order and the summary |
| DataStore.DecodeCampaign | src/app/api/campaigns/route.ts:9 | the JSON round trip keeps every field; a count is `null` exactly when it was `NaN`, and otherwise keeps its value |
| DataStore.CampaignsResponse | src/app/api/campaigns/route.ts:6-9 | the campaigns route answers `success: true` with one decoded campaign per sheet campaign, in order |
| DataStore.DebouncedIsNoOp | src/contexts/DataContext.tsx:78-81 | a load starting less than 5000 ms after the last completed load changes nothing |
| DataStore.ResponsesReplaceCollections | src/contexts/DataContext.tsx:117-122 | each collection becomes its response's data when that response succeeded, otherwise `[]`, independently of the other feeds; the last-fetch time becomes the completion time |
| DataStore.ErrorOnlyWhenAllFail | src/contexts/DataContext.tsx:85-128 | the error is cleared and then set, to the Google Sheets message, exactly when all four responses failed |
| DataStore.ThrownKeepsData | src/contexts/DataContext.tsx:129-131 | a thrown failure keeps the collections and the last-fetch time and reports the connection error |
| DataStore.LoadingSettles | src/contexts/DataContext.tsx:83-134 | loading is false after every load and refresh, on every path |
| DataStore.FetchThenDebounce | src/contexts/DataContext.tsx:78-122 | a completed load debounces every load that starts less than five seconds after it |
| DataStore.ThrownNotDebounced | src/contexts/DataContext.tsx:78-131 | a failed load leaves no fresh timestamp, so a later load runs |
| DataStore.RefreshAlwaysFetches | src/contexts/DataContext.tsx:137-140 | a refresh clears the timestamp, so it loads however recent the last load was |
| DataStore.DataProvider.constructor | src/contexts/DataContext.tsx:68-74 | a new store is empty, not loading, without error or timestamp |
| DataStore.DataProvider.FetchAllData | src/contexts/DataContext.tsx:76-135 | the in-place update yields exactly the state of one load step |
| DataStore.DataProvider.RefreshData | src/contexts/DataContext.tsx:137-140 | the in-place update clears the timestamp, then loads |
| Auth.FindUser | src/contexts/auth-context.tsx:71-73 | an account is found exactly when some demo account matches both username and password exactly, and the one found matches |
| Auth.LoginIffDemoCredentials | src/contexts/auth-context.tsx:65-91 | login succeeds exactly for demo credentials; the session is that account without its password; loading ends false |
| Auth.FailedLoginKeepsSession | src/contexts/auth-context.tsx:89-90 | a failed login leaves the user and storage unchanged |
| Auth.LoginThenMount | src/contexts/auth-context.tsx:51-87 | the session saved by login is restored by the next mount |
| Auth.LogoutThenMount | src/contexts/auth-context.tsx:51-96 | after logout there is no user, other storage keys survive, and a fresh mount restores nothing |
| Auth.MountDropsMalformed | src/contexts/auth-context.tsx:51-63 | a saved value that does not parse is removed and restores nothing; an empty one is ignored |
| Auth.MountRestoresParsed | src/contexts/auth-context.tsx:51-63 | mounting ends loading; a saved value that parses becomes the user; with nothing saved only loading changes |
| Auth.AdminLogin | src/contexts/auth-context.tsx:23-87 | `admin`/`admin123` logs in as the Administrator account |
| Auth.WrongPasswordFails | src/contexts/auth-context.tsx:71-73 | another account's password does not log in |
| Auth.AuthProvider.constructor | src/contexts/auth-context.tsx:48-49 | a provider starts with no user and loading |
| Auth.AuthProvider.Mount | src/contexts/auth-context.tsx:51-63 | the in-place update is the mount step |
| Auth.AuthProvider.Login | src/contexts/auth-context.tsx:65-91 | the in-place update and result are the login step; success means authenticated |
| Auth.AuthProvider.Logout | src/contexts/auth-context.tsx:93-100 | the in-place update is the logout step and the provider is no longer authenticated |
| SemrushPage.SemrushProjection | src/app/dashboard/semrush/page.tsx:29-44 | exactly the websites whose platform lower-cases to `semrush`, in order, numbered 1..n, with fields carried over and a lower-case, non-empty status |
| SemrushPage.StatsBounded | src/app/dashboard/semrush/page.tsx:47-50 | sent plus pending is at most the total, and so is the with-e-mail count |
| SemrushPage.OpenRate | src/app/dashboard/semrush/page.tsx:53-55 | a ratio is computed exactly when the sum of the sent counts, with `null` adding 0, is positive, and then divides the likewise summed opened counts by it |
| SemrushPage.NullAddsNothing | src/app/dashboard/semrush/page.tsx:53-54 | a campaign whose count arrived as `null` adds nothing to the sum: the sum equals the sum without it |
| SemrushPage.SumSnoc | src/app/dashboard/semrush/page.tsx:53-54 | appending a campaign adds its count, or 0 when the count is `null` |
| SemrushPage.SumCounts | src/app/dashboard/semrush/page.tsx:53-54 | non-negative counts, with `null` among them, sum to a non-negative number |
| SemrushPage.OpenRateSkipsUnreadable | src/app/dashboard/semrush/page.tsx:53-55 | with one campaign whose sent count was unreadable, the open rate is taken over the other campaigns' counts (5 of 10) |
| SemrushPage.ShareOf | src/app/dashboard/semrush/page.tsx:357-373 | a rate is a ratio exactly when the Semrush total is positive, otherwise 0 |
| SemrushPage.PerformanceRatesDefined | src/app/dashboard/semrush/page.tsx:343-373 | whenever the performance card is shown, both its rates are real ratios of at most the total |
| SemrushPage.FilteredWebsites | src/app/dashboard/semrush/page.tsx:58-65 | an order-preserving subsequence holding exactly the sites matching both the search and the status filter |
| SemrushPage.SearchIgnoresCase | src/app/dashboard/semrush/page.tsx:59-62 | upper- or lower-casing the search term does not change the match |
| SemrushPage.NoFilterKeepsAll | src/app/dashboard/semrush/page.tsx:58-65 | an empty search with status `all` keeps every site |
| SemrushPage.StatusColor | src/app/dashboard/semrush/page.tsx:67-78 | gray exactly when the lower-cased status is none of `email_sent`, `pending`, `failed` |
| SemrushPage.StatusColorIgnoresCase | src/app/dashboard/semrush/page.tsx:67-68 | the colour depends only on the lower-cased status |
| SemrushPage.BadgeReplacesFirstOnly | src/app/dashboard/semrush/page.tsx:286 | the badge replaces the first `_` by a space and leaves later ones (`email_sent` shows `email sent`) |
| EmailsPage.FilteredEmails | src/app/dashboard/emails/page.tsx:125-130 | an order-preserving subsequence holding exactly the rows matching both the search and the status filter |
| EmailsPage.NoFilterKeepsAll | src/app/dashboard/emails/page.tsx:125-130 | an empty search with status `all` keeps every row |
| EmailsPage.SearchOnlyAddressAndWebsite | src/app/dashboard/emails/page.tsx:126-127 | a row whose address and website miss the term is not shown, whatever its other fields |
| EmailsPage.StatusFilterIsExact | src/app/dashboard/emails/page.tsx:128 | a status other than `all` keeps only rows with exactly that status |
| EmailsPage.EmptyStateIff | src/app/dashboard/emails/page.tsx:355-358 | the empty-state message shows exactly when no row passes both filters |
| EmailsPage.Statuses | src/app/dashboard/emails/page.tsx:132 | the statuses are without duplicates, exactly those present, in first-occurrence order |
| EmailsPage.SampleStatuses | src/app/dashboard/emails/page.tsx:21-132 | the page's rows offer `sent`, `pending`, `found`, `failed`, in that order |
| EmailsPage.StatusColor | src/app/dashboard/emails/page.tsx:82-95 | gray exactly when the status is none of `sent`, `found`, `pending`, `failed` |
| EmailsPage.ResponseColor | src/app/dashboard/emails/page.tsx:112-123 | gray exactly when the response is none of `positive`, `negative`, `pending` |
| EmailsPage.ColorsAreCaseSensitive | src/app/dashboard/emails/page.tsx:82-123 | both switches compare exactly (`Sent` is gray) |
| EmailsPage.SampleColors | src/app/dashboard/emails/page.tsx:21-123 | every sample status has its own colour and `none` responses are gray |
| WebsitesPage.FilteredWebsites | src/app/dashboard/websites/page.tsx:91-96 | an order-preserving subsequence holding exactly the rows matching both the search and the category filter |
| WebsitesPage.NoFilterKeepsAll | src/app/dashboard/websites/page.tsx:91-96 | an empty search with category `all` keeps every row |
| WebsitesPage.SearchIgnoresCase | src/app/dashboard/websites/page.tsx:92-93 | upper- or lower-casing the search term does not change the match |
| WebsitesPage.CategoryFilterIsExact | src/app/dashboard/websites/page.tsx:94 | a category other than `all` keeps only rows with exactly that category |
| WebsitesPage.EmptyStateIff | src/app/dashboard/websites/page.tsx:262-265 | the empty-state message shows exactly when no row passes both filters |
| WebsitesPage.Categories | src/app/dashboard/websites/page.tsx:98 | the categories are without duplicates, exactly those present, in first-occurrence order |
| WebsitesPage.SampleCategories | src/app/dashboard/websites/page.tsx:17-98 | the page's rows offer five categories in first-seen order, `Marketing` once |
| WebsitesPage.StatusColor | src/app/dashboard/websites/page.tsx:78-89 | green exactly for `processed`, yellow exactly for `processing`, gray otherwise |
| WebsitesPage.PendingLooksUnknown | src/app/dashboard/websites/page.tsx:84-87 | `pending` has the same colour as any unknown status |
| DashboardLayout.FirstLettersOfWords | src/components/dashboard-layout.tsx:57-60 | non-empty words contribute exactly their first characters, in order |
| DashboardLayout.EmptyWordsIgnored | src/components/dashboard-layout.tsx:57-60 | empty words from leading, trailing or repeated spaces contribute nothing |
| DashboardLayout.GetUserInitials | src/components/dashboard-layout.tsx:56-63 | at most two characters: the upper-cased first characters of the first two non-empty words |
| DashboardLayout.TwoWordInitials | src/components/dashboard-layout.tsx:56-63 | a name of two words gives the upper-cased first letter of each |
| DashboardLayout.InitialsOfTwoWords | src/components/dashboard-layout.tsx:56-63 | `data analyst` gives `DA` |
| DashboardLayout.AvatarWithoutUser | src/components/dashboard-layout.tsx:121 | without a user the avatar shows `U` |
| DashboardLayout.AtMostOneActive | src/components/dashboard-layout.tsx:89 | the navigation links are distinct, so at most one entry is active on any path |
| DashboardLayout.OverviewNotActiveOnSubpage | src/components/dashboard-layout.tsx:89 | activity is exact path equality: the overview is not active on `/dashboard/websites` |

## Left out

- Google Sheets client, JWT service-account setup and the `values.get` / `spreadsheets.get` requests are foreign network calls. Their outcomes are the `Fetch` and `Metadata` parameters.
- The fixed request ranges (`A1:Z1000`, `A1:Z100`) are not modelled. The grid given is taken to be what the service returned.
- Environment variables are fields of `Config`. An unset variable is the empty string.
- Sheet names come from the environment and only select which grid is read, so they are not modelled.
- Clock readings (`new Date()`, `Date.now()`) are parameters: `today`, `date`, `now`, `finishedAt`.
- The API routes under `src/app/api` are thin wrappers. Only their `{ success, data }` envelope appears, as `DataStore.Feed`. For the campaigns route the JSON encoding is modelled too (`DataStore.CampaignsResponse`): a `NaN` count is sent as `null`, and the page adds `null` as 0.
- The fallback bodies that the routes send when Google Sheets fails carry `success: false`, so the store discards their data. Their contents are not modelled.
- `Promise.all`, overlapping load cycles and the 800 ms login delay are concurrency and timers. A load is one sequential step over the four given responses.
- DataStore.DataProvider.RefreshData: models "clear the timestamp, then load" sequentially. Under React, `refreshData` calls the `fetchAllData` closure of the same render, which saw the old timestamp, so the debounce may still apply. That closure behaviour is not modelled.
- Floating-point rates and `toFixed` formatting are not modelled. A rate is the pair it divides (`SemrushPage.Rate`).
- Case mapping is ASCII-level: Unicode case mapping is not modelled. White space for trimming and for `\s` is the full ECMAScript set of white space and line terminators (`TextUtil.IsSpace`).
- SheetMappers.Description: counts Unicode scalar values, where JavaScript's `substring(0, 100)` counts UTF-16 code units. A description of 60 emoji is 120 code units, so the source cuts it to 50 emoji, while the model keeps all 60.
- DashboardLayout.GetUserInitials: `word[0]` and `slice(0, 2)` count UTF-16 code units in the source. For a word starting with an emoji the source takes half a surrogate pair; the model takes the whole character.
- JsNumbers.ParseInt: reads into an unbounded integer, where JavaScript's `parseInt` produces a double. `parseInt("9007199254740993")` gives 9007199254740992 there, and a run of 400 digits gives `Infinity`. `JsNumbers.ParseIntRoundTrip` and every `Some(n)` result hold only for integers that doubles represent exactly.
- `String.fromCharCode` beyond 16 bits and surrogate code units are approximated: a surrogate code becomes U+FFFD, because Dafny characters are scalar values.
- `JSON.parse` of stored text is the given `parsed` field of a stored item. Stored JSON that parses to something other than a user is not distinguished.
- The `'text'` fallback after the type vote (`mostCommon ? … : 'text'`) is unreachable, because a column with samples always has a most common type. It is not modelled.
- Error logging (`console.error`, `console.log`) is output only and is left out.
- The status icons (`getStatusIcon`) and all JSX rendering are presentation only and are left out.
- The static overview page, the root layout, the redirect guards and the Mailgun test script hold no modelled logic.
