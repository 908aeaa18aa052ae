# FootyPlan in Dafny

FootyPlan is a web app that generates football (soccer) training sessions. The
server counts a free user's generations against a monthly limit, the payment
upgrade makes a user "pro" with no limit, generated sessions are saved per
user, and the client filters saved sessions and reads equipment lists. This
project models the rules underneath and proves what they promise:

- **Quota and accounts** (`server/routes.ts`, `server/storage.ts`). The store
  is a class `Storage.DatabaseStorage` holding the `users` table (a map from id
  to row) and the `sessions` table (a sequence of rows). Each storage call and
  each route is a method over it. The clock is one `Calendar.DateTime` per
  request, passed in. The quota middleware `checkQuota` and the generate
  handler are modelled step by step (`Routes.CheckQuota`,
  `Routes.GenerateSession`) and proved equal to the functions `Routes.Quota`
  and `Routes.Generate`. The lemmas about those functions state the source's
  ordering: authentication, then the monthly reset, then the limit test, then
  validation, then generation, then the counter write.
- **Two quirks kept as written.**
  - The limit test reads the user snapshot taken before the reset
    (`Routes.StaleSnapshotRefusesAfterReset`).
  - The next reset date is built with `setMonth(+1)` and then `setDate(1)`.
    On the 29th to the 31st this can skip a month
    (`Storage.NextResetSkipsMonthIff`, `Storage.JanuaryThirtyFirstResetsInMarch`).
- **Owner-scoped sessions.**
  - A lookup reads 404 both when the row is absent and when another user owns it.
  - A delete matches both the id and the owner.
  - A list holds exactly the owner's rows, newest first.
  - The stats route counts those rows and those created this month.
- **Validation** (`shared/schema.ts`). This covers the generation request's
  enum and range checks, the column defaults of a new user, and the insert
  payloads that leave out the server-owned columns.
- **The mock generator** (`server/mock-data.ts`). This covers the fixture
  table, the fallback to the outfield/passing fixture, and the request fields
  written over the fixture. The generate route serves the document as the
  source computes it (`MockData.GetMockSessionAsWritten`). The lookup there
  has a defect, recorded under Findings. The corrected lookup
  (`MockData.GetMockSession`) is modelled beside it and proved to agree
  everywhere else.
- **Equipment strings** (`client/src/components/ui/equipment-icons.tsx`).
  - The count and name of an item.
  - The priority-ordered icon choice.
  - The regex-driven extraction from a practice's setup text. It is modelled
    as the source's loops (`ExecAll`, `Exec`) and proved equal to a
    declarative reading (`Matches`, `FirstMatch`). The fallback is the
    ceiling estimates.
- **Client transforms.**
  - The conjunctive filter on the saved-sessions page.
  - The snake_case to camelCase save payload.

JavaScript semantics are written out where they matter:

- Truthiness and `||` (`JsValues.Or`).
- A missing property reads as `undefined` (`JsValues.Get`).
- `\d` is ASCII only. `\s` and `trim()` use the ECMAScript whitespace set.
- `toLowerCase` is ASCII case folding (see Left out).
- `Math.ceil`.
- `Number.prototype.toString` on integers.
- `Date` month arithmetic with day overflow.

Where the prose description of the app and the code differ, the model follows
the code:

- The goalkeeping/handling fixture has one practice, not two to four.
- `insertUserSchema` keeps `planType`, so a registration payload may name a
  plan.
- The quota reset and the limit test behave as written above.
- `getMockSession`'s `!sessionData` branch cannot be reached. The fallback
  expression is never falsy, so neither mock function has such a case.

## Model

| member | source | states |
|---|---|---|
| Schema.NewUser | shared/schema.ts:7-20 | A new row keeps the payload's id, username, email, password and payment references. It has `generationsUsed` 0 and `generationsLimit` 5. Its plan is the payload's when one is given, "free" otherwise. Its reset date falls in the month after `now`, at midnight on day 1, strictly after now. Both timestamps are `now`. |
| Schema.FieldIssues | shared/schema.ts:72-78 | No issue is reported exactly when `sessionType` is "outfield" or "goalkeeping", `sessionFocus` is a string of length at least 1, `durationMinutes` is a number in [15, 90], `participants` is a number in [1, 30], and `level` is absent or a string. |
| Schema.ParseGenerationRequest | shared/schema.ts:72-78 | An accepted body is an object whose fields satisfy every bound. The result is the projection of the body onto the five schema keys. A rejected body always comes with at least one issue. |
| Schema.AcceptsEveryWellFormedRequest | shared/schema.ts:72-78 | Every request within the bounds, sent as JSON, is accepted and read back unchanged. |
| Schema.IgnoresUnknownKeys | shared/schema.ts:72-78 | A key other than the five schema fields never changes the verdict or the parsed request. |
| MockData.LookupFixture | server/mock-data.ts:220-222 | The lookup finds a fixture exactly for outfield/passing and goalkeeping/handling. It finds an inherited object member exactly for the `Object.prototype` names. |
| MockData.ChooseFixture | server/mock-data.ts:220-222 | A goalkeeping/handling request gets the goalkeeping handling fixture. Every other request gets the outfield passing fixture. |
| MockData.GetMockSessionAsWritten | server/mock-data.ts:218-237 | `getMockSession` as the route runs it. The document is an object holding the five request keys. `duration_minutes`, `participants`, `session_type` and `session_focus` equal the request's values, whatever the lookup found. |
| MockData.GetMockSession | server/mock-data.ts:218-237 | The corrected lookup, where every pair outside the table falls back. It gives the same document shape and the same four echoed request fields. |
| MockData.MockLevel | server/mock-data.ts:233 | `level` is the request's level when it is a non-empty string, otherwise the fixture's "Youth U12". |
| MockData.MockKeepsFixtureContent | server/mock-data.ts:229-236 | The document has exactly the fixture's keys. Every key the request does not override holds the fixture's value. |
| MockData.FallbackRelabels | server/mock-data.ts:220-235 | A pair the table lacks gets the outfield passing title and practices, labelled with the requested type and focus. |
| MockData.OutfieldPassingPractices | server/mock-data.ts:30-102 | The passing fixture has two practices. Each has a difficulty in 1..5 and a non-empty diagram. |
| MockData.GoalkeepingHandlingPractices | server/mock-data.ts:151-184 | The handling fixture has one practice, with a difficulty in 1..5 and a non-empty diagram. |
| MockData.InheritedFocusDropsFixture | server/mock-data.ts:220-236 | As written, a focus such as "constructor" yields only the five overridden keys. The level is the request's non-empty level, else "General" (never the fixture's "Youth U12"). |
| MockData.AsWrittenAgreesOnOrdinaryFocus | server/mock-data.ts:220-236 | Outside the inherited names, the written lookup and the corrected one give the same document. |
| Storage.NextResetDate | server/storage.ts:92-96 | The stored reset date is valid, on day 1, at midnight. |
| Storage.NextResetDateCases | server/storage.ts:93-96 | The reset date is the first of the next month when today's day exists in that month. Otherwise it is the first of the month after. |
| Storage.NextResetDateIsLater | server/storage.ts:93-96 | The reset date is always after the moment of the reset. |
| Storage.NextResetSkipsMonthIff | server/storage.ts:93-96 | The reset skips a month exactly when today's day number is missing from the next month. |
| Storage.JanuaryThirtyFirstResetsInMarch | server/storage.ts:93-96 | A reset on 31 January 2025 lands on 1 March 2025. |
| Storage.UpdateWhereId | server/storage.ts:75 | A keyed update changes only the row with that id. The table's keys stay the same. |
| Storage.StripeInfoWithoutSubscription | server/storage.ts:60-64 | Without a subscription reference, only the customer reference and `updatedAt` change. |
| Storage.StripeInfoWithSubscription | server/storage.ts:66-70 | With a subscription reference, the user becomes "pro" with limit -1 and that reference. The counter and reset date are kept. |
| Storage.WithStripeInfo | server/storage.ts:60-77 | The row gets the customer reference and `updatedAt` = now. Its id, username, email, password, counter, reset date and creation time are kept. |
| Storage.WithGenerations | server/storage.ts:80-89 | The row's counter becomes the argument and `updatedAt` becomes now. Every other column is kept. |
| Storage.WithReset | server/storage.ts:92-105 | The counter becomes 0 and `updatedAt` becomes now. The reset date becomes `NextResetDate(now)`, which is after now. Every other column is kept. |
| Storage.FindById | server/storage.ts:110-113 | A found row is in the table and has the id. `None` means no row has that id. |
| Storage.OwnedBy | server/storage.ts:115-119 | The result holds exactly the rows whose owner is the argument. |
| Storage.WithoutMembers | server/storage.ts:131-134 | After a delete, the rows left are exactly those not matching both the id and the owner. The table shrinks iff some row matched. |
| Storage.FindAppended | server/storage.ts:123-129 | A row appended under a fresh id is what a lookup by that id returns. |
| Storage.FindAppendedOther | server/storage.ts:123-129 | Appending leaves every other id's lookup unchanged. |
| Storage.DeletedIsGone | server/storage.ts:131-134 | After a delete, a lookup of that id finds no row of that owner. |
| Storage.WithoutKeepsUnique | server/storage.ts:131-134 | Deleting keeps session ids unique. |
| Storage.Remove | server/storage.ts:131-135 | One pass keeps exactly the rows `Without` keeps, and kept plus removed equals the original count. |
| Storage.InsertNewestFirst | server/storage.ts:120 | Inserting a row into a newest-first list keeps it newest first and adds exactly that row. |
| Storage.InsertKeepsNewestFirst | server/storage.ts:120 | Inserting after every row at least as new keeps the list ordered. |
| Storage.DatabaseStorage.constructor | server/storage.ts:30-35 | The store starts with empty tables that satisfy the invariant. |
| Storage.DatabaseStorage.GetUser | server/storage.ts:37-40 | The user row with that id, or `None` exactly when there is none. |
| Storage.DatabaseStorage.CreateUser | server/storage.ts:52-58 | The insert succeeds iff the id, username and email are all new. It then adds `NewUser`'s row, and otherwise changes nothing. |
| Storage.DatabaseStorage.UpdateUserStripeInfo | server/storage.ts:60-78 | The new users table is `SetStripeInfo` of the old one. Sessions are unchanged, and the updated row is returned. |
| Storage.DatabaseStorage.UpdateUserGenerations | server/storage.ts:80-90 | Only the keyed row's counter becomes exactly the argument. Plan, limit and reset date are kept. |
| Storage.DatabaseStorage.ResetUserGenerations | server/storage.ts:92-108 | Only the keyed row changes: counter 0 and reset date `NextResetDate(now)`. |
| Storage.DatabaseStorage.GetSession | server/storage.ts:110-113 | The scan returns `FindById` of the table. |
| Storage.DatabaseStorage.GetUserSessions | server/storage.ts:115-121 | The result is a permutation of the owner's rows, ordered by creation time descending. |
| Storage.DatabaseStorage.CreateSession | server/storage.ts:123-129 | The insert succeeds iff the id is new and the owner exists. It appends exactly the new row, and otherwise changes nothing. |
| Storage.DatabaseStorage.DeleteSession | server/storage.ts:131-136 | The table becomes `Without(id, owner)`. The result is true iff some row matched both. |
| Routes.Quota | server/routes.ts:23-46 | The function that specifies `checkQuota`; its properties are proved by the lemmas below. |
| Routes.CheckQuota | server/routes.ts:23-46 | The step-by-step middleware yields exactly `Quota`'s table and verdict. It leaves sessions unchanged. |
| Routes.Generate | server/routes.ts:49-84 | The route answers 200, 400, 401, 403 or 500. It answers 401 iff there is no signed-in user, and 403 iff that user's snapshot is a free user at or over the limit. No user row is added or removed. |
| Routes.Handle | server/routes.ts:50-83 | Behind the middleware the handler answers 200, 400 or 500. It answers 400 iff the body fails validation. A 200 carries a document and needs a re-read user. Only a 200 for a free user changes the table. |
| Routes.HandleGenerate | server/routes.ts:50-83 | The step-by-step handler yields exactly `Handle`'s table and response. It leaves sessions unchanged. |
| Routes.QuotaVerdict | server/routes.ts:23-43 | 401 without a user. Otherwise 403 with `upgradeRequired` exactly when the snapshot is a free user at or over the limit. A pro user always passes. Before the reset date the table is untouched and a passing request carries `req.user` as it arrived. |
| Routes.QuotaResetsFirst | server/routes.ts:31-35 | When the reset date has come, the reset is persisted: counter 0 and a later reset date. The re-read row becomes `req.user`. |
| Routes.StaleSnapshotRefusesAfterReset | server/routes.ts:28-43 | A free user at the limit whose reset is due is refused with 403 even though the reset was written. |
| Routes.NextRequestAfterStaleRefusalPasses | server/routes.ts:28-45 | The next request with the re-read row passes without further writes. |
| Routes.GenerateSession | server/routes.ts:49-84 | The handler's table and response equal `Generate` of the old table. Sessions are unchanged. |
| Routes.UnauthenticatedGenerateWritesNothing | server/routes.ts:24-26 | An unauthenticated generate request gets 401 and leaves the table unchanged. |
| Routes.QuotaBeforeValidation | server/routes.ts:49-57 | With an invalid body, an exhausted free user gets 403 and a user within quota gets 400 with zod's issues. Neither writes a counter. |
| Routes.IncrementOnlyOnSuccess | server/routes.ts:74-79 | Only a 200 writes the counter. It writes only for a free `req.user`, setting its counter to that counter plus one. |
| Routes.GeneratorFailureWritesNothing | server/routes.ts:80-82 | A generator that throws gives 500 and no counter write. |
| Routes.MockServedInDevelopment | server/routes.ts:61-72 | Past the quota and validation, in development without `mock=false` the response is 200 with `getMockSession` as written. For a focus that is not an inherited member name this equals the corrected document. In every other mode the response is the live generator's document, or 500 when it threw. |
| Routes.ProCounterNeverWritten | server/routes.ts:75 | A pro user's counter is never written. |
| Routes.UpgradedUserPasses | server/routes.ts:38 | After the payment upgrade the quota passes whatever the counters say. |
| Routes.GenerateStepFree | server/routes.ts:38-76 | For a free user with no reset due, a 200 costs exactly one generation and needs remaining quota. Any other response costs nothing. |
| Routes.ReplayWithinQuota | server/routes.ts:38-76 | A sequence of requests within one month yields at most `limit - used` documents. |
| Routes.SaveSession | server/routes.ts:92-109 | 401 without a user. 201 iff the body is complete, the id is fresh and the owner exists; it then appends the row owned by the signed-in user. Otherwise 500 with the table unchanged. |
| Routes.ListSessions | server/routes.ts:112-124 | 401 without a user, otherwise 200 with exactly the caller's rows, newest first. |
| Routes.SessionResponse | server/routes.ts:133-137 | 200 iff the row exists and the caller owns it. Absent and foreign rows both give "Session not found". |
| Routes.GetSessionRoute | server/routes.ts:127-142 | The route's response is `SessionResponse` of the table lookup. |
| Routes.DeleteSessionRoute | server/routes.ts:145-160 | The table becomes `Without(id, caller)`. 204 iff some row matched, otherwise 404. |
| Routes.SavedSessionRoundTrip | server/routes.ts:133-137 | A saved session is returned to its owner and reads as not found for anyone else. |
| Routes.Remaining | server/routes.ts:238 | -1 for pro. Otherwise `max(0, limit - used)`, positive iff `used < limit`. |
| Routes.RemainingAgreesWithQuota | server/routes.ts:238 | For a free user with no reset due, remaining > 0 iff the quota passes. |
| Routes.CountSince | server/routes.ts:230-233 | The count is at most the number of rows. It is 0 iff every row predates the start. |
| Routes.CountSincePermutation | server/routes.ts:231-233 | The monthly count does not depend on row order. |
| Routes.StatsFor | server/routes.ts:231-241 | The stats are 200. `totalSessions` is the number of rows. `monthlyGenerations` is at most that, and it is 0 iff every row predates the first of the current month. The remaining count, plan and reset date are the user's. |
| Routes.UserStats | server/routes.ts:219-246 | The response is `StatsFor` of the caller and exactly the caller's rows. |
| EquipmentIcons.ParseEquipmentCount | client/src/components/ui/equipment-icons.tsx:35-38 | 1 when the item has no digit. Otherwise the value of the first digit run, which starts at the first digit and is maximal. |
| EquipmentIcons.CountPrefix | client/src/components/ui/equipment-icons.tsx:41 | The anchored prefix is greedy. It takes the maximal leading digit run, then maximal whitespace, then one `x` or `X` exactly when one is there, then maximal whitespace. It is empty when the item does not start with a digit. |
| EquipmentIcons.GetEquipmentName | client/src/components/ui/equipment-icons.tsx:40-42 | The name is the piece of the item after the count prefix that has only whitespace around it. It neither starts nor ends with whitespace. |
| EquipmentIcons.NameAfterCount | client/src/components/ui/equipment-icons.tsx:40-42 | An item written as a count, optional whitespace, an optional `x`, optional whitespace and a name is named by exactly that name. The name must not start with whitespace or a digit, must not start with an `x` when no `x` precedes it, and must not end with whitespace. |
| EquipmentIcons.PrefixEndsAt | client/src/components/ui/equipment-icons.tsx:41 | The prefix ends at the first character after digits, whitespace, an optional `x` and whitespace that continues none of them. |
| EquipmentIcons.NameWithoutLeadingCount | client/src/components/ui/equipment-icons.tsx:40-42 | An item not starting with a digit is only trimmed. |
| EquipmentIcons.TwentyFootballs | client/src/components/ui/equipment-icons.tsx:35-38 | "20 x Footballs" has count 20. |
| EquipmentIcons.FootballsName | client/src/components/ui/equipment-icons.tsx:40-42 | "20 x Footballs" is named "Footballs". |
| EquipmentIcons.BibsCountThree | client/src/components/ui/equipment-icons.tsx:35-38 | The count pattern is not anchored: "Bibs (3 colors)" counts 3. |
| EquipmentIcons.BibsNameKeepsDigit | client/src/components/ui/equipment-icons.tsx:40-42 | The name pattern is anchored: "Bibs (3 colors)" keeps its whole name. |
| EquipmentIcons.XylophonesLoseTheirX | client/src/components/ui/equipment-icons.tsx:41 | The optional `x` is removed even when it starts a word. |
| EquipmentIcons.ItemLabel | client/src/components/ui/equipment-icons.tsx:57-59 | The count prefix `<n>x ` is shown only when the count exceeds 1. |
| EquipmentIcons.BibsLabel | client/src/components/ui/equipment-icons.tsx:57-59 | "Bibs (3 colors)" is shown as "3x Bibs (3 colors)". |
| EquipmentIcons.FirstMatching | client/src/components/ui/equipment-icons.tsx:9-33 | The icon is the default exactly when no icon in the list is mentioned. Otherwise it is mentioned, and no icon before it in the list is. |
| EquipmentIcons.IconIsFirstMentioned | client/src/components/ui/equipment-icons.tsx:12-32 | The chain of keyword tests picks the first icon in the order ball, cone, goal, bib, flag, mannequin whose keywords occur, else the default. |
| EquipmentIcons.GetEquipmentIcon | client/src/components/ui/equipment-icons.tsx:9-33 | The icon of an item is the first in priority order that the lower-cased item mentions, or the default. |
| EquipmentIcons.FootballKeywordIsRedundant | client/src/components/ui/equipment-icons.tsx:12 | Any item containing "football" contains "ball". |
| EquipmentIcons.IconIgnoresCase | client/src/components/ui/equipment-icons.tsx:10 | Lower-casing the item does not change its icon. |
| EquipmentIcons.WordEnd | client/src/components/ui/equipment-icons.tsx:74-81 | A word match ends after its start within the text. There is none iff no alternative occurs there. |
| EquipmentIcons.MatchAt | client/src/components/ui/equipment-icons.tsx:74-81 | A match at `p` starts with a digit. Its digit group is non-empty, its word follows the digits, and it ends within the text. |
| EquipmentIcons.MatchAtFinds | client/src/components/ui/equipment-icons.tsx:74-81 | The pattern is found wherever the text has it. A whole digit run at `p`, whitespace up to `w`, and one of the words at `w` make a match exactly when some word occurs there. That match has exactly those parts. |
| EquipmentIcons.MatchShape | client/src/components/ui/equipment-icons.tsx:74-81 | A match is the whole digit run, then whitespace, then one of the alternatives with an optional `s`. |
| EquipmentIcons.FirstMatch | client/src/components/ui/equipment-icons.tsx:85 | `exec` returns a match starting at or after `lastIndex`. |
| EquipmentIcons.FirstMatchIsLeftmost | client/src/components/ui/equipment-icons.tsx:85 | No match starts between `lastIndex` and the returned one. `null` means none starts anywhere from `lastIndex` on. |
| EquipmentIcons.FirstMatchSkips | client/src/components/ui/equipment-icons.tsx:85 | Positions without a match are passed over: `exec` returns the first match after them, or `null` at the end. |
| EquipmentIcons.Exec | client/src/components/ui/equipment-icons.tsx:85 | The scan returns exactly `FirstMatch`. |
| EquipmentIcons.ExecAll | client/src/components/ui/equipment-icons.tsx:83-88 | One pattern's `exec` loop pushes exactly `Matches(setup, 0)`. |
| EquipmentIcons.MatchesFrom | client/src/components/ui/equipment-icons.tsx:83-88 | Every match is pushed. The first match at or after the search position heads the list, and the matches after its end follow. |
| EquipmentIcons.MatchesNone | client/src/components/ui/equipment-icons.tsx:83-88 | Without a match from the search position on, nothing is pushed. |
| EquipmentIcons.ExtractEquipmentFromSetup | client/src/components/ui/equipment-icons.tsx:70-104 | The pushed list equals `Extract`: pattern by pattern, by position, and the estimates only when nothing matched. |
| EquipmentIcons.AddEstimates | client/src/components/ui/equipment-icons.tsx:91-101 | It pushes exactly `Estimates`. |
| EquipmentIcons.Ceil | client/src/components/ui/equipment-icons.tsx:94-98 | The least integer at or above `x`. |
| EquipmentIcons.Extract | client/src/components/ui/equipment-icons.tsx:83-101 | With matches the result is the matches. Without them it is exactly the estimates: one cone estimate when an area is given, plus one ball estimate when the player count is non-zero. |
| EquipmentIcons.Estimates | client/src/components/ui/equipment-icons.tsx:91-100 | There is one entry per estimate that applies: the cone estimate when an area is given, the ball estimate when the player count is non-zero. |
| EquipmentIcons.EstimatesAreCeilings | client/src/components/ui/equipment-icons.tsx:92-100 | The cone estimate comes first. It is `<n> x Cones` with n the least integer such that n cones every 5 m cover the perimeter. The ball estimate comes last. It is `<n> x Footballs` with n the least integer such that n balls serve the players two each. |
| EquipmentIcons.SummaryShownIff | client/src/components/ui/equipment-icons.tsx:106-108 | The summary renders iff some pattern matched, an area is given, or the player count is non-zero. |
| EquipmentIcons.DigitFreeTextGetsEstimates | client/src/components/ui/equipment-icons.tsx:83-101 | A setup text without digits gets the estimates. |
| EquipmentIcons.AllMatchesEmpty | client/src/components/ui/equipment-icons.tsx:83-88 | If no pattern matches, the combined list is empty. |
| EquipmentIcons.FixtureEstimates | client/src/components/ui/equipment-icons.tsx:94-99 | The estimates for an 18×6 m, 6-player practice are 10 cones and 3 balls. For 20×15 m and 14 players they are 14 cones and 7 balls. |
| EquipmentIcons.TwoItemSetupExtracted | client/src/components/ui/equipment-icons.tsx:70-101 | "4 cones, 2 balls" gives `["4 x cones", "2 x balls"]`: the cone pattern is tried first, and no estimate is added although an area and players are given. |
| SessionsPage.FilterSessions | client/src/pages/sessions.tsx:58-65 | The result holds exactly the input's sessions that pass all four tests, and is no longer than the input. |
| SessionsPage.FilterOfConcat | client/src/pages/sessions.tsx:58-65 | Filtering preserves order: filtering a joined list gives the joined filtered lists. |
| SessionsPage.FilterIsIdempotent | client/src/pages/sessions.tsx:58-65 | Filtering twice equals filtering once. |
| SessionsPage.NoFiltersKeepsEverything | client/src/pages/sessions.tsx:58-65 | With an empty search and every selection "all", the list is shown unchanged. |
| SessionsPage.AllDisablesCriterion | client/src/pages/sessions.tsx:60-62 | "all" removes the type, focus or duration condition. Otherwise the type must be equal. |
| SessionsPage.DurationFilterMatchesMinutes | client/src/pages/sessions.tsx:62 | Choosing a duration's text keeps exactly the sessions of that many minutes. |
| SessionsPage.SearchIgnoresCase | client/src/pages/sessions.tsx:59 | Lower-casing the search term does not change the result. |
| SessionsPage.EmptyStateText | client/src/pages/sessions.tsx:184-193 | With nothing shown, the text says "none generated yet" iff there are no sessions, and "no match" iff there are some. |
| SessionsPage.NoMatchTextNeedsFilters | client/src/pages/sessions.tsx:190-193 | With no filters set, an empty list always reads as "none generated yet". |
| SessionResults.SessionToSave | client/src/components/session/session-results.tsx:46-61 | Each column comes from its snake_case field, its camelCase field, or (for the structured columns) an empty array or object. Nothing else is written into a column. |
| SessionResults.SnakeCaseFirst | client/src/components/session/session-results.tsx:48-58 | For the type, focus, duration, safety notes and small-sided game, a truthy snake_case field wins. When it is falsy, a truthy camelCase field is taken instead. |
| SessionResults.ZeroDurationFallsThrough | client/src/components/session/session-results.tsx:50 | A zero `duration_minutes` is lost when no camelCase value exists. |
| SessionResults.StructuredColumnsDefault | client/src/components/session/session-results.tsx:53-60 | The eight structured columns are always truthy. Falsy lists default to `[]`. A falsy `warmup`, `cooldown` or `diagrams` defaults to `{}`, as does a small-sided game with both fields falsy. |
| SessionResults.StructuredColumnsKept | client/src/components/session/session-results.tsx:53-60 | A truthy `objectives`, `equipment`, `practices`, `warmup`, `cooldown` or `diagrams` is sent as it is. |
| SessionResults.CopiedUnchanged | client/src/components/session/session-results.tsx:47-52 | Title, participants and level are copied as they are. |
| SessionResults.OtherKeysIgnored | client/src/components/session/session-results.tsx:46-61 | No field outside the nineteen read keys, such as `id` or `createdAt`, affects the payload. |
| SessionResults.SavingAMockSession | client/src/components/session/session-results.tsx:48-51 | Saving the document the generate route serves in development keeps the request's type, duration and player count. |
| JsValues.Or | client/src/components/session/session-results.tsx:48-60 | JavaScript's logical or returns one of its operands, and the result is truthy iff either operand is. |
| Text.IntToStringInjective | client/src/pages/sessions.tsx:62 | Different integers have different decimal texts. |
| Calendar.NextMonthStart | shared/schema.ts:17 | The result is in the month after the argument's (December rolls over to January of the next year). It is valid, at midnight on day 1, and strictly later. |

## Left out

- `server/openai.ts`, the live generator: it calls an external service. Its outcome is the parameter `live` of `Routes.Generate`, where `None` means it threw.
- The payment endpoint (`server/routes.ts:163-216`): it calls the payment provider. Only its storage effect is modelled, as `UpdateUserStripeInfo`.
- `getUserByUsername` and `getUserByEmail`: the authentication setup uses them, and it is not part of this model.
- Concurrency: the race between the quota check and the counter write is not captured. Requests are sequential method calls.
- Authentication wiring: passport, sessions and middleware. The signed-in user is the parameter `reqUser`. The user row read when the request arrives is what the route sees.
- The clock: one `now` per request in local calendar time. Time zones and daylight saving time are not modelled.
- Timestamps: `updatedAt` values come from `now`, and timestamps carry whole days plus milliseconds of the day.
- The 3-second delay on the mock path, the random loading phrase and the client's phrase timer: they are timing and randomness with no effect on results.
- Storage.DatabaseStorage.CreateUser: the new id is a parameter, where the table's default draws it from `gen_random_uuid()`. A duplicate id, username or email gives `None` and changes nothing, where the database insert throws.
- Routes.SaveSession: the request body's validity is abstracted to `Option<InsertSession>`, where `None` means the insert would be refused. Extra keys such as `id` or `createdAt` that a client could spread into the insert are not modelled. The new id is a parameter.
- Routes.Generate: a `req.user` that the middleware could not re-read ends in 500. In the source it is a `TypeError` caught by the handler's `catch`.
- The 500 responses for database failures in the list, get, delete and stats routes are not modelled: the store never fails.
- JSON serialisation: keys whose value is `undefined` are dropped when sent. The payload keeps them as `Undefined`.
- Numbers: JavaScript numbers are reals. Precision, `NaN`, infinities and the exponent form of numbers of 1e21 and above are not modelled. `parseInt` of very long digit runs is exact here.
- Case folding: `toLowerCase` is modelled on ASCII letters only. Other letters are compared as they are.
- EquipmentIcons.Extract: a truthy `area_meters` that is not a pair of numbers, and a `players_required` that is not a number, are not modelled. The area is `Option<(real, real)>` and the players are `Option<real>`, where `None` stands for a falsy value.
- UI rendering: JSX, icons, toasts, the JSON download builders and the client-side "remaining" displays.

## Findings

| source | as written | input that shows it | evidently intended | confidence | as-written member | corrected member |
|---|---|---|---|---|---|---|
| server/mock-data.ts:220-222 | `MOCK_SESSIONS[type]?.[focus]` on a plain object also finds members inherited from `Object.prototype`. Such a member is truthy, so it is spread instead of falling back, and the document has only the five request fields and the level "General". | `{sessionType: "outfield", sessionFocus: "constructor", durationMinutes: 60, participants: 10}`, which the schema accepts | Any pair that is not in the table falls back to the outfield/passing fixture | not executed | MockData.InheritedFocusDropsFixture | MockData.FallbackRelabels |
