# Scam report submission and reward tiering — a verified model

This project models the two pieces of real logic in the Incepta scam-reporting
web application:

- the **report form** (`incepta/app/report/page.tsx`). The form state is updated
  one field at a time. An image validator enforces a 5 MiB ceiling and an
  `image/` content type. The submission controller checks that no submit is in
  flight and that the required fields are filled in, geolocates the user,
  uploads the optional image under a time-stamped path, asks for an AI summary
  and inserts the report into the `scams` table. Every failure it reports
  (with an alert) clears the `submitting` flag and stops before the later
  steps. Two outcomes leave the flag set with no alert: a location request
  that is never answered, and a `summarize` call that rejects, which nothing
  catches.
- the **profile panel** (`incepta/app/components/userProfileCard.tsx`). The
  three-tier coin reward `calculateCoins`, and the panel state that feeds it:
  the `open` flag and the user's recent reports, which a query capped at five
  rows fetches.

The outside services become inputs. The browser's geolocation, the storage
upload, `getPublicUrl`, the summariser, the table insert, `Date.now()` and
`new Date().toISOString()` are fields of an `Env` value. The panel's query
result is a `FetchReply`. What the submission controller asks of the services
and shows the user (alerts, the location request, the upload, the summary
request, the insert, the navigation home) is recorded in order as a sequence
of `Effect`s.

Files:

- `wrappers.dfy`: `Option`, JavaScript's `null`.
- `strings.dfy`: JavaScript's `split` on one character, the inverse `join`,
  `startsWith`, and the decimal text of a non-negative integer with its
  parser.
- `report_page.dfy`: the form, the image check, the upload path, the
  submission as a function `Submit` with its properties, and the page class
  `ReportForm`, whose methods are proved against those functions.
- `profile_card.dfy`: `CalculateCoins` with its tier and monotonicity lemmas,
  and the `Panel` class.

Choices that follow the code:

- The scam type is a string, not a closed enumeration. `handleChange` stores
  whatever value the input sends, and the submit guard only rejects `""`.
- The insert sets no `user_id` and no vote count, so the model's `Record` has
  neither.
- A validation failure shows an alert. The model records the alert, and it
  performs no geolocation, upload or insert.

## Model

| member | source | states |
|---|---|---|
| `Strings.Split` | incepta/app/report/page.tsx:53 | `split(".")` always yields at least one part, and no part contains the separator |
| `Strings.Last` | incepta/app/report/page.tsx:53 | what `pop()` returns from the split parts; `Strings.SplitLast` states what that part is |
| `Strings.JoinSplit` | incepta/app/report/page.tsx:53 | joining the parts of a split with the separator gives back the original name |
| `Strings.SplitJoin` | incepta/app/report/page.tsx:53 | splitting a join of separator-free parts gives back the parts, so split and join are inverse |
| `Strings.SplitWithoutSeparator` | incepta/app/report/page.tsx:53 | a name without a dot splits into itself alone |
| `Strings.SplitAfterHead` | incepta/app/report/page.tsx:53 | text before the first dot comes off as the first part, and the rest splits as before |
| `Strings.JoinLast` | incepta/app/report/page.tsx:53 | a join of two or more parts ends with the separator followed by the last part |
| `Strings.SplitLast` | incepta/app/report/page.tsx:53 | the part `pop()` returns is the text after the last separator, or the whole string when there is none |
| `Strings.DecimalString` | incepta/app/report/page.tsx:54 | the text `${Date.now()}` produces is non-empty and made only of decimal digits |
| `Strings.DecimalRoundTrip` | incepta/app/report/page.tsx:54 | reading that decimal text back gives the timestamp |
| `Strings.IsPrefix` | incepta/app/report/page.tsx:126 | `startsWith`; `ReportPage.CheckImage` states the verdict it decides |
| `ReportPage.SetField` | incepta/app/report/page.tsx:113-116 | `handleChange` sets the named field to the value, leaves the other text fields and the image unchanged |
| `ReportPage.MissingField` | incepta/app/report/page.tsx:39 | the required-field check: true iff the title, the description or the type is the empty string, the only falsy string; `ReportPage.Submit` and `ReportPage.MissingFieldHasNoEffects` state its effect |
| `ReportPage.CheckImage` | incepta/app/report/page.tsx:121-131 | a file is accepted iff its size is at most 5*1024*1024 bytes and its type starts with `image/`; an oversized file is reported as too large whatever its type, so the size check comes first |
| `ReportPage.SizeCeilingIsInclusive` | incepta/app/report/page.tsx:121-124 | a file of exactly 5 MiB passes the size check, and one byte more fails it |
| `ReportPage.FileExt` | incepta/app/report/page.tsx:53 | the extension holds no dot; `ReportPage.FileExtIsAfterLastDot` states that it is the text after the last dot |
| `ReportPage.FileExtIsAfterLastDot` | incepta/app/report/page.tsx:53 | the extension has no dot; it is the whole name when the name has no dot, and otherwise the text right after the last dot |
| `ReportPage.UploadPath` | incepta/app/report/page.tsx:53-55 | every path lies under `scam-images/`; `ReportPage.UploadPathRoundTrip` states that it records exactly the timestamp and the extension |
| `ReportPage.UploadPathRoundTrip` | incepta/app/report/page.tsx:53-55 | the path `scam-images/<timestamp>.<ext>` can be parsed back into exactly that timestamp and extension |
| `ReportPage.UploadPathsDistinct` | incepta/app/report/page.tsx:53-55 | two uploads at different timestamps never get the same storage path |
| `ReportPage.SummaryText` | incepta/actions/summary.ts:9-21 | `summarize` returns the model's text, or the fixed fallback string when the call fails |
| `ReportPage.SummaryPrompt` | incepta/app/report/page.tsx:79 | the prompt is the fixed instruction followed by exactly the description |
| `ReportPage.UploadOf` | incepta/app/report/page.tsx:57-63 | the upload request: bucket `scam-images`, the upload path, the file with its own type, cache `3600`, no upsert; `ReportPage.SubmitUploadsFormImage` and `ReportPage.OnlyValidatedImagesUploaded` state what it uploads |
| `ReportPage.ImageUrl` | incepta/app/report/page.tsx:50-76 | `imageUrl` is null exactly when no image is attached; `ReportPage.InsertedRecord` states that it is otherwise the public URL of the uploaded path |
| `ReportPage.RecordOf` | incepta/app/report/page.tsx:81-92 | the inserted row; `ReportPage.InsertedRecord` states its fields: position, form fields, image URL and summary text |
| `ReportPage.OnLocated` | incepta/app/report/page.tsx:46-103 | the success callback leaves the flag set iff any attached image uploaded successfully and either the `summarize` call rejects or the insert succeeds; every other outcome clears it |
| `ReportPage.Submit` | incepta/app/report/page.tsx:32-110 | while `submitting` is set a submit changes nothing and performs nothing; a missing title, description or type leaves the flag false after only an alert; otherwise the flag ends true iff every step succeeded or a call never settles (the location request is not answered, or `summarize` rejects) |
| `ReportPage.CallbackStageOrder` | incepta/app/report/page.tsx:46-103 | the success callback makes no location request, and its calls come in the order upload, summarise, insert, navigate |
| `ReportPage.SubmitStageOrder` | incepta/app/report/page.tsx:32-110 | a submit's service calls come in the order locate, upload, summarise, insert, navigate |
| `ReportPage.SubmitUploadsFormImage` | incepta/app/report/page.tsx:52-63 | the only file a submit ever uploads is the form's own image |
| `ReportPage.OnlyValidatedImagesUploaded` | incepta/app/report/page.tsx:57-63 | when the form's image passed the validator, every uploaded file passes it: at most 5 MiB, with a type starting `image/` |
| `ReportPage.MissingFieldHasNoEffects` | incepta/app/report/page.tsx:39-43 | with a required field empty, no geolocation, upload, insert or navigation happens |
| `ReportPage.UnsettledCallLeavesFlagSet` | incepta/app/report/page.tsx:45-79 | a location request never answered, or a `summarize` that rejects, leaves the flag set (the button stays disabled), with no insert, no navigation and no alert |
| `ReportPage.LocationFailureStops` | incepta/app/report/page.tsx:104-108 | a geolocation failure clears the flag, and nothing after the location request happens except the alert |
| `ReportPage.UploadFailureStops` | incepta/app/report/page.tsx:57-70 | a failed upload clears the flag, and no summary request, insert or navigation follows it |
| `ReportPage.InsertedRecord` | incepta/app/report/page.tsx:50-92 | once located and uploaded, and with a summary text, exactly one row is inserted: one position of the effects holds that insert and no other position holds an insert. It carries the geolocated lat/lng, the form's title, description and type, and the summary text. Its `image_url` is null exactly when no image was attached, and otherwise is the public URL of the uploaded path |
| `ReportPage.InsertOnlyWhenUnblocked` | incepta/app/report/page.tsx:34-70 | a submit stopped by the guard, a missing field, geolocation, the upload or a rejected `summarize` inserts nothing and does not navigate; unless `summarize` rejected, it also asks for no summary |
| `ReportPage.NavigatesExactlyOnSuccess` | incepta/app/report/page.tsx:94-102 | the page navigates to `/` exactly when the fields are filled in and every step, insert included, succeeded |
| `ReportPage.SummaryFailureStillStores` | incepta/app/report/page.tsx:79-92 | a failing summariser does not block the report: the row is inserted with the fallback summary and the flag stays set |
| `ReportPage.ReportForm.constructor` | incepta/app/report/page.tsx:24-30 | the page starts with empty text fields, no image, type `phishing`, and `submitting` false |
| `ReportPage.ReportForm.HandleChange` | incepta/app/report/page.tsx:113-116 | the form becomes `SetField` of the old form; the flag and the effects are unchanged; the form still holds only a validated image |
| `ReportPage.ReportForm.HandleImageChange` | incepta/app/report/page.tsx:118-138 | no file changes nothing; an accepted first file becomes the image; a too-large or non-image file leaves the form unchanged and raises its alert; so the form only ever holds an image that passed both checks |
| `ReportPage.ReportForm.HandleSubmit` | incepta/app/report/page.tsx:32-110 | the new flag and the appended effects are exactly those `Submit` gives for the old form, flag and outside world; the form is unchanged; every file among those effects passed the image validator |
| `ReportPage.ReportForm.OnPosition` | incepta/app/report/page.tsx:46-103 | the success callback appends exactly `OnLocated`'s effects and clears the flag exactly when it reports a failure, leaving it unchanged otherwise |
| `ProfileCard.CalculateCoins` | incepta/app/components/userProfileCard.tsx:14-18 | for a non-negative count the reward is non-negative, is zero iff the count is zero, and lies between 10 and 20 coins per report |
| `ProfileCard.CoinTiers` | incepta/app/components/userProfileCard.tsx:14-18 | 10 per report up to 5 reports, 15 per report from 6 to 15, 20 per report above 15 |
| `ProfileCard.CoinsStep` | incepta/app/components/userProfileCard.tsx:14-18 | one more report never lowers the reward; the jumps at the tier boundaries are 50 to 90 and 225 to 320 |
| `ProfileCard.CoinsMonotone` | incepta/app/components/userProfileCard.tsx:14-18 | the reward is monotone non-decreasing in the report count |
| `ProfileCard.Limit` | incepta/app/components/userProfileCard.tsx:33-34 | `.limit(n)` keeps a prefix of the ordered rows with at most `n` rows, all of them when there are no more than `n` |
| `ProfileCard.NoUserId` | incepta/app/components/userProfileCard.tsx:27 | `!user?.id`: no user or an empty id; `ProfileCard.Fetched` states that the reports then stay unchanged |
| `ProfileCard.Fetched` | incepta/app/components/userProfileCard.tsx:26-42 | with no user id or a failed query the reports are unchanged, otherwise they are the limited rows |
| `ProfileCard.FetchedCoinsBounded` | incepta/app/components/userProfileCard.tsx:29-48 | a successful fetch yields at most 5 reports, so the coins shown are at most 50 |
| `ProfileCard.Panel.constructor` | incepta/app/components/userProfileCard.tsx:22-23 | the panel starts closed with no reports |
| `ProfileCard.Panel.TotalReports` | incepta/app/components/userProfileCard.tsx:47 | the report count is the length of the held list, at most 5 |
| `ProfileCard.Panel.Coins` | incepta/app/components/userProfileCard.tsx:47-48 | the coins shown are between 0 and 50, and are zero iff no reports are held |
| `ProfileCard.Panel.Toggle` | incepta/app/components/userProfileCard.tsx:53 | the profile button flips `open` and keeps the reports |
| `ProfileCard.Panel.Close` | incepta/app/components/userProfileCard.tsx:64 | the close button clears `open` and keeps the reports |
| `ProfileCard.Panel.FetchReports` | incepta/app/components/userProfileCard.tsx:26-42 | the held reports become `Fetched` of the old ones, which keeps them unchanged on a missing user id or a query error; `open` is unchanged and the 5-row bound is kept |
| `ProfileCard.Panel.OnOpenOrUserChange` | incepta/app/components/userProfileCard.tsx:25-45 | the effect fetches only while the panel is open; otherwise the reports are unchanged |

## Left out

- Async interleaving is not modelled. Each handler runs to completion in sequence. React's closure semantics are also out: a second click before the page re-renders still sees the old `submitting`. The model reads the flag's current value.
- The image preview (`FileReader`, `imagePreview`), `handleImageClick`, all markup and styling, and `console` logging are presentation only.
- `alert` calls are recorded as `Alert` effects with their exact messages. They have no other behaviour.
- Geolocation error codes are collapsed into one failure, because the controller treats them all alike.
- Coordinates are `real` values passed through unchanged. Floating-point behaviour is not modelled.
- `Date.now()` is a non-negative integer. `UploadPath` writes it as plain decimal digits, which is what JavaScript prints for integers below 10^21.
- `getPublicUrl` is a function parameter of `Env`. Its URL format belongs to the storage service. The optional chain `publicUrlData?.publicUrl` is taken to always yield that URL.
- `summarize`: the case where the model call succeeds with an undefined `response.text` is not modelled.
- ReportPage.SetField: only the three inputs wired to `handleChange` (title, scamType, description) are modelled. A call with any other `name` would add an unrelated key to the form.
- ProfileCard.CalculateCoins: only integer counts are modelled. JavaScript's `number` also admits fractions, but the component only passes an array length.
- The panel assumes the `scams` rows carry their submitter's id. The query filters on `user_id` (incepta/app/components/userProfileCard.tsx:32), but the form's insert (incepta/app/report/page.tsx:81-92) writes no `user_id`. Unless the database fills it in, the panel finds no reports and shows 0 coins. `FetchReply.Rows` is taken as given.
- The query's filter by `user_id` and its ordering by timestamp happen in the database. `FetchReply.Rows` holds the user's rows already in that order, and the model applies only `.limit(5)`.
- `incepta/app/page.tsx`, `incepta/app/components/map.tsx` and `incepta/app/map/page.tsx` are not part of this model. They hold the landing page, the map SDK wrapper and the session redirect.
- Vote counting, the per-coordinate detail panel and realtime refresh are not part of this model. None of them appears in the modelled files.
