# SocialSync Pro: bulk scheduling, post filtering and connection settings

This project models the parts of the SocialSync Pro dashboard that hold
logic, and proves properties of that model in Dafny. The rest of the
dashboard is presentational.

- **Bulk upload** (`BulkUpload`, `bulk_upload.dfy`). A mock file loader
  fills the item list with 100 pending rows. The schedule settings are a
  start date, a posts-per-day count chosen from 1 to 4, and a list of time
  slots. The slots are edited as one text field, rendered with
  `join(', ')` and read back with `split(', ')`. "Generate Schedule" stamps
  item `i` with:
  - day `start + floor(i / postsPerDay)`;
  - time slot `i mod postsPerDay`, or `10:00` when that slot is missing
    or empty;
  - status `scheduled`.

  The component's state is the class `BulkUploadPanel`. The scheduling
  itself is the function `Schedule`. It is proved equal to an independent
  day-by-day cursor walk (`Walk`).
- **Scheduled posts** (`ScheduledPosts`, `scheduled_posts.dfy`). A constant
  list of four mock posts. A status filter with an `all` wildcard. A badge
  colour for every status string. The action buttons shown for each
  status. The empty-state message.
- **Settings** (`SettingsTab`, `settings_tab.dfy`). A key/value record of
  settings, edited one key at a time. A connection status for each of six
  platforms, which the "Test Connection" button moves from idle to testing
  and then to success or error. The icon and label shown for each status.
  The component's state is the class `SettingsPanel`.

Modelling choices:

- Calendar dates are integer day numbers. The date input's text is
  modelled as `Option<int>`, where `None` is the empty or unparseable input
  (JavaScript turns it into an invalid `Date`). The ISO date text that
  `toISOString().split('T')[0]` produces is modelled as the day number itself.
- `generateSchedule` fails only when the start date is invalid and there is
  at least one row. With no rows, the `map` callback never runs, so
  `toISOString` is never reached and the (empty) list is stored. When it
  fails, the exception leaves the rows as they were.
- The code has no weekend skipping, does not cycle slots by the length of
  the slot list, and has no configuration-error check. The model follows the
  code and has none of these.
- The connection test has two steps: `BeginTest` (the status becomes
  `testing`) and `FinishTest` (the status becomes the outcome). Other tests
  may run between the two steps, as they can during the `await`. The fetch
  to the text-generation server is a parameter (`ProbeOutcome`). An
  exception escaping the outer `try` is a boolean parameter. The two-second
  delay is dropped.

## Model

| member | source | states |
|---|---|---|
| BulkUpload.MockDataShape | src/components/upload/BulkUpload.tsx:22-29 | the mock loader yields exactly 100 rows; row i has id i+1, status "pending", and no date or time |
| BulkUpload.MockIdsDistinct | src/components/upload/BulkUpload.tsx:22-23 | no two mock rows share an id |
| BulkUpload.BulkUploadPanel.constructor | src/components/upload/BulkUpload.tsx:9-15 | starts with no file, no rows, no start date, 3 posts a day and the slots 10:00, 14:00, 18:00 |
| BulkUpload.BulkUploadPanel.HandleFileUpload | src/components/upload/BulkUpload.tsx:17-32 | choosing a file records it and replaces the rows with the 100 mock rows; with no file nothing changes |
| BulkUpload.BulkUploadPanel.SetStartDate | src/components/upload/BulkUpload.tsx:117-121 | the start date becomes the input's value; nothing else changes |
| BulkUpload.BulkUploadPanel.SetPostsPerDay | src/components/upload/BulkUpload.tsx:127-136 | posts per day becomes the selected option, one of 1 to 4 |
| BulkUpload.BulkUploadPanel.SetTimeSlotsText | src/components/upload/BulkUpload.tsx:141-147 | the slots become the split of the typed text; the field then shows exactly that text; the slot list stays non-empty |
| BulkUpload.BulkUploadPanel.GenerateSchedule | src/components/upload/BulkUpload.tsx:34-51 | succeeds exactly when the start date is valid or there are no rows; on success the rows become the schedule of the old rows; otherwise they are unchanged |
| BulkUpload.ScheduleKeepsItems | src/components/upload/BulkUpload.tsx:36-47 | the schedule has the same length and order as the input; id, title, description and tags are unchanged; every item is "scheduled" with a date and a time |
| BulkUpload.ScheduleDate | src/components/upload/BulkUpload.tsx:37-44 | item i is dated start + floor(i / postsPerDay), never before the start date |
| BulkUpload.ScheduleTime | src/components/upload/BulkUpload.tsx:38-45 | item i gets slot i mod postsPerDay when that slot exists and is non-empty, and 10:00 in exactly the other cases |
| BulkUpload.ScheduleDatesMonotone | src/components/upload/BulkUpload.tsx:37-44 | dates never decrease along the list |
| BulkUpload.ScheduleDayCapacity | src/components/upload/BulkUpload.tsx:37-44 | at most postsPerDay items share any one date |
| BulkUpload.ScheduleIdempotent | src/components/upload/BulkUpload.tsx:36-50 | scheduling an already scheduled list again with the same settings gives the same list |
| BulkUpload.ScheduleIsCursorWalk | src/components/upload/BulkUpload.tsx:36-48 | the per-index formula equals a walk that fills each day with postsPerDay items in slot order and then moves to the next day |
| BulkUpload.ScheduleSevenItems | src/components/upload/BulkUpload.tsx:36-48 | seven items at three a day with slots 10:00, 14:00, 18:00 fill two full days and put the seventh item on the third day at 10:00 |
| BulkUpload.ScheduleEmptySlots | src/components/upload/BulkUpload.tsx:45 | with no slots at all, every item gets 10:00 |
| BulkUpload.JoinSplit | src/components/upload/BulkUpload.tsx:143-144 | splitting any text at ", " and joining it again gives back the same text |
| BulkUpload.SplitJoin | src/components/upload/BulkUpload.tsx:143-144 | joining a non-empty slot list with ", " and splitting again gives back the list, provided no slot contains ", " |
| ScheduledPosts.FilterAllKeepsEverything | src/components/schedule/ScheduledPosts.tsx:61-63 | with filter "all" the filtered list is the whole list in the same order |
| ScheduledPosts.FilterByStatus | src/components/schedule/ScheduledPosts.tsx:61-63 | with any other filter, every returned post has that status and every post with that status is returned |
| ScheduledPosts.FilterIsSubsequence | src/components/schedule/ScheduledPosts.tsx:61-63 | the filtered list is an order-preserving subsequence of the full list |
| ScheduledPosts.EmptyStateIff | src/components/schedule/ScheduledPosts.tsx:161-167 | the empty-state message shows exactly when no post has the chosen status, and under "all" only when there are no posts |
| ScheduledPosts.MockFilters | src/components/schedule/ScheduledPosts.tsx:12-63 | on the mock posts, "failed" shows the empty state, "scheduled" shows posts 1, 2 and 4, "publishing" shows post 3, and "all" shows all four |
| ScheduledPosts.StatusColorCases | src/components/schedule/ScheduledPosts.tsx:51-59 | blue exactly for scheduled, green exactly for publishing, red exactly for failed, and grey for every other string, published included |
| ScheduledPosts.ActionsByStatus | src/components/schedule/ScheduledPosts.tsx:136-156 | Play appears exactly for scheduled posts and Pause exactly for publishing ones, never both; view, edit and delete always appear |
| SettingsTab.InitialConnectionStatusShape | src/components/tabs/SettingsTab.tsx:49-56 | the initial status has exactly the six platforms youtube, facebook, instagram, pinterest, wordpress and ollama, all idle |
| SettingsTab.WithSetting | src/components/tabs/SettingsTab.tsx:58-60 | the changed key holds the new value; every other key keeps its value; no key is lost |
| SettingsTab.SettingsPanel.constructor | src/components/tabs/SettingsTab.tsx:5-56 | starts with the default settings record and every platform idle |
| SettingsTab.SettingsPanel.HandleSettingChange | src/components/tabs/SettingsTab.tsx:58-60 | only the given key of the settings changes, to the given value |
| SettingsTab.SettingsPanel.BeginTest | src/components/tabs/SettingsTab.tsx:62-63 | the tested platform becomes "testing"; every other platform keeps its status |
| SettingsTab.SettingsPanel.FinishTest | src/components/tabs/SettingsTab.tsx:65-109 | the tested platform ends "success", or "error" exactly when an exception escaped the outer try; no other platform changes |
| SettingsTab.TestResultCases | src/components/tabs/SettingsTab.tsx:65-109 | a completed test is "success" on every platform, including ollama when its fetch is not ok or throws; "error" exactly when an exception escaped |
| SettingsTab.SettingsPanel.ClickTestButton | src/components/tabs/SettingsTab.tsx:250-256 | a test starts exactly when the platform is not already "testing"; a click on a disabled button changes nothing |
| SettingsTab.ConnectionIconCases | src/components/tabs/SettingsTab.tsx:112-123 | no icon exactly for idle or a missing status; testing, success and error each have their own icon |
| SettingsTab.StatusLabelCases | src/components/tabs/SettingsTab.tsx:410 | the overview label reads "Not tested" exactly for idle and the status name otherwise; different statuses get different labels |

## Left out

- All JSX markup, Tailwind classes other than the status badge colours, and icons beyond which icon a status gets. These are presentational.
- The fetch call of the connection test and the rewrite request of the text editor are network I/O. The test's fetch is reduced to its outcome (ok, not ok, or thrown).
- The two-second `setTimeout` is timing, not logic. The async interleaving is covered only by splitting the test into `BeginTest` and `FinishTest`.
- `downloadTemplate` builds a Blob, an object URL and a clicked anchor. These are browser effects with no logic to state.
- JavaScript `Date` time zones and daylight saving, and the ISO date text. Dates are day numbers, and date-text parsing is abstracted to `Option<int>`.
- The file object: a chosen file is only its name, and its contents are never read (the loader is a mock).
- The item preview's first-ten slice, the "Showing 10 of N" note and the status-label colours of the overview. These are display only.
- The order in which the overview lists the platforms (`Object.entries` insertion order). The status map is a Dafny `map`, which has no order.
- The scheduled-posts `filter` state itself. The select sets it to the chosen string, and the model takes the filter as a parameter.
- The landing page, the dashboard, the application shell, the platform tabs, the single-post and video upload forms and the text editor. These are tab switches and form field holders with no stated behaviour.
