# SpaceX launch dashboard — a Dafny model

This project models the logic of a small React dashboard that lists SpaceX
launches. The dashboard fetches the launch records once. A menu filters them to
upcoming launches, past launches or all launches. The result is cut into pages
of twelve and shown as a table with a pagination bar. The model covers:

- `Records` (`records.dfy`): the launch record reduced to what the logic reads
  (`upcoming` and the tri-state `launch_success`), the JavaScript truthiness and
  loose `== true` tests on that status, and the table rows that both launch
  tables build with `index + 1` numbering.
- `LaunchTable` (`launch_table.dfy`, for `src/LaunchTable.js`): status text and
  status colour, and the zero padding of `formatTime`.
- `Pagination` (`pagination.dfy`, for `src/Pagination.js`): the guarded
  previous/next handlers, the "current, next, `...`, last" page-link list, and a
  `Pager` class that records what the buttons pass to `onPageChange`.
- `Dashboard` (`dashboard.dfy`, for `src/Dashboard.js`): the category filter,
  the page count and the page slice (with `Array.prototype.slice` written out),
  the dashboard's own centred three-page window, its own status colour and
  text, what the component renders, and a `DashboardState` class holding the
  four `useState` cells (`launches`, `filter`, `loading`, `currentPage`) with one
  method per event.

Some behaviour of the code is easy to miss, and the model states it as written:

- Choosing a filter does not reset `currentPage` to 1 (`src/Dashboard.js:136-138`
  and `190`). A page past the new last page gives an empty slice. The dashboard
  then shows "No launches found." and no pagination bar, so the user cannot
  page back (`Dashboard.FilterChangeCanStrandPage`). In the state class the
  Previous, Next and page-number events require the table to be on screen,
  because their buttons belong to the pagination bar (`src/Dashboard.js:191-201`),
  and choosing a filter requires loading to have ended, because the menu is
  rendered only then (`src/Dashboard.js:178-188`).
- The page is never clamped. The slice is taken at `currentPage` as it stands.
- The dashboard uses its own centred three-page window (`src/Dashboard.js:232-250`).
  The compact "current, next, `...`, last" list exists only in `src/Pagination.js`,
  which `src/Dashboard.js` does not use.
- The colour functions compare with `== true` loosely. An unexpected status that
  is loosely equal to `true` (such as `1`) is therefore drawn green, not
  transparent. The model's `Status.Other` records that fact explicitly.
- The dashboard's own table shows `'Failed'` for a pending (`null`) launch. The
  stand-alone table shows `'Upcoming'` (`Dashboard.TableStatusDifferences`).

External inputs are parameters. The fetch outcome is an event: either
`FetchSucceeded(data)` or `FetchFailed()`. `formatTime` takes the hours and
minutes that `Date.getHours` and `Date.getMinutes` would return.

## Model

| member | source | states |
|---|---|---|
| `LaunchTable.StatusText` | src/LaunchTable.js:6-16 | `'Success'` exactly for `true`, `'Upcoming'` exactly for `null`, `'Failed'` exactly for `false`, `''` exactly for any other value |
| `LaunchTable.StatusColor` | src/LaunchTable.js:20-30 | `#FEF3C7` exactly for `null`, `#DEF7EC` exactly for values loosely equal to `true`, `#FDE2E1` exactly for `false`, `transparent` for every other value |
| `LaunchTable.KnownStatusesDistinguishable` | src/LaunchTable.js:6-30 | two different statuses among `true`/`false`/`null` get different texts and different colours; none gets an empty text or a transparent box |
| `Records.Rows` | src/LaunchTable.js:66-68 | one row per launch, in input order; row `i` is numbered `i + 1` and shows launch `i` with the status text and colour of the given table (the dashboard's table at src/Dashboard.js:90-102 is built the same way with its own two functions) |
| `LaunchTable.DecimalString` | src/LaunchTable.js:40-41 | `toString` of a non-negative integer (below 10^21, where JavaScript still writes plain digits) gives at least one decimal digit; exactly one for numbers below 10; no leading zero from 10 on |
| `LaunchTable.DecimalRoundTrip` | src/LaunchTable.js:40-41 | the digits that `toString` writes read back as the same number |
| `LaunchTable.PadStart` | src/LaunchTable.js:40-41 | `padStart` gives the longer of the string and the width, and every added character is the fill |
| `LaunchTable.PadStartEndsWithString` | src/LaunchTable.js:40-41 | the padded string ends with the original string: padding only adds characters in front |
| `LaunchTable.PadTwoDigits` | src/LaunchTable.js:40-41 | for a number below 100, `toString().padStart(2, '0')` is exactly its tens digit followed by its units digit |
| `LaunchTable.TwoDigitsRoundTrip` | src/LaunchTable.js:40-41 | those two padded digits read back as the number, so the leading zero loses nothing |
| `LaunchTable.PadStartKeepsDigits` | src/LaunchTable.js:40-41 | zero padding a string of digits gives a string of digits |
| `LaunchTable.FormatTime` | src/LaunchTable.js:38-43 | for any hours and minutes, `formatTime` is at least 5 characters long and holds only digits and `:` |
| `LaunchTable.FormatTimeShape` | src/LaunchTable.js:38-43 | for hours and minutes below 100 (so every clock time), `formatTime` is 5 characters long: the two padded digits of the hours, `:`, and the two padded digits of the minutes |
| `LaunchTable.FormatTimeRoundTrip` | src/LaunchTable.js:38-43 | the two fields of the `HH:MM` string read back as the hours and the minutes |
| `Pagination.PreviousTarget` | src/Pagination.js:6-10 | a page is emitted exactly when `currentPage > 1`; the page emitted is `currentPage - 1`, which is at least 1 |
| `Pagination.NextTarget` | src/Pagination.js:12-16 | a page is emitted exactly when `currentPage < totalPages`; the page emitted is `currentPage + 1`, which is at most `totalPages` |
| `Pagination.PageNumbers` | src/Pagination.js:22-44 | with at most 2 pages the list is `1..totalPages` (empty for 0 pages). Otherwise it has 2 to 4 entries. The first entry is `currentPage` and the last is `totalPages`. The next page is listed iff `currentPage < totalPages - 1`. There is exactly one `...`, second to last, iff `currentPage < totalPages - 2`. The whole list is fixed in each case: `[currentPage, currentPage + 1, ..., totalPages]` below `totalPages - 2`, `[currentPage, currentPage + 1, totalPages]` at `totalPages - 2`, and `[currentPage, totalPages]` from `totalPages - 1` on (pages past the last included), so `[totalPages, totalPages]` on the last page. For a page in range, every entry is in range. For `currentPage < totalPages` the numbers ascend. The first entry is highlighted (the `active` class test `Pagination.Active`, src/Pagination.js:56); a later entry is highlighted only on the last page (the duplicate) |
| `Pagination.Pager.constructor` | src/Pagination.js:5 | the pager holds its `currentPage` and `totalPages` props and has requested nothing yet |
| `Pagination.Pager.PreviousClick` | src/Pagination.js:6-10 | appends `currentPage - 1` to the requested pages when `currentPage > 1`; otherwise nothing is requested |
| `Pagination.Pager.NextClick` | src/Pagination.js:12-16 | appends `currentPage + 1` when `currentPage < totalPages`; otherwise nothing is requested |
| `Pagination.Pager.PageClick` | src/Pagination.js:18-20 | appends the clicked entry unchanged, including the `...` marker |
| `Dashboard.FilterLaunches` | src/Dashboard.js:155-163 | a launch is in the result iff it is in the input and passes the filter predicate `Dashboard.Keep`: `upcoming` for `'upcoming'`, not `upcoming` for `'past'`, always otherwise; the result is no longer than the input |
| `Dashboard.FilterIsSubsequence` | src/Dashboard.js:155-163 | the filtered list keeps the fetched order: it is a subsequence of the input |
| `Dashboard.FilterPartition` | src/Dashboard.js:155-163 | the `'upcoming'` and `'past'` results together hold every launch exactly once (equal multisets, and the counts add up to the total) |
| `Dashboard.FilterIdempotent` | src/Dashboard.js:155-163 | filtering twice with the same value gives the same list as filtering once |
| `Dashboard.FilterOtherKeepsAll` | src/Dashboard.js:160-162 | any value other than `'upcoming'` and `'past'` (such as `'all'`) returns the list unchanged |
| `Dashboard.PageCount` | src/Dashboard.js:167-168 | `totalPages` is the ceiling of length / 12: it is 0 exactly for an empty list, and `(totalPages - 1) * 12 < length <= totalPages * 12` |
| `Dashboard.SliceIndex` | src/Dashboard.js:171 | a slice bound lands in `0..length`; a non-negative bound is clamped to the length, and a negative one counts back from the end, clamped at 0 |
| `Dashboard.PageItems` | src/Dashboard.js:169-171 | for page `p >= 1`, `currentItems` (`Dashboard.JsSlice`, the `slice` call) is `filtered[min((p-1)*12, n) .. min(p*12, n)]` and holds at most 12 launches; it is empty exactly when `p > totalPages` |
| `Dashboard.PagesUpToIsPrefix` | src/Dashboard.js:167-171 | pages 1 to `k` put together are the first `min(12k, n)` launches |
| `Dashboard.PagesTile` | src/Dashboard.js:167-171 | pages 1 to `totalPages` put together are exactly the filtered list; every page before the last has 12 launches; the last has 1 to 12 |
| `Dashboard.Window` | src/Dashboard.js:232-250 | the window in closed form: `1..totalPages` for at most 3 pages; otherwise `[1, 2, 3]` on page 1, the last three pages on the last page, and `[currentPage - 1, currentPage, currentPage + 1]` elsewhere; its length is `min(totalPages, 3)` (0 for no pages) |
| `Dashboard.PageNumbers` | src/Dashboard.js:232-250 | the loop and the three pushes return exactly `Window(currentPage, totalPages)`. With at most 3 pages, the list is `1..totalPages`. Otherwise it is three consecutive ascending pages. For a current page in range, those pages contain it and lie within `1..totalPages`; strictly inside the range the current page is in the middle. Every entry is within two of the current page |
| `Dashboard.StatusColor` | src/Dashboard.js:49-59 | `yellow` exactly for `null`; `#DEF7EC` exactly for values loosely equal to `true`; `#FDE2E1` exactly for `false`; `transparent` otherwise |
| `Dashboard.StatusText` | src/Dashboard.js:102 | `'Success'` exactly for truthy statuses and `'Failed'` for all others, `null` included |
| `Dashboard.TableStatusDifferences` | src/Dashboard.js:49-59 | the dashboard's colour matches the launch table's for every status except `null`, and its text matches for `true` and `false`; `null` gives `'Failed'` here but `'Upcoming'` in the launch table, and every other value gets a different text in the two tables |
| `Dashboard.View` | src/Dashboard.js:179-210 | the loading message exactly while loading; after loading, "No launches found." exactly when `currentItems` is empty; otherwise the table has one row per launch of `currentItems`, each row's status box shows the dashboard's own `StatusText` and `StatusColor` of its launch (src/Dashboard.js:90-102), and the pagination bar gets `currentPage` and `totalPages` |
| `Dashboard.ViewCases` | src/Dashboard.js:179-206 | for `currentPage >= 1` the loading message is shown iff loading. After loading, "No launches found." is shown iff `currentPage > totalPages`. Otherwise the table shows 1 to 12 rows numbered from 1 again; row `i` is filtered launch `(currentPage - 1) * 12 + i`, drawn with the dashboard's status text and colour, so a pending launch appears as `'Failed'` on yellow |
| `Dashboard.FilterChangeCanStrandPage` | src/Dashboard.js:190-206 | 12 past launches and 1 upcoming one: page 2 of `'all'` is a table; page 2 of `'past'` is "No launches found."; page 1 of `'past'` is a table |
| `Dashboard.DashboardState.constructor` | src/Dashboard.js:135-138 | starts with no launches, filter `'all'`, loading, page 1; it renders the loading message |
| `Dashboard.DashboardState.FetchSucceeded` | src/Dashboard.js:144-147 | stores the fetched launches and stops loading; filter and page are unchanged |
| `Dashboard.DashboardState.FetchFailed` | src/Dashboard.js:148-151 | stops loading with the launch list still empty, so "No launches found." is shown |
| `Dashboard.DashboardState.SelectFilter` | src/Dashboard.js:116-118 | available once loading has ended (the menu is rendered only then); sets the filter and leaves `currentPage` (and everything else) unchanged |
| `Dashboard.DashboardState.PreviousClick` | src/Dashboard.js:216-220 | available only while the table and its bar are shown; decrements the page only when it is above 1; the new page is within `1..totalPages` and the table is still shown |
| `Dashboard.DashboardState.NextClick` | src/Dashboard.js:222-226 | available only while the table and its bar are shown; increments the page only when it is below `totalPages`; the new page is within `1..totalPages` and the table is still shown |
| `Dashboard.DashboardState.ClickPageButton` | src/Dashboard.js:228-266 | clicking button `k` sets the page to entry `k` of `Window(old page, totalPages)`; that page is within `1..totalPages` and at most two away from the previous page, and the table stays visible |

## Left out

- Network I/O: the `fetch`, `response.json()` and `useEffect` at `src/Dashboard.js:140-152`, and the `console.error` log of a failed fetch at `src/Dashboard.js:149`. The fetch has two outcomes, modelled as events: success with data, or failure. A response that parses but is not an array is not modelled; in the code it would make `launches.filter` throw.
- React's rendering, batching and asynchronous `setState`. Each event is modelled as an atomic state update. The model leaves out JSX markup, CSS classes, `react-icons`, and the `disabled` attributes of the Previous/Next buttons; the handlers' own guards make those attributes redundant.
- `LaunchItem` and its modal toggle (`src/Dashboard.js:7-41`), `src/Modal.js` (a portal into a DOM node) and `src/Loading.js` (a static placeholder table). These are presentation with no logic.
- `formatDate` and the `Date` parsing inside `formatTime`. They depend on locale and time zone. Only the padding of the hours and minutes is modelled.
- All launch fields that are only displayed, including `rocket.second_stage.payloads[0].orbit`. The code assumes a first payload exists.
- `Records.Status`: the model does not enforce that an `Other` value loosely equal to `true` is also truthy. That is true of every JavaScript value, but no property here needs it.
- `Pagination.Pager`: the parent of `src/Pagination.js` is not one of the modelled files, so what `onPageChange` does with a page is unknown. The pager records the requested entries instead of updating a page.
