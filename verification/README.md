# Simple ToDo List page — a Dafny model

The modelled system is a single-page to-do list (`app/page.tsx`). Its rows live in
a hosted `todos` table: id, content, done flag, creation time, and an optional
due date, category and tag list. The page:

- lists the rows five at a time, newest first, narrowed by a search panel
  (content, due date, category, tag, completion);
- adds rows from an add panel whose free tag text is split into a tag list;
- toggles, deletes and edits rows in place, with the edit inputs pre-filled
  from the row;
- hides completed rows on the client unless "Show Completed" is ticked.

The model keeps the page's own logic and leaves the hosted table outside. Each
handler receives the table's answer as a parameter and returns the request it
would send, so the query and the insert, update and delete payloads are plain
data.

| file | module | what it holds |
|---|---|---|
| `wrappers.dfy` | `Wrappers` | `Option` |
| `text.dfy` | `Text` | JavaScript's whitespace class, `trim()` and the blank test |
| `tags.dfy` | `Tags` | `split(/[,、\s]+/).map(trim).filter(Boolean)` and `join(' ')` |
| `pagination.dfy` | `Pagination` | page size 5, a page's inclusive row range, page count, Prev/Next clamps |
| `query.dfy` | `QueryBuilder` | the list query as data, its step-by-step construction, and the function that specifies it |
| `records.dfy` | `Records` | the row, the form drafts, the write payloads and the edit pre-fill |
| `todo_page.dfy` | `TodoPage` | the display filter and class `Home`, which holds the component's state and handlers |

The component's `useState` variables become the fields of `Home`. The four
add-panel inputs are one `Draft` field, and so are the four edit inputs.
The five search inputs are one `Criteria` field. Every handler that changes
state is a method with a `modifies` clause. Each such method states the whole
new state and keeps `Valid()`: the page number is at least 1, and the edit
inputs are empty while no row is being edited.

## Model

| member | source | states |
|---|---|---|
| `Text.TrimStartDropsWhitespace` | app/page.tsx:97 | the leading half of `trim()` returns a suffix that does not start with whitespace, and it drops only whitespace |
| `Text.TrimEndDropsWhitespace` | app/page.tsx:97 | the trailing half of `trim()` returns a prefix that does not end with whitespace, and it drops only whitespace |
| `Text.TrimIsSlice` | app/page.tsx:97 | `trim()` returns a contiguous slice of its input with non-whitespace ends, and everything outside the slice is whitespace |
| `Text.BlankIffAllWhitespace` | app/page.tsx:93 | `!s.trim()` holds exactly when every character is whitespace |
| `Text.TrimNoWhitespace` | app/page.tsx:97 | trimming a piece without whitespace leaves it unchanged |
| `Text.Trim` | app/page.tsx:97 | `s.trim()`; its contract is held by `TrimStartDropsWhitespace`, `TrimEndDropsWhitespace` and `TrimIsSlice` |
| `Text.IsBlank` | app/page.tsx:48-57 | `s.trim() === ''` (and `!newTodo.trim()` at line 93); its contract is held by `BlankIffAllWhitespace` |
| `Tags.SplitRuns` | app/page.tsx:96 | the split always yields at least one piece, and a leading separator run yields an empty first piece |
| `Tags.SplitTrailingSeparator` | app/page.tsx:96 | a trailing separator run yields an empty last piece, after at least one other piece |
| `Tags.SplitPiecesAreSeparatorFree` | app/page.tsx:96 | no piece of the split contains a comma, `、` or whitespace |
| `Tags.TrimEachSeparatorFree` | app/page.tsx:97 | trimming leaves separator-free pieces unchanged |
| `Tags.DropEmptyKeepsSeparatorFree` | app/page.tsx:98 | dropping empty pieces keeps the others separator-free and leaves no empty piece |
| `Tags.TrimEach` | app/page.tsx:97 | `.map((tag) => tag.trim())`; on split pieces it is the identity, see `TrimEachSeparatorFree` |
| `Tags.DropEmpty` | app/page.tsx:98 | `.filter(Boolean)` on strings; the result is never longer than its input, and `DropEmptyKeepsSeparatorFree` and `DropEmptyAppend` hold the rest of its contract |
| `Tags.ParseTags` | app/page.tsx:95-98 | the whole `split/map/filter` chain, also at lines 135-138; its contract is held by `ParseTagsYieldsTags`, `ParseWord`, `ParseSplitsAtSeparator`, `ParseLeadingSeparator` and `ParseKeepsText` |
| `Tags.JoinWithSpace` | app/page.tsx:361 | `tags.join(' ')`; `ParseJoinRoundTrip` states its round trip with `ParseTags` |
| `Tags.ParseTagsYieldsTags` | app/page.tsx:95-98 | every parsed tag is non-empty and contains no comma, `、` or whitespace |
| `Tags.ParseTagsDropsEmptyPieces` | app/page.tsx:95-98 | the trim step is a no-op, so parsing keeps exactly the non-empty pieces of the split |
| `Tags.ParseWord` | app/page.tsx:95-98 | a text without separators parses to itself alone, or to nothing when empty |
| `Tags.ParseSplitsAtSeparator` | app/page.tsx:95-98 | parsing `a + sep + b` gives the tags of `a` followed by those of `b`, so tags keep their input order and duplicates |
| `Tags.ParseLeadingSeparator` | app/page.tsx:95-98 | a leading separator contributes no tag |
| `Tags.ParseKeepsText` | app/page.tsx:95-98 | the parsed tags, concatenated, are the input with every separator removed |
| `Tags.ParseJoinRoundTrip` | app/page.tsx:135-138 | for tags that are non-empty and separator-free, parsing `tags.join(' ')` returns the same list |
| `Tags.ParseIsIdempotent` | app/page.tsx:135-138 | joining parsed tags with spaces and parsing again returns the same tags |
| `Tags.ParseExample` | app/page.tsx:95-98 | `"a, b　c,,d"` parses to `[a, b, c, d]` for any four tags |
| `Tags.SeparatorFreePrefix` | app/page.tsx:96 | the length of the longest separator-free prefix; it is followed by a separator or by the end |
| `Pagination.PageRange` | app/page.tsx:69-70 | every page covers exactly five rows, page 1 starts at row 0, and page `p` starts at row `5(p-1)` |
| `Pagination.PagesAreContiguous` | app/page.tsx:69-70 | the next page starts right after this page's last row |
| `Pagination.PagesAreDisjoint` | app/page.tsx:69-70 | two different pages share no row |
| `Pagination.EveryRowHasAPage` | app/page.tsx:69-70 | every row index lies on page `i/5 + 1` |
| `Pagination.TotalPages` | app/page.tsx:160 | at least one page; the pages hold every row; with rows present the last page is not empty; no rows gives one page |
| `Pagination.LastPageHoldsRows` | app/page.tsx:160 | the last page starts below the row count, and every row lies on a page from 1 to the page count |
| `Pagination.TwelveRowsExample` | app/page.tsx:69-70 | 12 rows give 3 pages; page 3 requests rows 10..14, of which 10 and 11 exist |
| `Pagination.PrevPage` | app/page.tsx:276 | Prev steps back one page and never goes below 1 |
| `Pagination.NextPage` | app/page.tsx:283 | Next steps forward one page and never goes past the page count |
| `Pagination.PrevNextStayInBounds` | app/page.tsx:276-283 | from a page in `[1, totalPages]`, Prev and Next stay in that interval |
| `Pagination.NextPullsBackPastTheEnd` | app/page.tsx:283 | from a page past the end, Next moves back to the last page |
| `QueryBuilder.ClausesAreSeparate` | app/page.tsx:48-64 | each criterion's clause filters only its own column, and holds one filter exactly when the criterion is set |
| `QueryBuilder.ComposeQuery` | app/page.tsx:45-71 | the query in closed form; its contract is held by `ComposeQueryShape`, `TextFiltersIffNotBlank`, `ExactFiltersIffSet` and `OneFilterPerCriterion`, and `BuildQuery` is proved equal to it |
| `QueryBuilder.ComposeQueryShape` | app/page.tsx:45-71 | the query selects from `todos` with an exact count, orders by `created_at` descending, and asks for the page's row range |
| `QueryBuilder.TextFiltersIffNotBlank` | app/page.tsx:48-59 | content, category and tag filters are present exactly when the criterion is not blank after trimming |
| `QueryBuilder.ExactFiltersIffSet` | app/page.tsx:51-64 | the due-date filter is present exactly when the date is not `''`; `done = true` exactly for `done`, `done = false` exactly for `notDone`, none for `all` |
| `QueryBuilder.OneFilterPerCriterion` | app/page.tsx:48-64 | the query holds one filter per set criterion and no other |
| `QueryBuilder.BuildQuery` | app/page.tsx:45-71 | reassigning the query step by step yields the composed query |
| `QueryBuilder.NoFiltersIffUnfiltered` | app/page.tsx:48-64 | the filter list is empty exactly when no criterion is set |
| `QueryBuilder.InitialQuery` | app/page.tsx:45-71 | with the initial search values the query has no filter, is ordered newest first, and asks for rows 0..4 |
| `Records.NewRowFor` | app/page.tsx:100-106 | the insert payload; its contract is held by `NewRowPayload` and `NewRowIsInStoredForm` |
| `Records.NewRowPayload` | app/page.tsx:100-106 | the insert keeps the content, is not done, and is null exactly where the date, the category or the parsed tag list is empty |
| `Records.ChangesFor` | app/page.tsx:142-147 | the update payload; its contract is held by `ChangesMatchNewRow` and `ChangesAreInStoredForm` |
| `Records.ChangesMatchNewRow` | app/page.tsx:140-147 | the update payload carries the same fields as the insert payload for the same inputs, without `done` |
| `Records.ToggleWrite` | app/page.tsx:124 | the toggle writes the negation of the row's `done` to that row |
| `Records.ToggleTwiceRestores` | app/page.tsx:124 | toggling twice restores the original `done` |
| `Records.NewRowIsInStoredForm` | app/page.tsx:100-106 | an inserted row has no `''` date or category, and its tag list is null or a non-empty list of well-formed tags |
| `Records.ChangesAreInStoredForm` | app/page.tsx:140-147 | an update has the same form |
| `Records.PrefillTags` | app/page.tsx:361 | `todo.tags?.join(' ')`, with `''` for a null list; `TagsRoundTrip` states its round trip with parsing |
| `Records.Prefill` | app/page.tsx:357-361 | the edit pre-fill; `TextRoundTrip`, `TagsRoundTrip` and `UnchangedEditKeepsRecord` state its round trip with `ChangesFor` |
| `Records.TextRoundTrip` | app/page.tsx:359-360 | a nullable text survives pre-fill and save, except that `''` comes back as null |
| `Records.TagsRoundTrip` | app/page.tsx:361 | a well-formed tag list survives pre-fill and save; null or an empty list comes back as null |
| `Records.UnchangedEditKeepsRecord` | app/page.tsx:357-361 | opening the edit form on a row in stored form and saving without typing sends back exactly the row's fields |
| `TodoPage.DisplayList` | app/page.tsx:293-294 | with "Show Completed" ticked the list is shown unchanged, and it never grows |
| `TodoPage.DisplayListKeepsOpenItems` | app/page.tsx:293-294 | with completed rows hidden, the list shown is a subsequence that keeps each open row as often as it occurs and no done row |
| `TodoPage.OpenItemsShown` | app/page.tsx:293-294 | with completed rows hidden, a row is shown exactly when it is in the list and not done |
| `TodoPage.PaddedTagSearchEqualsNoStoredTag` | app/page.tsx:57-58 | a tag search containing whitespace passes the blank check and adds its filter, yet equals no tag of a row in stored form |
| `TodoPage.Home.constructor` | app/page.tsx:17-42 | the initial state: no rows, empty inputs, no row being edited, initial search values, panels hidden, page 1, count 0 |
| `TodoPage.Home.FetchTodos` | app/page.tsx:44-80 | issues the composed query for the current criteria and page, whose row range starts at row 0 or later; on success stores the rows and the count (null as 0); on error changes nothing |
| `TodoPage.Home.SetSearch` | app/page.tsx:83-85 | a change of the search values returns to page 1 and asks for a refetch; an unchanged value does neither |
| `TodoPage.Home.ClearFilters` | app/page.tsx:247-252 | resets every criterion and the page to 1 |
| `TodoPage.Home.Prev` | app/page.tsx:276-277 | the page becomes `PrevPage(page)`; on page 1 nothing changes |
| `TodoPage.Home.Next` | app/page.tsx:283-284 | the page becomes `NextPage(page, totalPages)`; on the last page nothing changes |
| `TodoPage.Home.SetShowAll` | app/page.tsx:268 | sets the checkbox and nothing else |
| `TodoPage.Home.Shown` | app/page.tsx:293-294 | the rows rendered: all rows when ticked, otherwise exactly the rows not done |
| `TodoPage.Home.ToggleAddForm` | app/page.tsx:167 | flips the add panel and nothing else |
| `TodoPage.Home.ToggleSearchForm` | app/page.tsx:170 | flips the search panel and nothing else |
| `TodoPage.Home.SetNewDraft` | app/page.tsx:177-200 | typing in the add panel replaces its inputs and nothing else |
| `TodoPage.Home.AddTodo` | app/page.tsx:92-119 | blank content: no insert and no change. Otherwise the insert built from the inputs; on success inputs cleared, panel hidden, page 1, refetch; on error no change |
| `TodoPage.Home.ToggleDone` | app/page.tsx:121-127 | writes `!done` to the given row and refetches on success; page state is untouched |
| `TodoPage.Home.DeleteTodo` | app/page.tsx:129-132 | deletes the given row and refetches on success; page state is untouched |
| `TodoPage.Home.BeginEdit` | app/page.tsx:356-362 | starts editing the row, with the inputs pre-filled from its fields |
| `TodoPage.Home.SetEditDraft` | app/page.tsx:308-329 | typing in the edit inputs of the row being edited replaces them and nothing else |
| `TodoPage.Home.UpdateTodo` | app/page.tsx:134-157 | sends the edit inputs as the row's new fields; on success editing ends with the inputs cleared and a refetch; on error no change |

## Left out

- The hosted table is not part of this model: it runs the select, insert, update and delete requests. Each request is returned as data and its answer is a method parameter. Case-insensitive `%…%` matching, array containment and date formats are interpreted by the table and are not modelled.
- The reactive wiring of the two effects at app/page.tsx:83-90. Re-rendering, dependency tracking and asynchronous fetches that overlap are not modelled. When a criterion changes, page 1 is fetched; but a fetch for the old page can also be in flight, and its answer may land last. Methods return `refetch` instead of calling `FetchTodos`, which a caller applies with the next answer.
- `TodoPage.Home.AddTodo`: a successful add calls `fetchTodos` from a closure that still sees the old page, and the page-1 fetch comes from the effect. The model only reports that a refetch is due.
- `console.error` logging, the JSX markup and styling, and the `disabled` flags on Prev and Next. Pressing a disabled button changes nothing either way, as the `Prev` and `Next` ensures show.
- The tag display `tags.join(', ')` and the `Cofferdam:` / `Category:` labels at app/page.tsx:339-341 are rendering only.
- `TodoPage.Home.UpdateTodo`: the source has no blank-content check on save, unlike `addTodo`. The model sends the content as typed, as the code does.
- Page numbers: the range expression has no clamp for page 0 or below, and page 3 of 12 rows requests rows 10..14 (the table returns the two rows that exist). The model follows the code and adds no clamp.
- Integers are unbounded. The page and the count stay far below JavaScript's safe-integer limit in practice.

