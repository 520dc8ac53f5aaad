# vibedevs prompt gallery — a Dafny model

This project models the logic of the vibedevs prompt gallery: a React page
that boots with a scripted terminal animation and then shows a searchable,
category-filtered catalogue of 36 AI prompts. The model covers:

- `types.ts`: the twelve categories and the prompt record (module `Types`).
- The JavaScript string built-ins the page uses: `toLowerCase`,
  `toUpperCase`, `includes`, `trim` and the `\s` class (module `Text`).
- `data.ts`: `createPrompt`, the 36 records of `ALL_PROMPTS` and
  `CATEGORIES_LIST` (module `Data`).
- The `filteredPrompts` filter (module `Search`), and what it shows over the
  real catalogue (module `Catalog`).
- `CategoryIcon`, the sidebar label and the header text (module `Labels`).
- `TerminalText`, the typewriter effect, as a class driven by timer events
  (module `Typewriter`).
- `BootScreen`, the boot timeline, as a class holding a timer queue, an
  abstract clock, `lines`, the `mountedRef` flag and the `timeouts` array
  (module `Boot`).
- `App` and `PromptModal` state: boot flag, selection, query, open prompt,
  the Escape key and the `copied` flag with its pending resets (module
  `Shell`). The reset delay itself is abstracted: all resets share it, so
  only the order in which they fire is kept.

Pure source code (the filter predicate, the icon switch, the label
transform, `createPrompt`) is modelled with functions and lemmas. Code that
changes state step by step (the typewriter's interval callback, the boot
effect's `forEach` and timer callbacks, the React state setters) is
modelled with classes and methods, with loops where the source loops.

The typewriter follows the code where the design description differs. When
the `text` prop changes, the effect restarts from index 0 but does not
reset `displayed`: the old text stays visible until the new run's first
tick (`Typewriter.TerminalText.ChangeText`).

## Model

| member | source | states |
|---|---|---|
| Types.DisplayName | types.ts:1-14 | each category's string value is non-empty and differs from the `'All'` selection, so no category can be confused with it |
| Types.Ordinal | types.ts:1-14 | every category has a position below 12 in the declaration order, and that position holds it |
| Types.DeclarationOrderIsBijective | types.ts:1-14 | the declaration lists each of the 12 categories exactly once: position and category determine each other |
| Types.DisplayNameInjective | types.ts:1-14 | two categories have the same string value exactly when they are the same category |
| Text.LowerChar | App.tsx:379-382 | lowering yields no upper-case letter, maps `A`-`Z` to `a`-`z` and leaves every other character alone |
| Text.UpperChar | App.tsx:490 | upper-casing yields no lower-case letter, maps `a`-`z` to `A`-`Z` and leaves every other character alone |
| Text.Lower | App.tsx:379-382 | `toLowerCase` keeps the length and lowers each character in place |
| Text.Upper | App.tsx:490 | `toUpperCase` keeps the length and upper-cases each character in place |
| Text.LowerIdempotent | App.tsx:379-382 | a lowered string has no upper-case letter, and lowering it again changes nothing |
| Text.LowerOfUpper | App.tsx:490 | lowering an upper-cased string gives the lowered original |
| Text.LowerKeepsPrefix | App.tsx:379-382 | lowering maps a prefix of a string to a prefix of the lowered string |
| Text.Includes | App.tsx:379-382 | `includes` is true exactly when the needle occurs at some offset of the haystack |
| Text.IncludesEmpty | App.tsx:379-382 | every string includes the empty string |
| Text.IsWhitespace | App.tsx:471 | the `\s` and `trim` whitespace set contains no ASCII letter and not `_`, so lowering leaves whitespace alone and a label's `_` is never whitespace |
| Text.LeadingSpace | data.ts:16 | the count `trim` drops at the front: all whitespace, followed by a non-whitespace character or the end |
| Text.TrailingSpace | data.ts:16 | the count `trim` drops at the back: all whitespace, preceded by a non-whitespace character or the start |
| Text.Trim | data.ts:16 | `trim` returns a contiguous slice that neither starts nor ends with whitespace, and everything it drops is whitespace |
| Text.TrimFixesTrimmed | data.ts:16 | a string without leading or trailing whitespace is unchanged by `trim` |
| Text.TrimIdempotent | data.ts:16 | trimming twice is trimming once |
| Text.TrimNonEmpty | data.ts:16 | a string that starts with a non-whitespace character trims to a non-empty string with the same first character |
| Data.CreatePrompt | data.ts:4-18 | id, category, title and tags are copied, `desc` becomes the description, and the code is trimmed, no longer than the content, a fixed point of `trim`, and starts like the content when that starts with a non-space |
| Data.Id | data.ts:23-653 | the `id` argument of each of the 36 calls is five characters with a `-` in the middle (`wd-01`, …) |
| Data.CategoryOf | data.ts:24-654 | the `category` argument of call `i` is the category at position `i / 3` of the declaration order |
| Data.Title | data.ts:25-655 | the `title` argument of each call, as written (no contract: a column of literals) |
| Data.Description | data.ts:26-656 | the `desc` argument of each call, as written (no contract: a column of literals) |
| Data.Content | data.ts:27-667 | the `content` argument opens with a non-whitespace character (only its opening `Act as <role>.` sentence is kept) |
| Data.Tags | data.ts:37-668 | every call passes exactly three tags |
| Data.AllPrompts | data.ts:20-672 | `ALL_PROMPTS` has 36 records |
| Data.AllPromptsAt | data.ts:20-672 | record `i` of `ALL_PROMPTS` carries the id, category, title and description of the `i`-th `createPrompt` call |
| Data.IdColumnDistinct | data.ts:22-669 | the 36 `id` arguments are pairwise different |
| Data.IdsDistinct | data.ts:20-672 | no two records of `ALL_PROMPTS` share an id |
| Data.CategoryBlocks | data.ts:20-672 | record `i` belongs to the `i / 3`-th category in declaration order: contiguous blocks in enum order |
| Data.ThreePerCategory | data.ts:20-672 | each category owns exactly the three records at positions `3 * Ordinal(c)` to `3 * Ordinal(c) + 2` |
| Data.CodesTrimmedNonEmpty | data.ts:16 | every record's code is non-empty and already trimmed |
| Data.CategoriesList | data.ts:674 | `CATEGORIES_LIST` has 12 entries and position `Ordinal(c)` holds `c`'s string value |
| Data.CategoriesListDistinct | data.ts:674 | `CATEGORIES_LIST` names no category twice |
| Search.CategoryMatches | App.tsx:378 | `'All'` matches every record, and selecting a record's own category matches it |
| Search.Keep | App.tsx:378-383 | a kept record always matches the search, and under `'All'` a record is kept exactly when it matches the search |
| Search.SearchMatches | App.tsx:379-382 | a record matches the search exactly when the lowered query occurs in its lowered title, description or category string |
| Search.FilterBy | App.tsx:377 | `filter` returns no more elements than it is given, and every one of them passes |
| Search.FilterByMembers | App.tsx:377 | an element is in the filter result exactly when it is in the list and passes |
| Search.KeptPositions | App.tsx:377 | the passing positions from `from` onward, strictly increasing, each passing, none missing |
| Search.At | App.tsx:377 | reading a list at a sequence of positions yields the elements at those positions |
| Search.FilterIsKeptSubsequence | App.tsx:377 | the filter result is the list read at exactly its passing positions, in increasing order |
| Search.FilterSuffix | App.tsx:377 | filtering a suffix of the list reads the list at the passing positions of that suffix |
| Search.AtCons | App.tsx:377 | reading at `[i] + idx` is element `i` followed by reading at `idx` |
| Search.FilterAppend | App.tsx:377 | filtering splits over concatenation |
| Search.FilterKeepsAll | App.tsx:377 | when every element passes, the filter returns the list unchanged |
| Search.FilterDropsAll | App.tsx:377 | when no element passes, the filter returns the empty list |
| Search.FilterBlock | App.tsx:377 | when the passing elements form one block `xs[lo..hi]`, the filter returns that block |
| Search.Filter | App.tsx:376-385 | `filteredPrompts` returns no more records than the list, and each passes the category and search tests |
| Search.FilterMembers | App.tsx:376-385 | a record is shown exactly when it is in the list, its category matches the selection (or it is `'All'`), and the search matches |
| Search.FilterIsOrderedSubsequence | App.tsx:376-385 | the shown records are the list read at strictly increasing positions, a position being used exactly when its record passes |
| Search.FilterIdempotent | App.tsx:376-385 | filtering the filter's output with the same selection and query changes nothing |
| Search.EmptyQueryMatches | App.tsx:378-383 | with the empty query a record passes exactly when the selection is `'All'` or its own category |
| Search.AllWithEmptyQueryIsIdentity | App.tsx:376-385 | `'All'` with the empty query shows the whole list in its order |
| Search.CategoryBlockWithEmptyQuery | App.tsx:376-385 | a category with the empty query shows exactly that category's block when its records are contiguous |
| Search.TitlePrefixShown | App.tsx:378-383 | a record of the selected category whose title starts with a string lowering to the lowered query is shown |
| Catalog.CategoryWithEmptyQueryIsItsBlock | App.tsx:376-385 | over `ALL_PROMPTS`, a category with the empty query shows exactly its three records, in catalogue order |
| Catalog.DockerFindsDo01 | data.ts:559-563 | searching `ALL_PROMPTS` under `'All'` for any query lowering to `docker` shows the record `do-01` |
| Catalog.Do01Arguments | data.ts:559-562 | record 30 is `do-01` and its title starts with `Docker` |
| Catalog.LowerDocker | App.tsx:379 | `Docker` lowers to `docker` |
| Labels.CategoryIcon | App.tsx:165-181 | the prop is compared with the twelve string values in turn; a string shorter than `DevOps`, the shortest of them, falls to the `default` and gets `Hash` |
| Labels.CategoryIconOfCategory | App.tsx:165-181 | each category's string value reaches its own case of the switch and gets that case's icon |
| Labels.IconOfFirstSeven | App.tsx:167-173 | the first seven categories reach their own cases |
| Labels.IconOfMiddleThree | App.tsx:174-176 | Data Science, Mobile Apps and Cybersecurity reach their own cases |
| Labels.IconOfLastTwo | App.tsx:177-178 | DevOps and AI Tools reach their own cases |
| Labels.CategoryIconFallback | App.tsx:179 | the switch returns `Hash` exactly for a string that is no category's value |
| Labels.CategoryIconsDistinct | App.tsx:165-181 | no category gets `Hash`, and two categories get the same icon only when they are the same |
| Labels.ReplaceWhitespace | App.tsx:471 | `replace(/\s/g, ch)` keeps the length and replaces exactly the whitespace characters by `ch` |
| Labels.SidebarLabel | App.tsx:471 | the sidebar label has exactly as many characters as the category string |
| Labels.SidebarLabelShape | App.tsx:471 | the sidebar label has the category's length, no whitespace and no upper-case letter; each character is `_` where the category had whitespace and the lowered character elsewhere |
| Labels.HeaderText | App.tsx:490 | the header is the 11 characters of `ROOT_ACCESS` under `'All'`, and otherwise as long as the selected category |
| Labels.HeaderTextOfCategory | App.tsx:490 | a category header is never `ROOT_ACCESS`, and it lowers to the lowered category string |
| Typewriter.SlicePrefix | App.tsx:150 | `text.slice(0, n)` is a prefix of the text of length `min(n, length)` |
| Typewriter.TerminalText.constructor | App.tsx:142-148 | mounting shows nothing and waits for the initial timeout |
| Typewriter.TerminalText.TimeoutFires | App.tsx:148-149 | the initial timeout starts the interval and changes nothing else |
| Typewriter.TerminalText.IntervalFires | App.tsx:149-153 | a live tick shows one more character, advances the index and stops the interval exactly when the end is reached; a cleared interval changes nothing |
| Typewriter.TerminalText.ChangeText | App.tsx:145-159 | a new text restarts from index 0 with a fresh timeout and keeps the old `displayed` |
| Typewriter.TerminalText.Unmount | App.tsx:155-158 | cleanup clears both timers and leaves `displayed` alone |
| Typewriter.RevealTicks | App.tsx:145-159 | after the timeout and `k` ticks the first `k` characters are shown, and the interval is cleared exactly when the whole text is shown |
| Boot.BootLine | App.tsx:190-198 | line `i` of `bootLines`, as written (no contract: a column of literals) |
| Boot.Script | App.tsx:190-198 | `bootLines` has seven lines, opens with `INITIALIZING KERNEL...`, and only its last line is `SYSTEM READY.` |
| Boot.Shown | App.tsx:190-198 | the first `n` script lines number `n` |
| Boot.ShownIsScriptPrefix | App.tsx:190-198 | the shown lines are a prefix of the script, and each further line extends it by the next script line |
| Boot.Offsets | App.tsx:200-217 | there is one scheduling offset per line |
| Boot.OffsetsIncrease | App.tsx:200-217 | line 0 is scheduled at offset 0, each later line 100 to 400 ms after the previous one, so offsets strictly increase |
| Boot.OffsetsChain | App.tsx:216 | when each offset is the previous one plus a positive jitter, any earlier offset is smaller than any later one |
| Boot.LineTimersStep | App.tsx:204-217 | firing the first pending line timer leaves exactly the later line timers |
| Boot.EarliestIndex | App.tsx:204-217 | the timer picked to fire has the earliest due time, and is the first scheduled among equals |
| Boot.Cleared | App.tsx:221 | `clearTimeout(h)` removes exactly the pending timer with handle `h` |
| Boot.ScheduleLines | App.tsx:200-217 | the `forEach` schedules line `i` at the start time plus its offset, with consecutive handles recorded in `timeouts` |
| Boot.LineStep | App.tsx:204-214 | after a line fires, its run's remaining timers are pending, the last line adds the completion timer and its handle, and the next due time is later |
| Boot.CompletionStep | App.tsx:208-210 | after the completion fires, nothing of the run is pending |
| Boot.PendingOrdered | App.tsx:200-217 | pending timers are in strictly increasing due order, the first one is the next line (or the completion after all lines), and every pending handle is in `timeouts` |
| Boot.BootScreen.constructor | App.tsx:184-186 | mounting: no lines, no timers, the ref set, no completion |
| Boot.BootScreen.RunEffect | App.tsx:187-217 | the effect sets the ref and schedules the seven line timers with their handles in `timeouts`; `lines` is not cleared |
| Boot.BootScreen.Teardown | App.tsx:219-222 | cleanup clears the ref and every handle in `timeouts`, leaving nothing pending and `lines` unchanged |
| Boot.BootScreen.FireNext | App.tsx:204-214 | the earliest timer fires: a line timer appends the next script line (the last one also schedules the completion 800 ms later), the completion timer calls `onComplete` once; with nothing pending nothing changes |
| Boot.BootScreen.LineFires | App.tsx:204-214 | a line callback appends its line in script order and, for the last line, schedules the completion and pushes its handle |
| Boot.BootScreen.CompletionFires | App.tsx:208-210 | the completion callback calls `onComplete` exactly once |
| Boot.QuietAfterTeardown | App.tsx:219-222 | after teardown no timer fires, so no line is appended and `onComplete` is not called |
| Boot.BootToCompletion | App.tsx:184-223 | an undisturbed boot shows the whole script in order, calls `onComplete` once, and finishes 800 ms after the last line's offset |
| Shell.App.constructor | App.tsx:369-373 | the page starts unbooted, with `'All'`, the empty query and no open prompt |
| Shell.App.CompleteBoot | App.tsx:387-389 | `onComplete` sets `booted` and changes nothing else |
| Shell.App.SelectCategory | App.tsx:405-459 | after boot a sidebar click sets the selection, and the shown records are the filter under the new selection |
| Shell.App.SetSearch | App.tsx:423 | after boot typing sets the query, and the shown records are the filter under the new query |
| Shell.App.OpenPrompt | App.tsx:508 | a card click opens that prompt; a newly mounted modal starts with `copied` false, while an open one keeps its flag |
| Shell.App.Close | App.tsx:399 | closing unmounts the modal and its `copied` flag |
| Shell.App.KeyDown | App.tsx:249-255 | a key closes the modal exactly when it is `Escape`; any other key changes nothing |
| Shell.App.HandleCopy | App.tsx:242-246 | copying writes the prompt's code to the clipboard, sets `copied` and schedules its reset for the current modal |
| Shell.App.ResetFires | App.tsx:245 | the oldest reset clears `copied` only when the modal that scheduled it is still the mounted one |
| Shell.App.SettleResets | App.tsx:240-246 | once all pending resets have fired, `copied` is false |

## Left out

- `ShaderBackground` (WebGL, GLSL floating point, animation frames), all JSX and styling, `ASCII_LOGO`, the card preview and the unused `NavItem` type: no logic to verify.
- `navigator.clipboard.writeText`: a foreign call, modelled only as a log of the written texts.
- Real timers, `Date`, `setInterval` periods, and listener registration: time is an abstract clock, and each timer firing or user event is a method call.
- `Math.random`: each draw is a caller-supplied real in [100, 400).
- `useMemo`: memoisation only; the model recomputes the filter.
- Unicode case mapping: `toLowerCase` and `toUpperCase` are modelled on ASCII letters only. Every string in the data set is ASCII. The search query is user input, though, so the filter differs from the program for queries with non-ASCII letters: JavaScript's `toLowerCase` maps U+212A KELVIN SIGN to `k`, so the query "\u212A" shows every record containing `k` in the program and none in the model (`Text.LowerChar` leaves it unchanged).
- The prose of the prompt bodies: each record keeps only its opening sentence `Act as <role>.` as the `content` argument. The trimmed and non-empty properties depend only on that sentence's first character.
- Catalog.DockerFindsDo01: proves that `do-01` is shown for `docker`, not that it is the only record shown. Excluding the other 35 records would mean lowering and searching every literal title and description, which is beyond what the verifier can do here.
- The concrete sidebar labels of the twelve categories: only their general shape is proved (`Labels.SidebarLabelShape`).
- React's re-render and effect scheduling: the order of effect runs and cleanups is whatever sequence of method calls the caller makes.
