# Portfolio card layout, drag and filter — a Dafny model

This project models the client-side script of a personal portfolio site and
the build-time script that feeds it:

- **`escapeHTML`** — the five-entity HTML escaper used when project records
  are turned into cards (`HtmlEscape`, `escape.dfy`).
- **The layout pass `layoutCards`** — reserved header/footer/filter-bar bands,
  the 250 × 200 default card size, candidate coordinates drawn from the random
  source, the 45 % overlap test against the obstacle list, the 40-attempt
  rejection loop, the rotation draw, and the filter visibility applied to each
  random card (`Geometry` in `geometry.dfy`, `Layout` in `layout.dfy`,
  `Page.PageState.LayoutCards` in `page.dfy`).
- **The per-card drag controller** — `start`, `move` and `end` over the
  closure state `offsetX`/`offsetY`/`isDown`/`isDragging` and the shared
  counter `globalZIndex` (`Page.DragSession`, `page.dfy`).
- **The filter-button click handler** — toggling a tag in the active set and
  the button's `active` class, then showing or hiding every card
  (`Filters` in `filters.dfy`, `Page.PageState.ClickFilter`).
- **The page → project projection of `update_projects.js`** — the fallback
  defaults for title, description, date, GitHub link and cover image, and
  the TypeError that abandons the mapping when a property is missing
  (`Projects`, `projects.dfy`).

`Math.random()` is the parameter `draws: nat -> real`, read from a cursor:
each attempt takes two draws (x, then y), and after the loop one draw gives
the rotation. Pixel values are `real`. The DOM's `offsetLeft`/`offsetTop`
are the card's positioned `left`/`top`. `offsetWidth`/`offsetHeight` are its
rendered size. All four read 0 while the card has `display: none`, and that
is why the 250 × 200 default matters.

The pure parts (escaper, overlap arithmetic, visibility rule, projection)
are functions with lemmas. The parts the source runs step by step are
methods:
- seeding the obstacle list;
- the random-card loop;
- the retry loop;
- the inner overlap loop;
- the click handler's loop over the cards;
- the drag handlers.

Each loop is proved against an independent definition:
- the seeding loop against `Page.FixedBoxes`;
- the inner overlap loop against `Layout.Acceptable`;
- the retry loop against the bounded first-fit property `Layout.FirstFit`,
  which is proved equivalent to the recursive search `Layout.Search`;
- the random-card loop, and so a whole pass, against `Layout.PlaceAll`;
- the click handler against `Filters.Toggle` and `Filters.Visible`.

The drag handlers have no loop. Their contracts state the new closure state
and card state directly, and `Page.DragLaw` and `Page.PressRaises` combine
them.

The model follows the code on three points worth noting:
- The rotation is `r·30 − 15`, so it lies in the half-open range [−15, 15).
- The record written to `projects.json` has exactly seven fields
  (`id, title, tags, description, date, github, image`); no page content is
  copied.
- Only random cards get the filter visibility during a layout pass. Fixed
  cards keep their display until the next filter click.

## Model

| member | source | states |
|---|---|---|
| `HtmlEscape.EscapeChar` | JS/script.js:27-30 | `&`, `<`, `>`, `"`, `'` map to their entities; every other character maps to itself; no image holds a raw markup character |
| `HtmlEscape.Escape` | JS/script.js:26-31 | the escaped text contains no raw `<`, `>`, `"` or `'` and is at least as long as the input |
| `HtmlEscape.UnescapeEscape` | JS/script.js:26-31 | decoding the five entities restores the original text, so escaping loses nothing |
| `HtmlEscape.EscapeAppend` | JS/script.js:27-30 | escaping works per character: it distributes over concatenation |
| `HtmlEscape.EscapePlainText` | JS/script.js:27 | text with none of the five special characters passes through unchanged |
| `Geometry.SharedLength` | JS/script.js:129-136 | the overlap length on one axis is positive exactly when both extents are positive and the intervals meet, and never exceeds either extent |
| `Geometry.OverlapArea` | JS/script.js:129-140 | the overlap area is counted only when both overlap width and height are positive; it is positive iff the rectangles intersect and then bounded by both areas |
| `Geometry.OverlapSymmetric` | JS/script.js:129-140 | the overlap area does not depend on which rectangle is the candidate |
| `Geometry.OverlapWithinAreas` | JS/script.js:129-140 | for rectangles of non-negative size the overlap never exceeds either rectangle's area |
| `Filters.Visible` | JS/script.js:151-156 | the visibility rule written as in the code: shown when no filter is active or some active tag is among the card's classes (its set form is `VisibleIffMeets`) |
| `Filters.VisibleIffMeets` | JS/script.js:151-156 | a card is displayed iff the active set is empty or meets the card's class set |
| `Filters.Toggle` | JS/script.js:244-250 | a click flips the clicked tag's membership and leaves every other tag's membership unchanged |
| `Filters.ToggleTwice` | JS/script.js:244-250 | clicking the same button twice restores the active set |
| `Filters.ToggleCommutes` | JS/script.js:244-250 | clicks on two buttons give the same set in either order, so visibility depends only on membership |
| `Filters.WebFilterExample` | JS/script.js:261-265 | with `{"web"}` active, cards tagged `{web}`, `{design}`, `{web, design}` are shown, hidden, shown |
| `Layout.BandHeight` | JS/script.js:83-85 | a band that is present counts with its measured height; a missing one counts 0 |
| `Layout.TopBand` | JS/script.js:123 | candidates start below the header and the filter bar |
| `Layout.UsableWidth` | JS/script.js:109 | the horizontal range left for a card's left edge: window width minus the card width and the 20 px side margin |
| `Layout.UsableHeight` | JS/script.js:110 | the vertical range left for a card's top edge: window height minus the three bands, the card height and the 100 px bottom margin |
| `Layout.MissingBandsReserveNothing` | JS/script.js:83-85 | a missing header, footer or filter bar contributes height 0 to the reserved bands |
| `Layout.CardSize` | JS/script.js:104-105 | a measured width or height of 0 becomes 250 or 200; otherwise the measured size is kept; a card's box is never empty |
| `Layout.Candidate` | JS/script.js:122-123 | the candidate box of an attempt: the card's size at the two drawn coordinates |
| `Layout.AttemptAt` | JS/script.js:122-123 | attempt n of a card whose draws start at k reads draw k + 2(n − 1) for x and the next one for y |
| `Layout.CandidateLeft` | JS/script.js:122 | x is the draw scaled by the usable width (its range is `CandidateLeftBounds`) |
| `Layout.CandidateTop` | JS/script.js:123 | y is the top band plus the draw scaled by the usable height (its range is `CandidateTopBounds`) |
| `Layout.CandidateLeftBounds` | JS/script.js:109-122 | with a draw in [0, 1), x lies in [0, usableWidth) when usableWidth is positive, is 0 when it is 0, and lies in (usableWidth, 0] when it is negative |
| `Layout.CandidateTopBounds` | JS/script.js:110-123 | with a draw in [0, 1), y lies in [header + filter bar, header + filter bar + usableHeight) when usableHeight is positive, and between the two ends otherwise |
| `Layout.WithinUsableFits` | JS/script.js:109-110 | a box starting within the usable ranges ends left of the 20 px side margin and above the footer band and the 100 px bottom margin |
| `Layout.TooMuchOverlap` | JS/script.js:139-141 | a candidate is rejected by a placed box when they intersect and the overlap exceeds 0.45 × the candidate's own area |
| `Layout.Acceptable` | JS/script.js:126-146 | a candidate passes when no placed box rejects it |
| `Layout.OverlapTest` | JS/script.js:133-143 | the source's test on the two overlap lengths (both positive and their product above 0.45 × the card's area) is exactly the model's rejection rule |
| `Layout.ExceedsOverlap` | JS/script.js:126-146 | the inner loop reports too much overlap iff some placed box overlaps the candidate by more than 0.45 × its own area |
| `Layout.FirstFit` | JS/script.js:117-147 | the retry loop stated declaratively: 1 to 40 attempts, every earlier candidate rejected, the kept position that of the last attempt, which passed or was the 40th |
| `Layout.Search` | JS/script.js:117-147 | the retry loop as a recursion on the attempt number, stopping at the first candidate that passes or at the 40th |
| `Layout.FindPosition` | JS/script.js:112-147 | the retry loop makes 1 to 40 attempts, rejects every attempt before the last, and keeps the last candidate, which passed or was the 40th |
| `Layout.SearchIsFirstFit` | JS/script.js:117-147 | the reference search is that bounded first-fit search |
| `Layout.FirstFitUnique` | JS/script.js:117-147 | the bounded first-fit search has exactly one outcome, so a fixed random source gives the same position |
| `Layout.FirstFitIsSearch` | JS/script.js:117-147 | every bounded first-fit outcome is the reference search's |
| `Layout.SearcherIsFirstFit` | JS/script.js:117-147 | the retry loop chooses the bounded first-fit position for every card, obstacle list and cursor |
| `Layout.Rotation` | JS/script.js:157 | a draw in [0, 1) gives a rotation in [−15, 15) degrees |
| `Layout.RotationDraw` | JS/script.js:157 | the rotation reads the draw right after the two draws of the last attempt |
| `Layout.PlacedBox` | JS/script.js:161-167 | the pushed record is the kept position with the card's width, height and area width × height |
| `Layout.PlaceEach` | JS/script.js:103-168 | a pass yields one placement per random card and grows the obstacle list by one box per card |
| `Layout.PlaceAll` | JS/script.js:103-168 | the random-card loop with every card placed by the retry loop, starting from the given obstacles and draw cursor |
| `Layout.PlaceEachObstacles` | JS/script.js:161-167 | after the loop the obstacle list is the initial obstacles followed by one box per card, in processing order, each with the card's size and area width × height |
| `Layout.PlaceEachChosen` | JS/script.js:103-168 | each card is placed against the obstacle list as it stood at its turn |
| `Layout.PlaceEachChained` | JS/script.js:122-157 | the pass reads the random stream in order: two draws per attempt, then one for the rotation, card after card |
| `Layout.PlaceEachSnoc` | JS/script.js:103-168 | one more random card extends the pass by that card's placement and box |
| `Layout.PlaceEachStep` | JS/script.js:103-168 | the pass over the first i cards, followed by the chooser's placement of card i from where that pass stopped, is the pass over the first i + 1 cards |
| `Layout.PlaceAllStep` | JS/script.js:103-168 | a card placed by the bounded first-fit search after the first i cards extends the reference pass over them to the pass over i + 1 cards |
| `Layout.PlaceAllObstacles` | JS/script.js:87-168 | after a layout pass the obstacle list is the fixed cards' boxes followed by exactly one box per random card, in processing order, with area width × height |
| `Layout.PlaceAllFirstFit` | JS/script.js:103-168 | every random card of a pass is placed by the bounded first-fit search against the boxes before it |
| `Layout.CenteredPlacementExample` | JS/script.js:109-123 | 1024 × 768 window, header 80, footer 60, no filter bar, a fixed 200 × 100 box at (10, 10), a 250 × 200 card and every draw 0.5: placed at (377, 244) on the first attempt |
| `Page.Card.OffsetLeft` | JS/script.js:94 | a displayed card reports its left position; a hidden card reports 0 |
| `Page.Card.OffsetTop` | JS/script.js:95 | a displayed card reports its top position; a hidden card reports 0 |
| `Page.Card.OffsetWidth` | JS/script.js:96 | a displayed card reports its rendered width; a hidden card reports 0 |
| `Page.Card.OffsetHeight` | JS/script.js:97 | a displayed card reports its rendered height; a hidden card reports 0 |
| `Page.FixedBox` | JS/script.js:93-99 | the obstacle record of a fixed card: its offsets, its size and the area width × height |
| `Page.FixedBoxes` | JS/script.js:92-100 | one box per fixed card, in document order, each as measured |
| `Page.MeasuredSize` | JS/script.js:104-105 | the size a random card is placed with: its offset size with 250 × 200 defaults for a zero side |
| `Page.Sizes` | JS/script.js:103-105 | one box size per random card, in document order |
| `Page.SeedObstacles` | JS/script.js:92-100 | the first loop seeds the obstacle list with the fixed cards' boxes in document order |
| `Page.PointOf` | JS/script.js:184 | definition of `e.touches ? e.touches[0] : e`: a mouse event gives its own coordinates, a touch event its first touch point, and an empty touch list none; `DragLaw` states the drag over it for both kinds |
| `Page.PageState.constructor` | JS/script.js:23-24 | the counter starts at 100 and no filter is active |
| `Page.PageState.LayoutCards` | JS/script.js:78-169 | each random card is written at the reference pass's position and rotation and displayed by the filter rule; the returned obstacle list is the reference pass's; nothing else of the cards changes |
| `Page.PageState.PlaceRandomCards` | JS/script.js:103-168 | the random-card loop writes each card's placement and visibility and builds the obstacle list of the reference pass |
| `Page.PageState.PlaceCard` | JS/script.js:104-167 | one card receives the first-fit position, the rotation of the draw after its last attempt and the filter visibility, and yields its box |
| `Page.PageState.ClickFilter` | JS/script.js:237-266 | the click toggles the tag, sets the button's `active` class to the new membership, and displays every card iff the visibility rule holds; nothing else of the cards changes |
| `Page.DragSession.constructor` | JS/script.js:176 | a card's drag state starts at offset (0, 0), not pressed, not dragging |
| `Page.DragSession.Start` | JS/script.js:178-187 | pressing raises the counter by one, gives the card that z-index, adds `dragging` and records the pointer's offset from the card's corner |
| `Page.DragSession.Move` | JS/script.js:189-196 | nothing happens unless pressed; otherwise the card moves to pointer minus recorded offset |
| `Page.DragSession.End` | JS/script.js:198-204 | releasing clears the pressed flag and the `dragging` class; on a card not pressed it changes nothing, so a second `end` is a no-op |
| `Page.DragLaw` | JS/script.js:178-196 | for mouse and touch events alike, pressing at point P on a displayed card at (L, T), then moving to point P', puts the card at (L + P'.x − P.x, T + P'.y − P.y) |
| `Page.PressRaises` | JS/script.js:181-182 | pressing a card keeps every card at or below the counter and puts the pressed card strictly above the others |
| `Page.ClickTwice` | JS/script.js:244-265 | two clicks on the same button restore the active set and the button state, and display exactly the cards the restored set displays |
| `Projects.OrElse` | update_projects.js:45 | the logical-or fallback never yields an empty string when the fallback is non-empty, and yields either the fallback or the present non-empty value; its exact cases are stated for each field by `TitleAndDescription`, `DateChain` and `GithubLink` |
| `Projects.FirstText` | update_projects.js:45 | definition of `xs[0]?.plain_text`: absent for an empty array, the first fragment's text otherwise; its use is stated by `TitleAndDescription` |
| `Projects.TagNames` | update_projects.js:48 | the tags are the multi-select names, in order, one per option |
| `Projects.DateOf` | update_projects.js:55-56 | the date chain of the `Date` property (its cases are `DateChain`) |
| `Projects.ImageOf` | update_projects.js:62-65 | the default image without a cover, otherwise the URL of the file object the cover's type selects, or the TypeError when that object is missing |
| `Projects.ToProject` | update_projects.js:43-76 | the `map` lambda: reads Name, Tags, Description, Date, Github and the cover in that order, fails with the first one missing, and otherwise builds the seven-field record |
| `Projects.ProjectsOf` | update_projects.js:43-76 | the mapping succeeds iff every page has the properties it reads; it then gives one record per page, in order, each the projection of its page; otherwise it gives the error of the first failing page, every page before it being well-formed |
| `Projects.WellFormedIffOk` | update_projects.js:43-65 | a page is projected without a TypeError iff it has Name, Tags, Description, Date and Github and, when it has a cover, the file object the cover's type selects |
| `Projects.ProjectIdAndTags` | update_projects.js:43-75 | the record keeps the page id unchanged, and its tags are the option names in order with the same length |
| `Projects.TitleAndDescription` | update_projects.js:45-51 | the title is the first fragment's text when present and non-empty, else `"제목 없음"`; the description falls back to `"설명이 없습니다."`; neither is ever empty |
| `Projects.DateChain` | update_projects.js:55-56 | the date is the first rich-text text if non-empty, else `date.start` if non-empty, else `""` |
| `Projects.GithubLink` | update_projects.js:59 | the link is the property's URL, or `"#"` when it is null or empty |
| `Projects.ImageChoice` | update_projects.js:62-65 | no cover gives `images/default.jpg`; an `external` cover gives the external URL; any other cover gives the file URL |
| `Projects.ProjectsKeepIds` | update_projects.js:43-68 | the output has one record per page, in the same order, each with its page's id |

## Left out

- Fetching `projects.json` and building card markup in `initProjects`
  (JS/script.js:35-75) are network and DOM I/O. Only `escapeHTML`, which the
  markup uses, is modelled.
- `HtmlEscape.Escape` takes a string. The `String(text)` conversion of
  non-string values (`undefined`, numbers) is not modelled.
- `loadHeader` and the root `script.js` only assign fixed HTML to `innerHTML`.
- The resize debounce with `setTimeout`/`clearTimeout` is timer and event-loop
  behaviour. A re-layout is another call of `LayoutCards`.
- Event-listener registration, `{ passive: false }` and `preventDefault` are
  browser plumbing. The handlers are methods called in sequence.
- `Math.random` is the supplied stream `draws`. The model does not require
  every draw to lie in [0, 1); the lemmas that need that range say so.
- IEEE-754 rounding of pixel coordinates is not modelled; values are `real`.
- The CSS `rotate(...)` string is not modelled. The model keeps the angle.
- The unused `safeY` is not modelled.
- `offsetLeft`/`offsetTop` are taken as the card's own `left`/`top`. In a
  browser they are integers: the fractional `x + "px"` written by the layout
  pass reads back rounded. `start` therefore records `clientX - round(left)`,
  and after a layout the first `move` puts the card at round(L) + Δ. The
  model has no rounding, so the L of `Page.DragLaw` is the unrounded
  position. The offset-parent chain and CSS layout are not modelled.
- `Page.PageState.LayoutCards` requires the random cards to be distinct
  objects. `querySelectorAll` guarantees this, so it is not a demand on
  callers.
- `isDragging` is kept as the source keeps it. Nothing reads it.
- The Notion client, the environment-variable checks, `process.exit`,
  `fs.writeFileSync`, `JSON.stringify` and the error logging of
  `update_projects.js` are foreign API and file I/O. A failing mapping is the
  `Err` result.
- A cover file object's `url` is modelled as a string. A null `url` would be
  written through unchanged, and that case is not modelled.
- The test files under `tests/` check source text and HTML markup, not
  behaviour. Nothing in them is modelled.
