# Verified model of the rbbanjarmasin page script

A Dafny model of the interaction logic in `assets/js/main.js`, the script of a
static marketing site. The DOM is replaced by plain values (class sets,
attribute strings, lists of child descriptions), and the browser's inputs
(viewport width, measured heights, card counts, fetch outcomes) become
parameters. Five widgets are modelled, one module each:

- `NavToggle`: the mobile menu. The flag `isNavOpen` drives the `nav-open` class, `aria-hidden`, `aria-expanded`, the icon, the collapsed `max-height` and the body's `overflow-hidden` scroll lock. A toggle click, a dropdown-link click and a resize across 768 px move it. `NavMenu` is a class with those fields. Its handlers are proved against the pure functions `ApplyNavState`, `AfterToggle`, `AfterLinkClick` and `AfterResize`. `Agrees` is the invariant that every derived attribute matches the flag.
- `SectionTracker`: the IntersectionObserver callback. An intersecting section `id` makes exactly the links with `href="#id"` active. The callback runs in place over an array of links. The proofs show that the last intersecting entry of a batch decides the result.
- `PeranCarousel`: the carousel index. The previous button floors it at 0. The next button caps it at `max(0, cardCount - 1)`, reading the card count at each click. Nothing happens when the carousel element is missing.
- `NewsFeed`: `buildCard` with its `||` fallbacks, and the fetch continuation. The continuation applies a three-way policy: an error message, a "no data" message, or one card per entry in order.
- `PartnerMarquee`: a marquee with fewer than 16 children gets a clone of each child appended once.

`Json` gives the JavaScript semantics those pieces rely on. Reading a property of `null` throws. Strings inherit a `link` method and arrays an `entries` method. Truthiness follows JS rules. `String()` throws for an object with its own `toString` key.

## Model

| member | source | states |
|---|---|---|
| `NavToggle.ApplyNavState` | assets/js/main.js:16-28 | `setNavState(open)`: the flag becomes `open` and every derived attribute agrees with it (`nav-open` iff open, `aria-hidden = !open`, `aria-expanded = open`, close icon iff open, 0px when closed, scroll lock iff open). An opened menu gets the measured height. Other classes and `aria-controls` are untouched. |
| `NavToggle.AfterToggle` | assets/js/main.js:34-36 | A toggle click flips the flag and leaves every derived attribute agreeing with the new flag. |
| `NavToggle.AfterLinkClick` | assets/js/main.js:38-42 | A dropdown-link click always ends with the menu closed and collapsed, the scroll lock removed, and the class off. On a closed, consistent menu it changes nothing. |
| `NavToggle.AfterResize` | assets/js/main.js:44-52 | At width >= 768 an open menu is closed exactly as a link click closes it, and a closed menu is unchanged. Below 768 the flag never changes; an open menu only gets its height re-measured. Agreement of the derived state is preserved. |
| `NavToggle.ToggleTwiceFromClosed` | assets/js/main.js:34-36 | Two toggle clicks on a closed, consistent menu restore every attribute exactly. |
| `NavToggle.ToggleTwiceFromOpen` | assets/js/main.js:34-36 | Two toggle clicks on an open, consistent menu restore every attribute except the open height, which is measured again. |
| `NavToggle.LinkClickIdempotent` | assets/js/main.js:38-42 | A second link click changes nothing. |
| `NavToggle.NavMenu.constructor` | assets/js/main.js:10-32 | Page-load set-up: closed, `nav-open` removed, `aria-hidden="true"`, 0px, menu icon, `aria-expanded="false"`, `aria-controls="nav-dropdown"`. The state agrees with the flag exactly when the body does not start scroll-locked. |
| `NavToggle.NavMenu.SetNavState` | assets/js/main.js:16-28 | The fields become `ApplyNavState` of their old values. |
| `NavToggle.NavMenu.OnToggleClick` | assets/js/main.js:34-36 | The fields become `AfterToggle` of their old values. |
| `NavToggle.NavMenu.OnLinkClick` | assets/js/main.js:38-42 | The fields become `AfterLinkClick` of their old values. |
| `NavToggle.NavMenu.OnResize` | assets/js/main.js:44-52 | The fields become `AfterResize` of their old values. |
| `SectionTracker.MarkLinks` | assets/js/main.js:59-67 | For section `id`, a link is active iff its `href` equals `#id`. Hrefs, link order and all other classes are unchanged. |
| `SectionTracker.MarkLinksOverrides` | assets/js/main.js:57-67 | A later marking fully overrides an earlier one. |
| `SectionTracker.LastIntersectingWins` | assets/js/main.js:56-69 | After a callback, the links are marked for the last intersecting entry. If no entry intersects, the links are unchanged, because non-intersecting entries change nothing. |
| `SectionTracker.OnIntersections` | assets/js/main.js:56-69 | The in-place nested loops leave the link array equal to the entry-by-entry specification. |
| `PeranCarousel.AfterPrev` | assets/js/main.js:297-300 | Previous never goes below 0. It decrements a positive index and stays at 0 at 0. |
| `PeranCarousel.AfterNext` | assets/js/main.js:302-308 | Next never exceeds `max(0, cardCount-1)`. It increments below the maximum and stays at the maximum there. It does nothing without the carousel element. |
| `PeranCarousel.RunStaysInRange` | assets/js/main.js:283-308 | With the card count held fixed for the whole run, any sequence of prev/next clicks from an index in `[0, max(0, cardCount-1)]`, including the initial 0, keeps the index in that range. |
| `PeranCarousel.NextPrevRoundTrip` | assets/js/main.js:297-308 | Next then previous returns to the same index below the maximum. Previous then next does the same above 0. |
| `PeranCarousel.Carousel.constructor` | assets/js/main.js:283 | The index starts at 0. |
| `PeranCarousel.Carousel.OnPrevClick` | assets/js/main.js:297-300 | The index becomes `AfterPrev` of its old value. |
| `PeranCarousel.Carousel.OnNextClick` | assets/js/main.js:302-308 | The index becomes `AfterNext` of its old value and the current card count. |
| `NewsFeed.BuildCard` | assets/js/main.js:209-251 | Throws exactly when the entry is null, a picked text cannot be converted to a string (an object with its own `toString` key), or the link is truthy but not a JSON string. Every string entry throws, because its inherited `link` method has no `startsWith`. Otherwise: delay = index*100; image src = image or `''`; alt = title or `'Berita'`; tag = tag or `'Berita'`; title = title or `'Judul Berita'`; excerpt = excerpt or `''`. The link is present iff `link` is truthy, has that href, and targets `_blank` iff it starts with `http`, else `_self`. |
| `NewsFeed.OwnToStringTitleThrows` | assets/js/main.js:218 | An entry whose title is an object with its own `toString` key cannot be built. |
| `NewsFeed.StringEntryRendersError` | assets/js/main.js:239-276 | A feed whose only entry is a string renders only the error message. |
| `NewsFeed.BuildCards` | assets/js/main.js:267-269 | The `forEach` completes iff every entry builds. Card i is then built from entry i at index i, one card per entry. |
| `NewsFeed.RenderNews` | assets/js/main.js:253-277 | A rejected fetch, a non-OK response, an unparsable body or a throwing entry leaves only the error message. A non-array or empty `entries` leaves only the "no data" message. Otherwise the grid holds exactly N cards, card i built from entry i with delay i*100. |
| `NewsFeed.RenderedCardCount` | assets/js/main.js:260-277 | The grid holds zero cards unless every entry builds, and then exactly one per entry. |
| `NewsFeed.NewsGrid.OnFetchSettled` | assets/js/main.js:253-277 | The clear-then-append loop, with the `.catch` replacing a partly built grid, leaves the grid equal to `RenderNews`. |
| `PartnerMarquee.Duplicated` | assets/js/main.js:322-325 | With fewer than 16 children the list doubles in length, child i repeats child `i mod n`, and the multiset doubles. With 16 or more it is unchanged. |
| `PartnerMarquee.DuplicatedHalves` | assets/js/main.js:322-325 | A doubled list is the old list followed by a copy of itself. |
| `PartnerMarquee.Marquee.DuplicateIfShort` | assets/js/main.js:321-325 | Appending the clones one by one leaves the children equal to `Duplicated` of the old children. |

## Left out

- Swiper and AOS initialisation (lines 78-114) and `AOS.refreshHard`: these only pass option objects to third-party libraries.
- ApexCharts option building and `resizeCharts` (lines 116-205): these are foreign library calls.
- The carousel's pixel offset in `updatePeranCarousel` (lines 285-295): it depends on live layout measurement, CSS string parsing and floating point. Only the index is modelled.
- The `fetch` call, `response.json()`, `console.error`, `requestAnimationFrame` and the promise scheduling: the settled outcome of the fetch is an input (`FetchOutcome`). Because the grid is only written when the chain settles, async ordering does not matter.
- The page-element lookups: the nav is modelled only when both the toggle and the dropdown exist; missing prev/next buttons simply register no handler; a missing news grid or marquee means no widget.
- The measured `scrollHeight` and the viewport width are parameters. CSS strings such as `"320px"` are modelled as pixel counts.
- Icons, messages and the card's fixed class names and markup are opaque constants. The `rel` attribute is not recorded.
- `image.src` and `link.href` are kept as the raw strings; the browser's URL resolution is not modelled.
- JSON numbers are integers; fractions are not modelled.
- Json.ToString: prints a number's exact decimal digits. JavaScript rounds integers beyond 2^53 when parsing and prints magnitudes of 1e21 or more in exponent form (`"1e+21"`), so a numeric text of that size differs from the model's.
- Json.Get: is exact only for the six keys the script reads (`entries`, `image`, `title`, `tag`, `excerpt`, `link`); other inherited prototype properties are not modelled.
- `cloneNode(true)` yields an equal description. Node identity, and so aliasing between a node and its clone, is not modelled.
- NavToggle.NavMenu.constructor: agreement holds only if the body does not start with `overflow-hidden`, because the script never clears that class at load. The model states this condition instead of assuming it.
