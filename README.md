# christmas-shop widgets in Dafny

This project models the three widgets of the christmas-shop page that contain logic:

- **Gift catalog** (`Catalog`, `catalog.dfy`). It holds the list of gift records and derives several views from it:
  - a ranked order: a stable sort by descending total superpower score;
  - a random order;
  - three category filters that match the category's display name exactly.
- **Catalog rendering**. It renders cards into the "best" and "all" regions:
  - The "best" region shows the first `bestAmount` gifts of the random or the ranked order.
  - The "all" region shows the view that a category alias selects.
  - Each card carries a meta record: the gift, its picture and its style key, all looked up by category.
  - An unknown category raises an error and aborts the render.
  - A click on a card passes the card's meta record to the activation callback.
- **Countdown** (`Countdown`, `countdown.dfy`). A counter starts at the whole seconds left until a target date.
  - Each tick shows the counter split into days, hours, minutes and seconds, then decrements it.
  - The tick that finds the counter negative clears the interval, but still shows and decrements.
  - JavaScript's `%` truncates toward zero, so the model writes it out as `JsRem`. For a counter ≥ 0 the split adds up exactly to the counter. When the target is still ahead at start, the last tick runs at −1 and shows −1 in all four fields. When the target has already passed, the counter starts negative and the first tick is also the last: for a counter s between −60 and 0 it shows −1, −1, −1 and s.
- **Detail modal** (`Modal`, `modal.dfy`). Showing a gift sets the picture and fills the text panel, then marks the page body as opened.
  - The text panel holds one block per superpower, and each block shows five stars.
  - Star `i` is disabled exactly when `100·(i+1) > rating`. So the lit stars form a prefix, and there are `clamp(⌊rating/100⌋, 0, 5)` of them.
  - `hide` and a click on the backdrop or on a close control clear the opened mark.

`wrappers.dfy` holds the `Option` type shared by the three modules.

Where the state changes in place, the model uses classes with `modifies` clauses: the catalog's `all` list and its two regions, the countdown's counter, and the modal's opened flag, picture and text. The views, lookups and the split of the counter are functions. The two template loops of the modal are methods with loop invariants, each proved against a specification function.

Outside effects become parameters:
- the fetched gift list becomes the argument of `Load`;
- the clock readings become the arguments of the countdown's constructor;
- the random comparator becomes a sequence of draws.

Page elements that may be missing become flags or `Option`/`Region` values.

## Model

| member | source | states |
|---|---|---|
| `Catalog.SumFromShift` | christmas-shop/service/Gifts.js:240 | Folding with a starting total adds that total to the fold from 0. |
| `Catalog.TotalIsSumOfRatings` | christmas-shop/service/Gifts.js:237-241 | `Total`, the model of `#getTotalSuperpowers` (the reduce over a gift's ratings from 0), is live + create + love + dream. |
| `Catalog.Ranked` | christmas-shop/service/Gifts.js:275-279 | The sort behind `Best` (the `best` getter, `Ranked(all, Total)`). The ranked order is a permutation of the list (same multiset, same length), sorted by non-increasing key. |
| `Catalog.InsertSorted` | christmas-shop/service/Gifts.js:276-278 | Inserting into a list sorted by non-increasing key keeps it sorted. |
| `Catalog.FilterInsert` | christmas-shop/service/Gifts.js:276-278 | For a filter that selects one key value, inserting x changes the filtered list only by putting x in front, and only if x has that key. |
| `Catalog.FilterRanked` | christmas-shop/service/Gifts.js:275-279 | Ranking leaves unchanged the subsequence of elements that have any one key value. |
| `Catalog.RankedIsStable` | christmas-shop/service/Gifts.js:275-279 | The sort is stable: for every score, the gifts with that score keep their original relative order. |
| `Catalog.Shuffled` | christmas-shop/service/Gifts.js:284-288 | The random order has as many gifts as the list. |
| `Catalog.ShuffledIsPermutation` | christmas-shop/service/Gifts.js:284-288 | Whatever the draws, the random order is a permutation of the list. |
| `Catalog.ShuffledFirstDraw` | christmas-shop/service/Gifts.js:284-288 | A first draw k puts the k-th gift first and shuffles the rest with the remaining draws. |
| `Catalog.TailPermutation` | christmas-shop/service/Gifts.js:284-288 | Proof step of `ShuffledReachesEveryPermutation`, a generic multiset fact: removing the same element from two permutations of each other leaves two permutations of each other. |
| `Catalog.ShuffledReachesEveryPermutation` | christmas-shop/service/Gifts.js:284-288 | Every permutation of the list is the random order for some draws, so the model does not restrict which order is produced. |
| `Catalog.FilterIsSubsequence` | christmas-shop/service/Gifts.js:294-296 | `filter` returns an order-preserving subsequence of its input. |
| `Catalog.FilterMembers` | christmas-shop/service/Gifts.js:294-296 | An element is in the filtered list exactly when it is in the input and the predicate accepts it. |
| `Catalog.FilterCount` | christmas-shop/service/Gifts.js:294-296 | The filter keeps every copy of an accepted element and drops every copy of a rejected one. |
| `Catalog.FilterAppend` | christmas-shop/service/Gifts.js:294-296 | Filtering a concatenation concatenates the filtered parts. |
| `Catalog.ByCategory` | christmas-shop/service/Gifts.js:293-315 | The work, health and harmony getters return the order-preserving subsequence of the gifts whose category equals the configured name exactly. |
| `Catalog.ByCategoryKeepsCopies` | christmas-shop/service/Gifts.js:293-315 | A category view holds every duplicate of a gift of that category and none of any other gift. |
| `Catalog.Picture` | christmas-shop/service/Gifts.js:197-211 | The lookup succeeds exactly for the work, harmony or health name. Any other category, the catch-all's name included, gives the "no picture" error naming it. |
| `Catalog.StyleModifier` | christmas-shop/service/Gifts.js:217-231 | The lookup succeeds exactly for the same three names. Any other category gives the "no style modifier" error naming it. |
| `Catalog.LookupFollowsTable` | christmas-shop/service/Gifts.js:197-231 | When the three names differ, a category's own name yields its picture and its alias. When the catch-all name is none of the three, it fails. |
| `Catalog.GiftToMeta` | christmas-shop/service/Gifts.js:153-166 | The meta exists exactly for a known category. It holds the gift unchanged, plus the looked-up picture and style key. Otherwise the error is the picture lookup's, since that lookup comes first. |
| `Catalog.Cards` | christmas-shop/service/Gifts.js:189-191 | Rendering succeeds exactly when every category is known. It then gives one card per gift in input order, card i being gift i's meta. Otherwise it fails with the error of the first unknown gift. |
| `Catalog.Slice` | christmas-shop/service/Gifts.js:116-117 | `slice(0, n)` is a prefix of length min(n, len) for n ≥ 0 and max(len + n, 0) for n < 0. |
| `Catalog.BestPick` | christmas-shop/service/Gifts.js:111-120 | The best pick is a prefix of the random or the ranked order, of exactly min(bestAmount, len) gifts when bestAmount ≥ 0. In ranked mode no gift outside the pick scores higher than one inside it. |
| `Catalog.AllView` | christmas-shop/service/Gifts.js:130-146 | An alias selects a view exactly when it is one of the four configured aliases. The "all" alias selects the whole list in order. Every view is a subsequence of the list. |
| `Catalog.SubsequenceReflexive` | christmas-shop/service/Gifts.js:131-132 | Proof step of `AllView`, a generic fact: every list is a subsequence of itself. |
| `Catalog.AliasSelectsCategory` | christmas-shop/service/Gifts.js:130-146 | When the aliases differ, the work, health or harmony alias selects exactly that category's filter. |
| `Catalog.Gifts.constructor` | christmas-shop/service/Gifts.js:82-99 | The list starts empty. Each region is absent or holds the page's own markup. No listener is attached and no callback has run. |
| `Catalog.Gifts.InsertBest` | christmas-shop/service/Gifts.js:111-120 | An absent region is left alone. Otherwise it holds the cards of the best pick, min(bestAmount, len) of them, or is left unchanged when a lookup fails. |
| `Catalog.Gifts.InsertAll` | christmas-shop/service/Gifts.js:125-147 | An absent region and an unknown alias leave the region unchanged. Otherwise it holds the cards of the selected view, or is left unchanged when a lookup fails. |
| `Catalog.Gifts.Load` | christmas-shop/service/Gifts.js:101-109 | Sets the list. A present best region holds the cards of the random best pick, or stays as it was when that render fails. On success the all region holds the cards of the whole list, and listeners are attached when at least one region is present. The outcome is exact: it fails with the error of the first unknown gift of the best pick when the best region is present and that render fails, else with the first unknown gift of the list when the all region is present and that render fails, and passes otherwise. On failure the all region stays as it was and nothing is attached. With every category known it passes. |
| `Catalog.Gifts.ClickHandler` | christmas-shop/service/Gifts.js:243-270 | It can only run once a listener is attached, which needs a present region. A card with a payload runs the callback exactly once, with that payload. A card without one causes no call. A click outside any card fails reading the missing card and causes no call. |
| `Countdown.FloorDiv` | christmas-shop/service/Countdown.js:73 | `Math.floor(a / b)` is the q with q·b ≤ a < q·b + b. |
| `Countdown.JsRem` | christmas-shop/service/Countdown.js:83-85 | JavaScript's `%` has the sign of the dividend, a magnitude below the divisor, and differs from the dividend by a multiple of the divisor. |
| `Countdown.DecomposeNonNegative` | christmas-shop/service/Countdown.js:82-85 | For `Decompose`, the split of lines 82-85, and a counter s ≥ 0: days·86400 + hours·3600 + minutes·60 + seconds = s, days ≥ 0, 0 ≤ hours < 24, and 0 ≤ minutes, seconds < 60. |
| `Countdown.DecomposeNegative` | christmas-shop/service/Countdown.js:78-85 | For a negative counter, every field of `Decompose` (the split of lines 82-85) is ≤ 0 and within its range. For −60 < s < 0 the fields are −1, −1, −1 and s, which do not add up to s. |
| `Countdown.Countdown.constructor` | christmas-shop/service/Countdown.js:41-75 | With a display missing, the counter stays 0 and no interval runs. Otherwise the interval runs and the counter is ⌊(target − now)/1000⌋. |
| `Countdown.Countdown.Start` | christmas-shop/service/Countdown.js:62-75 | With a display missing nothing changes. Otherwise the counter is set to the floored seconds and the interval starts. |
| `Countdown.Countdown.Tick` | christmas-shop/service/Countdown.js:77-93 | The counter goes down by exactly 1. The displays show the split of the old counter. The interval stays set exactly when the old counter was ≥ 0. |
| `Modal.Stars` | christmas-shop/service/Modal.js:168-183 | A rating always gives exactly five stars. |
| `Modal.LitPrefixCount` | christmas-shop/service/Modal.js:173-176 | When the lit stars are exactly the first k, k stars are lit. |
| `Modal.StarsShape` | christmas-shop/service/Modal.js:168-183 | Star i is lit exactly when i < clamp(⌊rating/100⌋, 0, 5). So the lit stars form a prefix of that length. |
| `Modal.RatingToStars` | christmas-shop/service/Modal.js:168-183 | The loop produces exactly the five stars of the rating. |
| `Modal.BlocksPerEntry` | christmas-shop/service/Modal.js:132-163 | There is one superpower block per entry. Block i is `SuperpowerToBlock` (the model of `#superpowerToTemplate`) of entry i: its name, its rating and the rating's stars. |
| `Modal.SuperpowersToBlocks` | christmas-shop/service/Modal.js:132-142 | The loop produces exactly the blocks of the entries, in entry order. |
| `Modal.Modal.constructor` | christmas-shop/service/Modal.js:36-52 | The body class is not touched: the modal starts opened or closed as the page's markup has it. The picture and text are the page's own. |
| `Modal.Modal.Show` | christmas-shop/service/Modal.js:82-94 | Without the picture or text element nothing changes. Otherwise the modal is opened, the picture source is the meta's picture, and the text is `MetaToText` of the meta (the model of `#metaToTemplate`): the meta's style key, category, name, description and superpower blocks. |
| `Modal.Modal.Hide` | christmas-shop/service/Modal.js:96-98 | The opened mark is cleared whatever it was, so hiding twice equals hiding once. |
| `Modal.Modal.ClickHandler` | christmas-shop/service/Modal.js:54-77 | It can only run when the modal element exists, since only then is the listener attached. The modal closes exactly when the click is on the backdrop, or on an element carrying the close class or on a child of one. Any other click changes nothing. |

## Left out

- The `fetch('gifts.json')` request and its JSON parsing in `load`. These are network I/O, so `Load` receives the parsed list. A failed fetch is not modelled.
- `Math.random` and the engine's sorting algorithm behind `random`. The comparator is replaced by a sequence of draws. The model proves that every draw sequence gives a permutation and that every permutation is reachable. Nothing is said about the distribution.
- `encodeURI(JSON.stringify(…))` and `JSON.parse(decodeURI(…))`. The payload of a card is the meta record itself, so the round trip is taken to be exact.
- HTML template text, `innerHTML`, `closest`, `classList`, `preventDefault` and image `src` strings. Rendered cards are their meta records. The modal's text is the values it displays. The body class is a flag.
- `Number(...)` on ratings. Ratings are integers, and non-numeric ratings (NaN) are not modelled.
- Key order. `Object.values` and `Object.entries` are taken to list the superpowers as live, create, love, dream, the order of the record type.
- `Catalog.Gifts.Load`: calling `load` a second time attaches a second set of listeners, so later clicks run the callback twice. The model keeps one flag for "listeners attached" and runs the handler once per click.
- `Catalog.Gifts.ClickHandler`: models one call of the handler on a region. The model does not track which region a card sits in, or whether the clicked card is one the catalog rendered.
- `#clickHandler` (Gifts.js:257-258): a click inside a region but outside any card makes `closest` return `null`, and `getAttribute` on it throws a TypeError inside the listener. The model follows the code: `Fail(NullCard)`, with no callback.
- `bestAmount` is an integer. A fractional value, which `slice` would truncate, is not modelled.
- `setInterval`/`clearInterval` and the one-second timing. A tick is a call to `Tick`, which requires a running interval. "Cleared" is the `running` flag becoming false. The interval handle is not modelled.
- `Modal.Modal.ClickHandler`: the TypeError that `e.target.parentElement` would raise for a target without a parent is not modelled. Inside the modal every target has a parent.
- `Slider.js`, `Burger.js`, `Tabs.js` and `Up.js`. They measure layout in floating point (computed styles, widths, media queries, scroll position) or only toggle classes on events.
- `vite.config.js`, `christmas-shop/vite.config.js` and `christmas-shop/app.js`. These are build configuration and start-up code. `app.js` constructs `Gifts` without a configuration, which would fail at the destructuring in the constructor. The wiring of the activation callback to `Modal.show` is not part of this model.
