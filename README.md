# Portfolio view-state handlers, modelled in Dafny

The site's scripts are browser event handlers. Each one wraps a small
piece of decision logic over view state. This project leaves the page
itself out and keeps only that state: flags, strings and measured
offsets. Each controller is a class, and each event handler is a method
on it:

- `Navigation` (the `initNavigation` handlers of `assets/js/main-clean.js`).
  The scroll handler sets each navigation link's active flag with an
  interval test on the section's offsets, then sets the navigation bar's
  shadow with a threshold. The hamburger and link clicks open and close
  the mobile menu.
- `Theme` holds two controllers:
  - `ThemeToggle` is `initThemeToggle` in main-clean.js. It defaults to
    'light' and flips by re-reading the document attribute.
  - `ThemeManager` is from `assets/js/theme.js`. It defaults to 'dark'
    and flips its own `currentTheme` field.
- `Reveal` (`initScrollEffects`). Each observed card carries a flag that
  only goes from hidden to visible, driven by intersection entries.
- `Projects` holds the two static project tables, the lookup by id, the
  status badge and the rendering of a record. Rendering produces a
  structured view with one item per list entry instead of markup.
- `Modal` holds two modal controllers:
  - `CleanModal` is main-clean.js. Escape closes it only while it is
    active, and the overlay also closes it.
  - `ProjectModal` is `assets/js/projects.js`. Escape closes it
    unconditionally, and a click closes it only when it lands on the
    backdrop.
- `Cursor` (`SparkleTrail` of `assets/js/cursor.js`) is a rate limiter.
  A mouse move leaves a sparkle only on a desktop-width window, and only
  at least 25 ms after the previous sparkle.

Inputs that the browser supplies are method parameters:
- the scroll offset, and each section's id, top and height;
- intersection entries;
- the key pressed, and whether a click landed on the backdrop;
- the window width and the clock reading `Date.now()`;
- the contents of local storage at load time;
- whether each optional element exists.

Behaviour of the code worth noting:
- The navigation test is `top-100 < scrollY <= top-100+height`. It is
  strict at the top of the range and inclusive at the bottom.
- Every section is tested on its own, with no tie-break, so
  overlapping ranges leave several links active. Only sections that
  share one id overwrite each other (the later one wins).
- The reveal observer never stops observing a revealed element. This
  makes no difference to the flags, because reveal is idempotent.
- `closeModal` sets the page overflow to `''`. It does not restore the
  overflow that was there before the modal opened (`OpenThenClose`).
- Themes are arbitrary strings. Storage may hold any value, and both
  `StoredOr` fallbacks treat an empty string like a missing slot (the
  `||` operator). main-clean.js's initialisation does not write storage.
  The invariant it keeps is therefore "the attribute is what a reload
  would display" (`ThemeToggle.Valid`), rather than "attribute == stored".

## Model

| member | source | states |
|---|---|---|
| `Navigation.InRange` | assets/js/main-clean.js:47-50 | the interval test `offsetTop-100 < scrollY <= offsetTop-100+offsetHeight`; a section of height 0 or less is never active; its use per link is stated by `ScrollLinksAt` |
| `Navigation.ScrollLinks` | assets/js/main-clean.js:45-55 | the scroll handler only updates links that exist: the set of links is the same afterwards |
| `Navigation.LastWithId` | assets/js/main-clean.js:45-55 | finds the last section with a given id in document order, or proves that none has it; this is the section whose test decides that link |
| `Navigation.ScrollLinksAt` | assets/js/main-clean.js:45-55 | after a scroll, a link with no section keeps its flag; any other link is active exactly when `offsetTop-100 < scrollY <= offsetTop-100+offsetHeight` holds for the last section of its id |
| `Navigation.EachSectionIndependent` | assets/js/main-clean.js:45-55 | with distinct ids, each section's link is active exactly when that section's interval test holds, with no tie-break; a non-matching link is cleared |
| `Navigation.OverlapLeavesBothActive` | assets/js/main-clean.js:50-54 | two sections whose ranges both contain the offset both end up with active links |
| `Navigation.BoundaryExample` | assets/js/main-clean.js:47-50 | for ranges (0,500] and (500,1200], offset 600 activates only the second section and offset 500 only the first |
| `Navigation.NavBar.constructor` | assets/js/main-clean.js:19-21 | the page as loaded: the links, and whether the hamburger, the menu and the navigation bar (main-clean.js:58) exist; nothing active, no shadow, and the hamburger and menu in step |
| `Navigation.NavBar.OnScroll` | assets/js/main-clean.js:42-64 | links become the fold of the interval test over the sections; the shadow is on iff `scrollY > 50` (left as it was when there is no navigation bar); menu flags unchanged |
| `Navigation.NavBar.HamburgerClick` | assets/js/main-clean.js:24-29 | flips the hamburger, then the menu if it exists; keeps the two in step |
| `Navigation.NavBar.LinkClick` | assets/js/main-clean.js:32-37 | clears both the hamburger flag and the menu flag, for whichever elements exist |
| `Theme.StoredOr` | assets/js/main-clean.js:73 | the stored theme or, when it is missing or empty, the fallback (also theme.js:5): the result is the fallback or a non-empty stored value, and a non-empty stored value always wins; `ToggledThemeSurvivesReload` states the reload round trip |
| `Theme.CleanNext` | assets/js/main-clean.js:80-81 | the main-clean toggle of the attribute; always 'light' or 'dark'; `CleanNextFlips` states which |
| `Theme.ManagerNext` | assets/js/theme.js:19 | the theme.js toggle of the field; always 'light' or 'dark'; `ManagerNextFlips` states which |
| `Theme.CleanNextFlips` | assets/js/main-clean.js:80-81 | the main-clean toggle always yields 'light' or 'dark', and yields 'dark' exactly when the attribute was 'light' |
| `Theme.ManagerNextFlips` | assets/js/theme.js:19 | `toggleTheme` always yields 'light' or 'dark', and yields 'light' exactly when the field was 'dark' |
| `Theme.ToggleInvolution` | assets/js/theme.js:19 | on {light, dark} toggling twice gives back the start, for both controllers |
| `Theme.TogglesCompared` | assets/js/main-clean.js:81 | compared with theme.js:19, the two toggles agree on 'light'/'dark'; on every other value main-clean gives 'light' and theme.js gives 'dark' |
| `Theme.ToggledThemeSurvivesReload` | assets/js/main-clean.js:73 | a stored toggled theme is read back unchanged on reload, whatever the default |
| `Theme.ThemeToggle.constructor` | assets/js/main-clean.js:72-76 | the attribute is the stored value, or 'light' when nothing (or '') is stored; storage is untouched |
| `Theme.ThemeToggle.Click` | assets/js/main-clean.js:79-85 | flips the attribute read back from the document and stores it, so attribute == stored slot; no-op without the button; keeps `Valid` |
| `Theme.ThemeManager.constructor` | assets/js/theme.js:3-16 | `currentTheme` is the stored value or 'dark' and is set as the attribute; the listener exists only if the button exists |
| `Theme.ThemeManager.ToggleTheme` | assets/js/theme.js:18-21 | from any state, the new field is `ManagerNext(old field)` and field, attribute and storage are equal; the attribute is never read |
| `Theme.ThemeManager.Click` | assets/js/theme.js:15 | a click toggles only when the listener was registered |
| `Theme.ManagerToggleTwice` | assets/js/theme.js:19-21 | two toggles from 'light' or 'dark' return the field to its start, with attribute and storage holding it |
| `Reveal.Revealed` | assets/js/main-clean.js:99-104 | the callback folded over its entries; keeps one flag per element; `RevealedAt` states each flag's value |
| `Reveal.RevealedAt` | assets/js/main-clean.js:98-104 | after the callback, an element is visible iff it was visible already or some entry reported it intersecting |
| `Reveal.RevealMonotone` | assets/js/main-clean.js:100-103 | a visible element is never hidden again |
| `Reveal.NonIntersectingChangesNothing` | assets/js/main-clean.js:100 | entries that are not intersecting leave every flag as it was |
| `Reveal.RevealIdempotent` | assets/js/main-clean.js:98-104 | handling the same entries twice equals handling them once |
| `Reveal.RevealBatches` | assets/js/main-clean.js:98-104 | two callbacks in a row equal one callback with both batches concatenated |
| `Reveal.RevealObserver.constructor` | assets/js/main-clean.js:108-113 | every observed element starts hidden |
| `Reveal.RevealObserver.OnEntries` | assets/js/main-clean.js:99-104 | the new flags are `Revealed(old flags, entries)` |
| `Projects.Includes` | assets/js/main-clean.js:248 | `includes` is true iff the substring occurs at some position |
| `Projects.StatusBadge` | assets/js/main-clean.js:248 | the badge is `status-progress` iff the status contains "Progress", else `status-live` |
| `Projects.Items` | assets/js/projects.js:154-175 | `map` yields one item per entry, with the same text, in table order |
| `Projects.ItemsRoundTrip` | assets/js/projects.js:154-175 | reading the texts back from the rendered items gives the original list |
| `Projects.RenderClean` | assets/js/main-clean.js:245-279 | the main-clean modal body: title, status and description as in the record, and each of the four lists reads back as the record's list in order; the badge is `StatusBadge(status)`, so `status-progress` iff the status contains "Progress" (main-clean.js:248) |
| `Projects.RenderModal` | assets/js/projects.js:139-179 | the projects.js modal body: title, status and description as in the record, and each of the four lists reads back as the record's list in order; `RenderKeepsLists` adds that there is no badge |
| `Projects.RenderKeepsLists` | assets/js/main-clean.js:245-279 | both renderings keep title, status, description and all four lists in order; only main-clean.js gives the status a badge class, and it is `StatusBadge(status)` |
| `Projects.LookupFindsExactlyProjectIds` | assets/js/projects.js:136-137 | in either table, a lookup finds a record exactly for the four ids api-integration, rentable, chat and events, and for no other string |
| `Projects.CleanProjects` | assets/js/main-clean.js:126-231 | the main-clean table has exactly the ids api-integration, rentable, chat and events |
| `Projects.ModalProjects` | assets/js/projects.js:34-133 | the projects.js table has exactly the ids api-integration, rentable, chat and events |
| `Projects.ApiIntegrationInProgress` | assets/js/main-clean.js:129 | in main-clean.js, "api-integration" shows the in-progress badge |
| `Modal.CleanModal.constructor` | assets/js/main-clean.js:121-124 | the modal starts closed with its body untouched and the page's overflow as it was; the close-button and overlay listeners exist only when those elements do (main-clean.js:292-293) |
| `Modal.CleanModal.Show` | assets/js/main-clean.js:242-283 | an unknown id changes nothing; a known id renders its record, sets the modal active and the overflow to 'hidden' |
| `Modal.CleanModal.Close` | assets/js/main-clean.js:287-290 | sets the modal inactive and the overflow to ''; the body is kept |
| `Modal.CleanModal.KeyDown` | assets/js/main-clean.js:296-300 | Escape closes the modal only while it is active; any other key, or a closed modal, changes nothing |
| `Modal.CleanModal.CloseButtonClick` | assets/js/main-clean.js:292 | closes the modal when the close button exists |
| `Modal.CleanModal.OverlayClick` | assets/js/main-clean.js:293 | closes the modal when the overlay exists |
| `Modal.ProjectModal.ShowProject` | assets/js/projects.js:135-183 | an unknown id changes nothing; a known id renders its record, sets the modal active and the overflow to 'hidden' |
| `Modal.ProjectModal.CloseModal` | assets/js/projects.js:185-188 | sets the modal inactive and the overflow to '' from any state |
| `Modal.ProjectModal.KeyDown` | assets/js/projects.js:29-31 | Escape closes unconditionally, even when the modal is already closed |
| `Modal.ProjectModal.ModalClick` | assets/js/projects.js:24-26 | a click closes the modal only when its target is the modal element itself |
| `Modal.ProjectModal.CloseButtonClick` | assets/js/projects.js:23 | the close button closes the modal |
| `Modal.ProjectModal.constructor` | assets/js/projects.js:3-32 | the modal starts closed; close listeners exist only when the close button does |
| `Modal.CloseTwiceIsCloseOnce` | assets/js/projects.js:185-188 | closing twice leaves the same state as closing once |
| `Modal.EscapeOnClosedModal` | assets/js/projects.js:29-31 | Escape on a closed modal leaves a 'hidden' overflow alone in main-clean.js and clears it in projects.js |
| `Modal.OpenThenClose` | assets/js/projects.js:181-188 | opening "chat" locks scrolling; closing leaves the modal inactive with overflow '' |
| `Cursor.SpacedApart` | assets/js/cursor.js:27-30 | any two sparkles i < j are at least 25·(j−i) ms apart |
| `Cursor.SpacedAfterStart` | assets/js/cursor.js:4-5 | the i-th sparkle comes at least 25·(i+1) ms after time 0 |
| `Cursor.SparkleTrail.constructor` | assets/js/cursor.js:3-11 | `lastSparkleTime` is 0; `isDesktop` iff `innerWidth > 1024`; listeners exist only on a desktop width |
| `Cursor.SparkleTrail.CreateSparkle` | assets/js/cursor.js:24-30 | accepted iff desktop and `now - lastSparkleTime >= 25`; on accept `lastSparkleTime := now` and one sparkle is added; on reject nothing changes; sparkles stay spaced |
| `Cursor.SparkleTrail.MouseMove` | assets/js/cursor.js:14-16 | a mouse move only sparkles on an instance whose listeners were registered |
| `Cursor.SparkleTrail.Resize` | assets/js/cursor.js:19-21 | `isDesktop` is re-measured only on an instance whose listeners were registered |
| `Cursor.NarrowThenWide` | assets/js/cursor.js:8-10 | an instance built on a narrow window never sparkles, even after a resize to desktop width |
| `Cursor.ThrottleExample` | assets/js/cursor.js:28 | moves at 1000, 1024 and 1025 ms: the first is accepted, the second rejected and the third accepted |

## Left out

- Scroll progress (assets/js/theme.js:45-52) is left out. It is a floating-point division. When `scrollHeight == clientHeight` it divides by zero and yields NaN or Infinity, because nothing guards the denominator.
- IntersectionObserver geometry (threshold 0.1, root margin -50px) is browser layout. Only the stream of `isIntersecting` entries is modelled.
- Markup is left out. Rendering yields a structured `View`. Icons, headings, CSS classes other than the status badge, style strings, and the raw interpolation into `innerHTML` are not modelled.
- Randomness and timers are left out: the sparkle offsets and sizes, the 800 ms sparkle removal, the 300 ms rotation of the theme button, and the notification timers.
- The contact form's `mailto:` link is left out. It relies on `encodeURIComponent` and on `window.location` navigation.
- Smooth anchor scrolling and the final `console.log` are left out, being DOM plumbing.
- Theme.ThemeManager.constructor: does not model what follows a failed construction. Without a toggle button, the constructor fails after applying the theme, and the load handler then never creates the scroll-progress bar (assets/js/theme.js:57-60).
- Navigation.NavBar.constructor: assumes the hamburger and the menu start inactive and the navigation bar without its shadow. `initNavigation` does not set these flags at load; they come from the page's markup and style sheet, which are not part of this model. The invariant that the hamburger and the menu are in step rests on that assumption.
- Loading main-clean.js and projects.js together is left out. Both drive `#projectModal`, `#modalBody` and the page's overflow, and both register a document-level Escape handler. Each modal controller is modelled alone, on its own copy of that state.
- Loading main-clean.js and theme.js together is left out. Each theme controller is modelled alone; together they would both handle the same button.
- Presence of the modal and the modal body is assumed. The models do not cover null elements that the source would dereference and fail on.
- The `.btn-project-details` / `.btn-details` click handlers are not separate members. They read `data-project` from the enclosing card and call `Show` / `ShowProject` with it, and a missing card is not modelled. A missing attribute becomes the id "null", which is not in the table.
- Inherited object properties are not modelled as lookup hits. An id such as "constructor" finds an inherited property, and the handler then fails while building the markup. That happens before anything is written, so the model treats such an id like any unknown id.
- Navigation.NavBar.OnScroll: keeps one link per section id. Several links with the same `href` are not modelled, and there `querySelector` touches only the first one. Section ids that are not valid in a CSS attribute selector are also not modelled, since there the lookup throws.
- Navigation.NavBar.OnScroll: offsets are integers. `pageYOffset` can be fractional in the browser.
- Cursor.SparkleTrail.CreateSparkle: takes the clock reading `Date.now()` as the parameter `now`. Sparkle coordinates are integers.
