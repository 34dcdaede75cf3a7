# Portfolio site scripts, modelled in Dafny

This project models the client-side logic of a personal portfolio website. The site is a
set of static pages driven by six browser scripts:

- `scripts/main.js` holds the shared utilities and page-wide widgets: the read-time
  estimate, URL-parameter lookup, the mobile menu, the theme toggle and the loading overlay.
- `scripts/gallery.js` holds the image grid and the lightbox, with wrap-around previous/next
  navigation and keyboard control.
- `scripts/starfield.js` holds the animated 3D starfield background.
- `scripts/blog.js` holds the blog listing with its case-insensitive tag filter.
- `scripts/blog-template.js` holds the single-post page: id lookup, the not-found view and
  the share links.
- `scripts/contact.js` holds the contact form: e-mail validation, the order of the checks and
  the submit button's loading state.

Each script is one module: `Common`, `Gallery`, `Starfield`, `Blog`, `BlogTemplate` and
`Contact`. Two modules support them:

- `JsRuntime` states the JavaScript built-ins the scripts rely on, each once:
  - the `\s` whitespace class, `trim` and `split(/\s+/)`;
  - ASCII `toLowerCase`;
  - the truncating `%` operator;
  - decimal number formatting.
- `SiteData` holds the records loaded from the JSON files (`Post`, `Image`) and the result of a
  fetch (`Loaded(items)` or `LoadFailed`).

Pure computations are functions with lemmas. Pages whose elements the scripts change in place
are classes:

- A `bool` field records whether an element carries a CSS class such as `hidden`, `active` or
  `dark`.
- A `const has...` flag records whether the page contains an optional element at all.
- Each handler is a method whose `modifies` clause names the fields it changes.

The starfield keeps its star pool in an `array<Star>`, which each frame updates in place.

These calls are parameters of the model rather than part of it:

- browser randomness (`Math.random`, and `Math.cos`/`Math.sin` of a random angle);
- `encodeURIComponent`, `decodeURIComponent` and the locale date formatting;
- window sizes and mouse coordinates;
- the results of `fetch`.

## Model

| member | source | states |
|---|---|---|
| JsRuntime.Trim | scripts/main.js:141 | the trimmed text is the input with its leading and trailing whitespace cut off: a contiguous piece of the input with only whitespace before and after it and none at its own ends; it is empty exactly when the text is all whitespace |
| JsRuntime.SplitOnSpaces | scripts/main.js:141 | `split(/\s+/)` yields at least one piece, and no piece contains whitespace |
| JsRuntime.SplitCountsRuns | scripts/main.js:141 | the number of pieces is one more than the number of whitespace runs |
| JsRuntime.SplitTrimmedIntoWords | scripts/main.js:141 | splitting non-empty trimmed text gives only non-empty pieces |
| JsRuntime.LowerIdempotent | scripts/blog.js:116 | lower-casing twice is lower-casing once |
| JsRuntime.Rem | scripts/gallery.js:138-144 | the truncating remainder lies strictly between `-b` and `b`, differs from `a` by a multiple of `b`, and is non-negative for non-negative `a` and non-positive for negative `a` |
| JsRuntime.Decimal | scripts/main.js:143 | the decimal form of a number is a non-empty run of digits with no leading zero, except the single `0` |
| JsRuntime.DecimalRoundTrip | scripts/main.js:143 | the decimal digits of a number are digits and parse back to the number |
| Common.WordCount | scripts/main.js:141 | the word count is at least 1, is one more than the whitespace runs inside the trimmed text, and is 1 for blank text |
| Common.ReadMinutes | scripts/main.js:140-142 | the minutes are the ceiling of words/200, i.e. the least `m >= 1` with `words <= 200*m` |
| Common.CalculateReadTime | scripts/main.js:139-144 | the caption is a run of digits without a leading zero that parses to the minutes, followed by `" min read"` |
| Common.ReadMinutesAtBoundary | scripts/main.js:140-142 | 200 words read in one minute, 201 words in two |
| Common.BlankTextReadsInOneMinute | scripts/main.js:141-142 | empty or all-whitespace text still reports one minute |
| Common.WordsAreNonEmpty | scripts/main.js:141 | after trimming, every counted piece is a real word |
| Common.FindKey | scripts/main.js:149-150 | finds the leftmost `?name=` or `&name=` at or after the start, or reports that there is none |
| Common.ValueRun | scripts/main.js:149 | the captured value is the longest prefix without `&` or `#` |
| Common.PlusToSpace | scripts/main.js:151 | every `+` becomes a space, and every other character is kept |
| Common.GetUrlParameter | scripts/main.js:147-151 | when neither `?name=` nor `&name=` occurs the parameter is the empty string; otherwise it is read from the leftmost occurrence of the key |
| Common.ValueRunUnique | scripts/main.js:149 | the capture is the only prefix with its three defining properties |
| Common.ParameterIsFirstValue | scripts/main.js:147-151 | the parameter is the decoded value at the leftmost key occurrence, up to the next `&`/`#`, with `+` read as a space |
| Common.MobileMenu.ClickButton | scripts/main.js:12-19 | toggles `hidden` on the menu, and toggles bars/times on the icon when there is one; an icon that agreed with the menu still agrees |
| Common.MobileMenu.ClickDocument | scripts/main.js:23-34 | a click outside both the menu and the button closes an open menu and shows the bars; any other click changes nothing |
| Common.ClickButtonTwice | scripts/main.js:12-19 | two clicks on the button restore the menu and its icon |
| Common.ThemeToggle.Load | scripts/main.js:39-53 | a saved `'light'` removes `dark` and shows the sun; any other saved value leaves the page as it is |
| Common.ThemeToggle.Click | scripts/main.js:55-69 | flips `dark`; with an icon, the icon and the stored theme follow the new state, so stored `'dark'` holds exactly when `dark` does; without an icon nothing else changes |
| Common.RemoveFirst | scripts/main.js:212-214 | removal leaves a list without the overlay unchanged |
| Common.ShowLoadingIdempotent | scripts/main.js:195-210 | showing the overlay twice is the same as showing it once |
| Common.ShowLoadingCounts | scripts/main.js:195-216 | showing leaves exactly one overlay when there was at most one before; hiding removes one overlay if there was any; no other element is added or removed |
| Common.Document.ShowLoading | scripts/main.js:195-216 | the element list after `showLoading(show)` is the one the specification function gives |
| Gallery.NextIndex | scripts/gallery.js:143-146 | the next index stays in range and wraps from the last image to the first |
| Gallery.PrevIndex | scripts/gallery.js:137-140 | the previous index stays in range and wraps from the first image to the last |
| Gallery.PrevUndoesNext | scripts/gallery.js:137-146 | previous after next, and next after previous, both return to the same image |
| Gallery.NextTimesWithinLap | scripts/gallery.js:143-146 | `k <= n` presses of next move `k` places forward, wrapping once past the end |
| Gallery.NextCycles | scripts/gallery.js:143-146 | `n` presses of next over `n` images return to the start |
| SiteData.DescriptionText | scripts/gallery.js:132 | the shown description is the image's description when it has a non-empty one, and empty exactly when it has none or an empty one |
| Gallery.RenderItems | scripts/gallery.js:61-69 | one grid item per image, in order; item `k` opens the lightbox at `k` and shows the url, the title and the description or `''` |
| Gallery.GalleryPage.DisplayLightboxImage | scripts/gallery.js:113-134 | an in-range index shows that image; any other index leaves the lightbox as it was |
| Gallery.GalleryPage.OpenLightbox | scripts/gallery.js:85-97 | sets the index; with a lightbox, shows the image, opens the lightbox and locks body scrolling |
| Gallery.GalleryPage.CloseLightbox | scripts/gallery.js:100-110 | hides the lightbox and restores body scrolling; without a lightbox nothing changes |
| Gallery.GalleryPage.PrevImage | scripts/gallery.js:137-140 | moves to the previous index with wrap-around and shows that image |
| Gallery.GalleryPage.NextImage | scripts/gallery.js:143-146 | moves to the next index with wrap-around and shows that image |
| Gallery.GalleryPage.KeyDown | scripts/gallery.js:186-200 | while the lightbox is open, Escape closes it and the arrow keys go to the previous/next image; otherwise, or for other keys, nothing changes |
| Gallery.GalleryPage.DisplayGallery | scripts/gallery.js:46-69 | an empty list hides the grid and shows "no images"; a non-empty list shows the grid with its items; without a grid nothing changes |
| Gallery.GalleryPage.LoadGallery | scripts/gallery.js:10-43 | loading hides the loading indicator; a failure shows "no images" with the error text; an empty list shows "no images"; otherwise the gallery is displayed |
| Gallery.GalleryPage.ClickItem | scripts/gallery.js:61-62 | clicking grid item `k` opens the lightbox on image `k` |
| Starfield.PlanarPosition | scripts/starfield.js:42-47 | a random placement lies within the disc of radius max(width, height) |
| Starfield.StarColor | scripts/starfield.js:55-64 | the chosen colour is one of the five palette entries |
| Starfield.CreateStar | scripts/starfield.js:41-53 | a new star has depth in [0, 2000), size in [0, 2), speed in [0.2, 0.7), a palette colour and a position inside the disc |
| Starfield.UpdateStar | scripts/starfield.js:77-89 | the star moves `speed*0.5*5` closer, or respawns at depth 2000 at a fresh position once it reaches 0; size, colour and speed never change; depth stays in (0, 2000] |
| Starfield.UpdateKeepsPool | scripts/starfield.js:77-89 | an update keeps a star within the pool's ranges, with positive depth |
| Starfield.TwoStepExample | scripts/starfield.js:79-88 | a star at depth 5 with speed 1 reaches 2.5, then respawns at 2000 |
| Starfield.Step | scripts/starfield.js:79 | a star advances exactly when its speed is positive, and a pool star moves between 0.5 and 1.75 units per frame |
| Starfield.Scale | scripts/starfield.js:93 | the perspective scale is the focal length 1000 over the distance from the eye, in (0, 1] for depths from 0 up, with 1 at depth 0 and 1/3 at 2000 |
| Starfield.Project | scripts/starfield.js:93-95 | at depth 0 the planar offset is drawn unscaled; in front of the viewer a star is drawn no farther from the pointer-shifted centre than its offset, on the same side |
| Starfield.ScaleDecreasing | scripts/starfield.js:93 | farther stars are drawn smaller |
| Starfield.Opacity | scripts/starfield.js:104 | opacity is within [0, 1] over [0, 2000], 0 at 2000 and capped at 1 from depth 0 down |
| Starfield.OpacityNonIncreasing | scripts/starfield.js:104 | farther stars are never more opaque |
| Starfield.DrawStar | scripts/starfield.js:91-138 | nothing is drawn off canvas; a glow appears exactly below depth 500 and a speed line exactly below 200, the line starting at the projection one step farther back |
| Starfield.StreakStartsAtPreviousPosition | scripts/starfield.js:125-129 | after an update, a speed line starts where the star was projected before the update |
| Starfield.DrawnStarBounds | scripts/starfield.js:103-104 | a drawn star of the pool has opacity in [0, 1] and a radius in [0, size] |
| Starfield.Starfield.constructor | scripts/starfield.js:7-25 | with a canvas: sized to the window, centred, mouse at 0, and a pool of exactly 800 stars, each one created and then moved by the first animation frame; without one the object is inert |
| Starfield.Starfield.ResizeCanvas | scripts/starfield.js:27-32 | the canvas takes the window size, the centre is half of it, and the pool is untouched |
| Starfield.Starfield.CreateStars | scripts/starfield.js:34-39 | the pool is replaced by exactly 800 stars, star `i` created from draw `i` |
| Starfield.Starfield.MouseMove | scripts/starfield.js:71-74 | the mouse offset is the pointer's distance from the centre, relative to the centre |
| Starfield.Starfield.Animate | scripts/starfield.js:140-155 | every star, in pool order, is updated in place and then drawn with the current view; the pool stays within its ranges |
| BlogTemplate.FindPost | scripts/blog-template.js:24 | returns the index of the first post with the id, or none when no post has it |
| BlogTemplate.PostOutcome | scripts/blog-template.js:7-40 | an empty id or a load failure gives not-found; not-found on a loaded list means no post has the id; a shown post is in the list and has the id |
| BlogTemplate.EmptyIdIgnoresList | scripts/blog-template.js:8-13 | a missing id gives not-found whatever the post list holds |
| BlogTemplate.FirstMatchIsShown | scripts/blog-template.js:24-33 | the post shown is the first one with the requested id |
| BlogTemplate.PageTitle | scripts/blog-template.js:53-54 | the title ends with `" - Jo's Portfolio"` and the post title can be read back from it |
| BlogTemplate.FirstAmpAfter | scripts/blog-template.js:129 | the first `&` after an `&`-free encoded field is the separator |
| BlogTemplate.ShareLinksFor | scripts/blog-template.js:121-145 | each share link is its service's prefix followed by fields that read back: the encoded address at the end of all three, and the encoded title after the Twitter prefix, before `&url=` |
| BlogTemplate.ShareLinksDetermineFields | scripts/blog-template.js:129 | the Twitter link determines the encoded title and the encoded address |
| BlogTemplate.RenderPost | scripts/blog-template.js:43-97 | the document title and `#blogTitle` are the page title; one tag badge per tag, in order |
| BlogTemplate.PostPage.ShowPostNotFound | scripts/blog-template.js:110-118 | reaches the not-found view, and changes nothing once it is there |
| BlogTemplate.PostPage.DisplayBlogPost | scripts/blog-template.js:43-97 | shows the content and hides not-found; renders the post when `#blogTitle` exists, and throws right after setting the document title when it does not |
| BlogTemplate.PostPage.LoadBlogPost | scripts/blog-template.js:7-40 | the page ends in the view the outcome gives: not-found, the rendered post, or not-found again when rendering throws |
| Contact.ValidEmailMatchesPattern | scripts/contact.js:67-70 | every accepted address matches `^[^\s@]+@[^\s@]+\.[^\s@]+$` |
| Contact.PatternMatchIsValidEmail | scripts/contact.js:67-70 | every address the pattern matches is accepted |
| Contact.EmailCheckMatchesPattern | scripts/contact.js:67-70 | the check accepts exactly the addresses the pattern matches |
| Contact.IsValidEmail | scripts/contact.js:67-70 | an accepted address has exactly one `@` and no whitespace |
| Contact.DomainNeedsInnerDot | scripts/contact.js:68 | `a@b`, `a@b.` and `a@.` are rejected |
| Contact.PlainAddressIsValid | scripts/contact.js:68 | `a@b.c` is accepted |
| Contact.SecondAtIsRejected | scripts/contact.js:68 | `a@b@c.d` is rejected |
| Contact.Validate | scripts/contact.js:24-33 | a missing name, e-mail or message stops the submission first; then an invalid e-mail stops it; otherwise it passes |
| Contact.SubjectIsOptional | scripts/contact.js:16-27 | the subject takes no part in validation |
| Contact.ContactForm.SetSubmitLoading | scripts/contact.js:73-89 | loading disables the button, shows "Sending..." and the spinner; the reverse shows "Send Message"; without a button nothing changes |
| Contact.ContactForm.ShowError | scripts/contact.js:121-140 | the error block shows the message, and an error notification is added |
| Contact.ContactForm.Submit | scripts/contact.js:12-37 | a failed check shows its message and leaves the button alone; a passing one hides both messages and enters the loading state |
| Contact.ContactForm.CompleteSubmission | scripts/contact.js:51-62 | after the delay: the success block and notification are shown, the form is reset, and the button is idle again |
| Contact.SubmitAndComplete | scripts/contact.js:12-62 | a passing submission always ends with the button idle |
| Contact.InputField.Focus | scripts/contact.js:147-149 | focus adds `focused` |
| Contact.InputField.Blur | scripts/contact.js:151-155 | blur removes `focused` only from an empty field |
| Blog.HasTag | scripts/blog.js:116 | a post that carries the filter tag exactly matches it, and a post without tags matches nothing |
| Blog.FilterByTag | scripts/blog.js:115-117 | a post is kept exactly when one of its tags equals the filter ignoring case; the result is a subsequence of the list |
| Blog.FilterBlogs | scripts/blog.js:111-120 | exactly `'all'` gives the whole list; any other tag gives the case-insensitive filter; the result is always a subsequence |
| Blog.FilterIdempotent | scripts/blog.js:115-118 | filtering twice by the same tag is filtering once |
| Blog.FilterAppend | scripts/blog.js:115-117 | filtering distributes over concatenation, so kept posts stay in list order |
| Blog.FilterExtremes | scripts/blog.js:115-117 | when every post carries the tag nothing is dropped; when none does, nothing is kept |
| Blog.FilterIgnoresCase | scripts/blog.js:116 | tags that differ only in letter case select the same posts |
| Blog.AllIsCaseSensitive | scripts/blog.js:112-117 | only the exact `'all'` shows everything; `'ALL'` is an ordinary tag filter |
| Blog.RenderCard | scripts/blog.js:61-93 | a card links to `blog-template.html` with the query string `?id=<id>`, shows the title as heading and image text, the formatted date, the description and the tags |
| Blog.RenderCards | scripts/blog.js:60-95 | one card per post, in order, each linking to `blog-template.html?id=<id>` |
| Blog.IdQueryReadsBack | scripts/main.js:147-151 | the query `?id=<id>` yields `id` back when the id needs no escaping |
| Blog.CardOpensItsPost | scripts/blog.js:61 | following a card opens the first post with the card's id on the post page, which is the card's own post when no earlier post shares its id |
| Blog.BlogPage.DisplayBlogs | scripts/blog.js:45-95 | an empty list hides the grid and shows "no posts"; a non-empty one shows the grid with its cards; without a grid nothing changes |
| Blog.BlogPage.LoadBlogs | scripts/blog.js:9-42 | loading hides the loading indicator; a failure shows "no posts" with the error text and keeps the old list; a load replaces the list and displays it; without a grid a non-empty load changes neither the grid nor "no posts" |
| Blog.BlogPage.ClickFilter | scripts/blog.js:127-137 | afterwards exactly the clicked button is active, and the posts of its filter are displayed; the loaded list is unchanged |
| Blog.ClickFilterTwice | scripts/blog.js:111-137 | re-applying the same filter shows the same cards |

## Left out

- Network access, timers and asynchrony. A `fetch` becomes its result, passed in.
  `Contact.ContactForm.CompleteSubmission` stands for what runs after the 1.5-second delay.
  The fade-in animations, the five-second auto-hide of the contact messages and the removal of
  notifications after three seconds are not modelled.
- Canvas drawing. A star's draw call becomes a `Sprite` value (disc, glow and speed line).
- The nebula clouds of `drawNebula` depend on the wall clock and only paint gradients, so they
  are not modelled. Neither is the `requestAnimationFrame` loop: one call of `Animate` is one frame.
- Floating point. The starfield is modelled over exact reals and the gallery index over integers.
- `Gallery.GalleryPage.PrevImage`: requires a non-empty image list. The source would divide by
  zero there and set the index to `NaN`.
- `Gallery.GalleryPage.NextImage`: requires a non-empty image list, for the same reason.
- `Gallery.GalleryPage.KeyDown`: requires a non-empty image list for the arrow keys while the
  lightbox is open, for the same reason.
- `Starfield.Starfield.MouseMove`: requires a non-zero centre. On a zero-sized window the source
  divides by zero and gets `Infinity` or `NaN`.
- `Math.random`, `Math.cos` and `Math.sin` are passed in as sample values. The cosine and sine
  of a placement only need to satisfy cos² + sin² = 1.
- `encodeURIComponent`, `decodeURIComponent` and `toLocaleDateString` are function parameters
  and have no definition here. The `URIError` that decoding can throw is not modelled.
- `toLowerCase` is modelled for ASCII letters only. Unicode case mapping is not.
- `Common.GetUrlParameter`: requires a name without regular-expression metacharacters, because
  the code escapes only the first `[` and the first `]`. Every caller passes `'id'`.
- `Blog.CardOpensItsPost`: covers only ids that need no URL escaping. The card link inserts the
  id without encoding, so an id containing `&`, `#` or `+` does not survive the round trip.
- The smooth scrolling of anchor links, the navbar background on scroll and the
  IntersectionObserver fade-in in `scripts/main.js` only change styles. They are not modelled.
- `copyToClipboard` and the Copy Link button of the post page need the clipboard, so they are
  left out. Syntax highlighting by `hljs` is left out for the same kind of reason.
- Notifications in general need the DOM and timers. They are kept only as the list of messages
  that the contact form has shown.
- HTML produced through `innerHTML` is modelled by its content: the tag badges, cards and grid
  items as values, and the error text of "no posts" or "no images" as a flag. The markup is not.
- Some pages' optional text elements are assumed present whenever their container is:
  - the post page's thumbnail, title, date, read time, tags and body;
  - the lightbox's image, title and description;
  - the contact form's label, spinner, success and error blocks.
  The one missing element that matters, `#blogTitle`, is modelled: it makes `displayBlogPost` throw.
- A filter button without `data-filter` passes `null` to `filterBlogs`, which then throws as soon as
  some post has a tag. This is not modelled: every button has a string value.
- The outside-click handler of the mobile menu throws when the menu exists without its button.
  Only pages holding both are modelled.
- The `catch` branch of the contact form's submit handler cannot be reached, because the
  simulated delay never fails. It is not modelled.
- The JSON records are assumed well formed: ids are strings and tags are lists of strings. An
  exception that malformed data would raise while rendering is not modelled.
