# Portfolio site: particle field and navigation bar

A Dafny model of the two pieces of the portfolio site that hold logic of
their own:

- **The hero particle field** (`components/hero-animation.tsx`). On a canvas
  of `width` by `height`, a pool of `min(120, floor(width * height / 8000))`
  particles is created. Each particle gets a random position, radius,
  velocity, palette colour and opacity; in the dark theme the opacity is
  lower. Every animation frame moves each particle by its velocity. A
  particle that leaves the canvas wraps around: past the far edge it
  re-enters at 0, and past 0 it re-enters at the far edge itself. After the
  moves, a nested loop visits every pair `a <= b` and joins the two
  particles with a line when they are closer than 180. The line's opacity
  falls with the distance.
- **The navigation bar** (`components/navbar.tsx`). On scroll, the bar
  records whether the page has scrolled past 10. It then scans the sections
  (`#about`, `#skills`, `#projects`, `#contact`) from the last to the first.
  The first one it finds that exists and whose top is within 100 of the
  viewport becomes the highlighted entry. Near the top of the page
  (`scrollY < 100`) Home (`#`) is highlighted instead. A click on an entry
  highlights it, closes the mobile menu and looks its href up as a selector
  to scroll to it; for Home that lookup throws (see "## Findings"). Two
  buttons toggle the theme, and one toggles the mobile menu.

Modules:

- `Wrappers`: `Option`.
- `Themes` (`themes.dfy`): the theme value held by the theme provider. It is
  a string or undefined (`Option<string>`), and the toggle used by both
  theme buttons.
- `HeroAnimation` (`hero_animation.dfy`):
  - the pure formulas: pool size, the per-draw bounds, `Wrap` and line
    opacity;
  - `class Particle`, whose `Update` moves the particle in place;
  - the connection pass specification (`Connections`);
  - `class ParticleField`. Its constructor runs the creation loop, `Animate`
    is one frame and `Connect`/`ConnectRow` are the nested pair loops.
- `Navbar` (`navbar.dfy`): the nav table, the scroll-spy rule
  (`LastReached`, `ActiveAfterScroll`), the click scroll, and
  `class NavState` with the event handlers.

Inputs the browser supplies become parameters:

- Each `Math.random()` a particle consumes is a field of a `Draw` record in
  [0, 1).
- The canvas size, `window.scrollY` and the page are parameters. The page is
  a `Document`, a map from selector to the top of the element's bounding
  rectangle; a selector that is not in the map matches nothing.
- `Math.sqrt` is not modelled. The threshold `distance < 180` is tested as
  `dx*dx + dy*dy < 32400`, and `CloseWithoutSqrt` proves the two tests agree.

The model follows the code as written in three places that are easy to
misread:

- The wrap bound is closed. A coordinate that goes negative is set to
  exactly `width` (or `height`), so positions range over `[0, width]`.
- The inner connection loop starts at `b = a`. Every particle is therefore
  paired with itself at distance 0 and always gets a line. A full pass makes
  `N(N+1)/2` pair tests, which is 7260 at the cap of 120.
- A canvas with less than 8000 units of area gets no particles.

A theme change re-runs the effect that builds the field; here that means a
new `ParticleField` is built with the new theme.

## Model

| member | source | states |
|---|---|---|
| Themes.Toggle | components/navbar.tsx:116 | the result is "dark" or "light", and it is dark exactly when the old theme was not dark (undefined and any other string go to "dark") |
| Themes.ToggleTwice | components/navbar.tsx:116 | toggling twice gives back the theme exactly when it was "dark" or "light"; any other value ends as "light" |
| HeroAnimation.PoolSize | components/hero-animation.tsx:76 | at most 120; exactly 120 when the area is at least 120 * 8000; otherwise the largest n with n * 8000 <= area; 0 exactly when the area is below 8000 |
| HeroAnimation.PoolSizeScenarios | components/hero-animation.tsx:76 | 800x600 gives 60, 2000x1500 gives 120, 99x80 gives 0 |
| HeroAnimation.Coordinate | components/hero-animation.tsx:36-37 | a random coordinate lies in [0, extent), and is 0 when the extent is 0 |
| HeroAnimation.Size | components/hero-animation.tsx:38 | the radius lies in [2, 7) |
| HeroAnimation.Speed | components/hero-animation.tsx:39-40 | each velocity component lies in [-1, 1) |
| HeroAnimation.ColorIndex | components/hero-animation.tsx:43-49 | the colour index is a valid palette index (0, 1 or 2) |
| HeroAnimation.Opacity | components/hero-animation.tsx:51 | the particle opacity lies in [0.5, 0.8) in the dark theme and in [0.6, 1.0) otherwise |
| HeroAnimation.Particle.constructor | components/hero-animation.tsx:35-53 | the new particle is the one built from its draw, with position on the canvas, radius, velocity, colour index and opacity in their ranges |
| HeroAnimation.Wrap | components/hero-animation.tsx:59-62 | the result lies in [0, bound]; it equals the input exactly when the input is on [0, bound]; beyond the bound it is 0; below 0 it is the bound itself |
| HeroAnimation.Particle.Update | components/hero-animation.tsx:55-63 | each coordinate becomes the wrapped sum of its old value and its velocity, x and y independently, and ends on the closed canvas whatever the old position was; nothing else changes |
| HeroAnimation.SquaredDistance | components/hero-animation.tsx:88-90 | the squared distance is non-negative and 0 between a point and itself |
| HeroAnimation.CloseWithoutSqrt | components/hero-animation.tsx:90-92 | for a non-negative distance d with square d2, d < 180 exactly when d2 < 180 * 180 |
| HeroAnimation.LineOpacity | components/hero-animation.tsx:93-95 | the line opacity is positive, at most 0.5 in the dark theme and 0.6 otherwise, and reaches that maximum at distance 0 |
| HeroAnimation.LineOpacityDecreases | components/hero-animation.tsx:93-95 | the line opacity strictly decreases as the distance grows |
| HeroAnimation.RowLinesContain | components/hero-animation.tsx:87-102 | the inner loop for particle a up to `end` draws a line for (a, b) exactly when a <= b < end and the visit of (a, b) found the pair close, and the line carries its squared distance |
| HeroAnimation.RowsLinesSound | components/hero-animation.tsx:86-104 | every line drawn by the first rounds of the outer loop is for a pair (a, b) with a one of those rounds, a <= b < n, that the visit found close, and carries its squared distance |
| HeroAnimation.RowsLinesComplete | components/hero-animation.tsx:86-104 | every such pair that the visit found close does get its line in those rounds |
| HeroAnimation.ConnectionsExactly | components/hero-animation.tsx:85-92 | a pass draws a line for (a, b) exactly when a <= b, both are particles and they are closer than 180, and the line carries their squared distance |
| HeroAnimation.SelfPairsDrawn | components/hero-animation.tsx:87-92 | every particle is joined to itself by a line of length 0 |
| HeroAnimation.FarPairNotDrawn | components/hero-animation.tsx:92 | two particles 200 apart are not joined |
| HeroAnimation.PairChecksCount | components/hero-animation.tsx:86-87 | the first a rounds over n particles test a(2n - a + 1)/2 pairs |
| HeroAnimation.PassChecks | components/hero-animation.tsx:86-87 | a whole pass over n particles tests n(n+1)/2 pairs, self-pairs included, at most 7260 under the cap of 120 |
| HeroAnimation.ParticleField.constructor | components/hero-animation.tsx:75-80 | the pool holds exactly PoolSize(width, height) distinct fresh particles, particle i built from draw i, all on the canvas |
| HeroAnimation.ParticleField.Resize | components/hero-animation.tsx:18-21 | a resize sets the canvas size and leaves the pool and every position as they were |
| HeroAnimation.ParticleField.Animate | components/hero-animation.tsx:108-116 | every particle is moved once by `Update` against the current canvas, all end on the canvas, and the lines drawn are the connection pass over the new positions |
| HeroAnimation.ParticleField.Connect | components/hero-animation.tsx:83-105 | the lines are exactly `Connections` of the current positions in loop order, and the pair tests counted round by round in the inner loop add up to `PairChecks(n, n)`, which is n(n+1)/2 |
| HeroAnimation.ParticleField.ConnectRow | components/hero-animation.tsx:87-103 | one round of the outer loop draws exactly the lines of its row of `Connections`, and its inner loop tests n - a pairs, one per iteration |
| Navbar.WithoutHome | components/navbar.tsx:34 | the filtered list holds exactly the hrefs other than "#" and is no longer than its input |
| Navbar.WithoutHomeCounts | components/navbar.tsx:34 | every href other than "#" occurs in the filtered list as often as in its input, and "#" not at all |
| Navbar.SectionsInDocumentOrder | components/navbar.tsx:14-20 | the watched sections are #about, #skills, #projects, #contact in that order, each a nav href other than Home |
| Navbar.QuerySelector | components/navbar.tsx:37 | a lone "#" or any selector without a name is a syntax error; otherwise the element is found exactly when the page has it, with its top |
| Navbar.LastReached | components/navbar.tsx:36-45 | nothing exactly when no section has been reached; otherwise a reached section after which no later one has been reached |
| Navbar.LastReachedExtend | components/navbar.tsx:36-45 | looking at one more section from the front changes the answer to that section exactly when it has been reached |
| Navbar.ActiveAfterScroll | components/navbar.tsx:30-51 | Home below 100; unchanged if no section has been reached; otherwise the last reached section in document order |
| Navbar.ActiveAfterScrollIsNavHref | components/navbar.tsx:41-49 | a highlighted nav href stays a nav href after any scroll |
| Navbar.ClickScrollAsWritten | components/navbar.tsx:63-66 | as written, a click throws exactly when the href is not a valid id selector, scrolls only to an element the page has, and never scrolls to the top |
| Navbar.HomeClickThrows | components/navbar.tsx:63 | as written, clicking Home throws on every page |
| Navbar.ClickScroll | components/navbar.tsx:58-67 | the corrected click scroll: Home scrolls to the top; any valid section href behaves as written |
| Navbar.ClickNeverThrows | components/navbar.tsx:58-67 | no nav entry throws, and an entry whose section exists is scrolled to |
| Navbar.NavState.constructor | components/navbar.tsx:23-26 | not scrolled, menu closed, Home highlighted |
| Navbar.NavState.HandleScroll | components/navbar.tsx:30-51 | isScrolled is set exactly when scrollY > 10; the highlighted entry becomes `ActiveAfterScroll` of the old one; the menu and theme are untouched; the highlight stays a nav href |
| Navbar.NavState.HandleNavClick | components/navbar.tsx:58-67 | the handler as written: the clicked href is highlighted and the mobile menu closed, then the lookup is `ClickScrollAsWritten`, which throws for Home; nothing else changes |
| Navbar.NavState.HandleNavClickCorrected | components/navbar.tsx:58-67 | the corrected handler: the same state changes, then the scroll is `ClickScroll`, which never throws |
| Navbar.NavState.ToggleTheme | components/navbar.tsx:116 | the theme becomes `Toggle` of the old one; nothing else changes |
| Navbar.NavState.ToggleMobileMenu | components/navbar.tsx:148 | the mobile menu flag is negated; nothing else changes |

## Left out

- Canvas drawing is not modelled: `clearRect`, `arc`/`fill` in `draw()`, and `moveTo`/`lineTo`/`stroke`. These are browser side effects. The connection pass instead records each line it would stroke as a `Line`.
- HeroAnimation.ParticleField.Connect: records each line's squared distance rather than its stroke opacity. The opacity is `LineOpacity` of the square root of that value, and `Math.sqrt` has no counterpart here.
- Colour strings are not built. A particle keeps its palette index and opacity instead of the `rgba(...)` text.
- Positions and distances are exact reals, not IEEE doubles.
- The `requestAnimationFrame` recursion is not modelled. `Animate` is one frame, and repeating it is left to the caller.
- Listener registration is not modelled: the resize listener and the scroll listener. The same goes for `window.innerWidth`/`innerHeight`, which become parameters of `Resize`. Nothing models the effect cleanup, which removes the resize listener but never cancels the frame loop, so an old loop keeps running after a theme change.
- The early returns when the canvas or its 2D context is missing are not modelled. The field assumes both exist.
- Navbar.QuerySelector: knows only id selectors, `#` followed by a name. A lone `#` or any text not starting with `#` counts as invalid, which is all the nav table needs. The full CSS selector grammar is not modelled.
- Smooth scrolling itself (`scrollIntoView`) is reduced to which element it targets.
- React state batching and re-rendering are not modelled. Each handler's updates take effect at once.
- The other components are not part of this model: project cards, the skills section, the cursor effect, the contact form and the page layout. They hold no logic the particle field or the navigation bar depends on.

## Findings

| source | as written | input that shows it | evidently intended | confidence | as-written member | corrected member |
|---|---|---|---|---|---|---|
| components/navbar.tsx:63 | `handleNavClick` passes the href straight to `document.querySelector`; for Home that is `querySelector("#")`, which is not a valid selector and throws | a click on Home or on the logo, `handleNavClick("#")`, on any page | clicking Home scrolls to the top of the page and never throws | medium, not executed | Navbar.HomeClickThrows | Navbar.ClickNeverThrows |
