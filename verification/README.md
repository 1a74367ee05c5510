# Section tracker of the portfolio home page

This project models, in Dafny, the scroll-position section tracker of the
portfolio's home page (`Home` in `app/page.tsx`). The page keeps one piece of
state, the active section, which starts as `"intro"`. On every scroll event
the handler takes an evaluation point 100 pixels below `window.scrollY`,
walks the fixed list `intro, about, projects, contact`, skips every id whose
element is not mounted, and makes active the first section whose half-open
interval `[offsetTop, offsetTop + offsetHeight)` contains the point. When no
section contains the point, the active section is left as it was.

The model lives in `section_tracker.dfy`, module `SectionTracker`:

- `Layout` is a map from element id to `Geometry(offsetTop, offsetHeight)`;
  an id missing from the map stands for an element that is not mounted.
- `ScrollTracker` is a class whose field `currentSection` is the page's
  `currentSection` state. Its method `HandleScroll` is the handler's loop,
  with the early `break`, proved equal to the pure function `Evaluate`.
- `FirstMatch` is the recursive specification of "first match in list order".
  `Evaluate` is one scroll evaluation and `Run` is a sequence of them.

The section list in the code has four names. The navigation
bar still has an `experience` link that it highlights when the active section
is `"experience"` (`app/components/Navigation.tsx:26`). `ExperienceNeverActive`
proves that the tracker never produces that name, so that link is never
highlighted.

## Model

| member | source | states |
|---|---|---|
| `SectionTracker.ScrollTracker.constructor` | app/page.tsx:11 | the active section starts as `"intro"`, one of the tracked sections |
| `SectionTracker.ScrollTracker.HandleScroll` | app/page.tsx:14-31 | the loop with early exit leaves exactly `Evaluate(old section, layout, scrollY)` active, and keeps the active section among the tracked ones |
| `SectionTracker.FirstMatch` | app/page.tsx:18-27 | the index found names a mounted section whose interval contains the point, and no earlier section matches; no index means that no section in the list matches |
| `SectionTracker.Evaluate` | app/page.tsx:15-30 | with the point at exactly `scrollY + 100`: the first matching section in the order intro, about, projects, contact becomes active; with no match the previous section is held; the result is always the previous section or a tracked name |
| `SectionTracker.LaterSectionsCannotOverride` | app/page.tsx:22-27 | once a section matches, the geometry of every section after it, overlapping or not, cannot change which section is found |
| `SectionTracker.AbsentSectionsSkipped` | app/page.tsx:19-20 | trying only the mounted sections finds the same section as trying the whole list, so absent elements do not affect the result |
| `SectionTracker.HalfOpenIntervals` | app/page.tsx:23-24 | a point equal to `offsetTop + offsetHeight` does not activate that section, and a section of zero or negative height never becomes active; a point equal to `offsetTop` of a section with positive height activates it when no earlier section matches |
| `SectionTracker.EvaluateIdempotent` | app/page.tsx:14-31 | evaluating a second time with the same geometry and scroll offset does not change the active section |
| `SectionTracker.RunStaysTracked` | app/page.tsx:15-26 | from a tracked section, any sequence of scroll events leaves one of the four tracked sections active |
| `SectionTracker.ExperienceNeverActive` | app/page.tsx:11-26 | from the initial state no sequence of scroll events makes `"experience"` active |

## Left out

- Registering and removing the scroll listener and the React effect lifecycle (app/page.tsx:13, 33-35): browser event plumbing. The model covers single `HandleScroll` calls and sequences of them (`Run`).
- `document.getElementById`, `offsetTop`, `offsetHeight` and `window.scrollY` are DOM calls. They become the `Layout` map and the integer `scrollY` parameter.
- Fractional `window.scrollY` values are not modelled: the scroll offset is an integer.
- React's asynchronous state update through `setCurrentSection` is modelled as a direct assignment to `currentSection`.
- The page markup, styling and static content, `Navigation`'s menu toggle and link rendering, and the other components: rendering with no logic.
- A contact-form submission state machine, a mail-dispatch client and configuration handling: the form in `app/page.tsx` has no submit handler, so there is no such behaviour to model.
- `ContactLink` is not part of this model.
