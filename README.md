# Conductor data source, modelled in Dafny

Conductor presents an onboarding flow as a sequence of pages in a UIKit page-view
controller. `ConductorDataSource` holds the ordered list of page descriptors
(`ConductorPageData`) and answers the page-view controller's questions: which
controller shows page n, which page comes before or after the one on screen,
how many pages there are and which one is shown first.

This project models that data source without UIKit:

- `wrappers.dfy`: `Option`, standing in for Swift's optionals.
- `conductor.dfy`, module `Conductor`:
  - `PageData` keeps the two descriptor fields the data source touches
    (`hideSkipButton`, `advanceText`). The rest of the descriptor is an
    uninterpreted `content` of type parameter `C`.
  - `Page` is what a page view controller is configured with: a page number and a
    resolved descriptor.
  - `Controller` is the view controller the host hands back. It is either a
    conductor page or some other controller, which fails the downcast.
  - The sequencing rule is written as pure functions over `seq<PageData>`:
    `Resolve`, `Before` and `After`.
  - `ForwardRun` and `BackwardRun` give the pages a user sees when paging
    repeatedly in one direction. They are used to state whole-walk properties.
  - Class `ConductorDataSource` has the two stored properties. `pageData` is a
    `const` set by the initializer, because its setter is file-private and used
    only in `init`. `startingPage` is a mutable field that defaults to 0. Each
    Swift method becomes a method whose contract ties it to the pure functions.

Storyboard instantiation is a boolean parameter, `instantiated`. It says whether
the storyboard produced a `ConductorPageViewController`.

Resolving page n indexes the stored array without a bounds check, so it needs
`0 <= n < count`. An index out of range is a crash, not a "not found" result.
The model follows the code here. Every `requires` is the exact condition under
which the Swift code does not trap:
- `ViewController` needs the index in range only when the storyboard instantiated.
- `Before` needs `p <= count`.
- `After` needs `p >= -1`.

The initializer accepts an empty list, and `startingPage` is never checked against
the count. The model follows the code here too, instead of failing at
construction.

Swift `Int` is 64-bit. The only arithmetic is `p - 1` after checking `p > 0`,
`p + 1` after checking `p < count - 1`, and `count - 1`. None of these can
overflow, so the model uses unbounded `int`.

No method of the class has a `modifies` clause except `SetStartingPage`. So
resolving a page and looking up neighbours never changes the stored list or the
starting page. Each of these methods is specified by a function of the stored
list and its arguments, so calling it twice with the same arguments gives the
same result.

## Model

| member | source | states |
|---|---|---|
| `Conductor.Resolve` | Conductor/ConductorDataSource.swift:46-59 | Requires the page index in range, because the array is indexed without a check. The result has page number n and carries descriptor n's content. On the last page `hideSkipButton` is forced true and `advanceText` is kept. On every other page `advanceText` is forced absent and `hideSkipButton` is kept. |
| `Conductor.Before` | Conductor/ConductorDataSource.swift:73-80 | A predecessor exists iff p > 0. When it exists it is page p - 1, which lies in [0, count), resolved as by `Resolve`. |
| `Conductor.After` | Conductor/ConductorDataSource.swift:86-93 | A successor exists iff p < count - 1, so the last page has none and an empty list gives none. When it exists it is page p + 1, which lies in [0, count), resolved as by `Resolve`. |
| `Conductor.StepsAreInverse` | Conductor/ConductorDataSource.swift:70-94 | From an in-range page, stepping forward then back, or back then forward, gives the same resolved page again. |
| `Conductor.ForwardRunShowsRest` | Conductor/ConductorDataSource.swift:83-94 | Paging forward from page p until no successor is offered shows exactly count - p pages. The i-th of them is the resolved page p + i. |
| `Conductor.BackwardRunShowsStart` | Conductor/ConductorDataSource.swift:70-81 | Paging backward from page p until no predecessor is offered shows exactly p + 1 pages. The i-th of them is the resolved page p - i. |
| `Conductor.WalkFromFirstPage` | Conductor/ConductorDataSource.swift:48-57 | A forward walk from page 0 of a non-empty list shows `presentationCount` pages, numbered 0, 1, ... Every page but the last has no advance text, and the last hides the skip button. |
| `Conductor.ThreePageWalk` | Conductor/ConductorDataSource.swift:50-57 | Concrete three-page walk. After 0 is page 1 with its advance text removed. After 1 is page 2 with the skip button hidden and its advance text kept. There is nothing after 2 or before 0. |
| `Conductor.ConductorDataSource.constructor` | Conductor/ConductorDataSource.swift:22-38 | Stores the given descriptors, which are immutable afterwards, and starts at page 0. |
| `Conductor.ConductorDataSource.SetStartingPage` | Conductor/ConductorDataSource.swift:27 | Assigning the public `startingPage` stores any integer, with no validation. |
| `Conductor.ConductorDataSource.ViewController` | Conductor/ConductorDataSource.swift:43-65 | Returns a page iff the storyboard instantiated a conductor page controller. That page equals `Resolve(pageData, pageNumber)`. The stored list is not written. |
| `Conductor.ConductorDataSource.PageBefore` | Conductor/ConductorDataSource.swift:70-81 | Returns nothing for a controller that is not a conductor page or when instantiation fails. Otherwise it returns exactly `Before(pageData, pageNumber)`. |
| `Conductor.ConductorDataSource.PageAfter` | Conductor/ConductorDataSource.swift:83-94 | Returns nothing for a controller that is not a conductor page or when instantiation fails. Otherwise it returns exactly `After(pageData, pageNumber)`. |
| `Conductor.ConductorDataSource.PresentationCount` | Conductor/ConductorDataSource.swift:96-98 | Returns the number of descriptors. That number cannot change after init, because `pageData` is a constant. |
| `Conductor.ConductorDataSource.PresentationIndex` | Conductor/ConductorDataSource.swift:100-102 | Returns `startingPage` as stored, whether or not it is a valid page. |

## Left out

- The storyboard and the instantiation of `"ConductorPageView"` controllers are UIKit calls. They are reduced to the `instantiated` flag.
- The page-view controller argument of the data-source methods is not modelled. It is never read.
- The force-unwrap `viewController.storyboard!` is not modelled. It would trap if a page controller had no storyboard, which is a UIKit condition outside this model.
- Class identity, `NSObject` / `UIPageViewControllerDataSource` conformance and `@objc` / `open` access are platform plumbing with no behaviour.
- The fields of `ConductorPageData` other than `hideSkipButton` and `advanceText` are not modelled. The same goes for the rest of `ConductorPageViewController`, whose definitions are not part of this model. Only the page number and the descriptor that the data source assigns are kept.
- View lifecycle, gestures and transition animation belong to the page-view controller, not to this file.
