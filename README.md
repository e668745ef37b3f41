# Ice Cubes: paginated status lists and root-view selection logic

A Dafny model of two pieces of the Ice Cubes Mastodon client.

**`AccountStatusesListViewModel`** (`account_statuses_list.dfy`, module
`AccountStatusesList`) fetches an account's bookmarks or favorites page by
page. It holds three mutable fields:

- the state shown to the view: `loading`, `display(statuses, nextPageState)` or `error`;
- the accumulated statuses;
- the pagination cursor (`LinkHandler`, whose `maxId` may be absent).

`fetchNewestStatuses` replaces the list with the first page.
`fetchNextPage` appends the page that starts at the cursor's `maxId`.

The class keeps those fields, and its methods overwrite them as the Swift
methods do. The HTTP client's answer is an input to each fetch (a `Response`:
a page and its cursor, or an error). Each fetch returns the request it
issued, or `None` when it issued none.

Each fetch is tied to a value-level transition (`AfterFetchNewest`,
`AfterFetchNextPage`). Over whole runs of operations (`Run`), lemmas prove
four things:

- the shown state stays coherent with the fields;
- without a first-page fetch the list only grows at its end;
- an exhausted cursor makes next-page fetches no-ops;
- after a series of successful refreshes the list is exactly the last page.

**`AppView`** (`app_view.dfy`, module `MainApp`) holds three pieces of selection logic and the rebuild of the account-selector rows:

- Account cycling: the upward-swipe gesture picks the account after the current one, wrapping to the first. Its loop is `ChooseNextAccount`, specified by `AccountAfter`. With distinct ids, repeated swipes visit every account and come back to the start.
- The notification badge of a tab.
- The tab-selection setter: selecting `.post` opens the new-status editor instead of selecting the tab.
- Rebuilding the account-selector rows.

The environment objects the view reads and writes (accounts manager, stream
watcher, user preferences) are small classes of their own.

`wrappers.dfy` holds the `Option` type used for Swift optionals.

Two behaviours of the code worth stating:

- After a failed next-page fetch the state stays `display(old statuses, loadingNextPage)`, because the empty `catch` at line 67 of `AccountStatusesListViewModel.swift` restores nothing.
- After a failed first-page fetch, `statuses` and `nextPage` keep their old values. Only the shown state becomes `error`.

## Model

| member | source | states |
|---|---|---|
| `AccountStatusesList.Mode.Endpoint` | Packages/Account/Sources/Account/StatusesLists/AccountStatusesListViewModel.swift:22-29 | the endpoint belongs to the list kind of the mode (bookmarks or favorites) and carries exactly the given `sinceId` |
| `AccountStatusesList.NextPageStateFor` | Packages/Account/Sources/Account/StatusesLists/AccountStatusesListViewModel.swift:49-50 | the footer is `hasNextPage` exactly when the new cursor has a `maxId`, `none` exactly when it has not, never `loadingNextPage` |
| `AccountStatusesList.NewestRequest` | Packages/Account/Sources/Account/StatusesLists/AccountStatusesListViewModel.swift:44-47 | a first-page request is issued exactly when there is a client; it is for the mode's endpoint with no `sinceId` |
| `AccountStatusesList.NextPageRequest` | Packages/Account/Sources/Account/StatusesLists/AccountStatusesListViewModel.swift:57-62 | a next-page request is issued exactly when there is a client and the cursor has a `maxId`; it is for the mode's endpoint with `sinceId` equal to that `maxId` |
| `AccountStatusesList.AfterFetchNewest` | Packages/Account/Sources/Account/StatusesLists/AccountStatusesListViewModel.swift:43-54 | the client is kept. A success replaces the list with the page, forgetting earlier ones. A failure keeps list and cursor. Any request leaves the state coherent, and coherence is preserved |
| `AccountStatusesList.AfterFetchNextPage` | Packages/Account/Sources/Account/StatusesLists/AccountStatusesListViewModel.swift:56-68 | the old list is always a prefix of the new one. A success appends the page, with no merging. A failure keeps list and cursor. A request leaves the state coherent, and coherence is preserved |
| `AccountStatusesList.Step` | Packages/Account/Sources/Account/StatusesLists/AccountStatusesListViewModel.swift:37-76 | each operation keeps a coherent state coherent: a shown list is the accumulated list, and its footer offers more exactly when the cursor can be followed |
| `AccountStatusesList.RefreshForgetsHistory` | Packages/Account/Sources/Account/StatusesLists/AccountStatusesListViewModel.swift:47-50 | after any run of operations that leaves a client in place, a successful first-page fetch leaves exactly its page, its cursor and its footer; no earlier page, cursor or error survives |
| `AccountStatusesList.RunKeepsCoherent` | Packages/Account/Sources/Account/StatusesLists/AccountStatusesListViewModel.swift:43-68 | every run of fetches, client assignments and visibility events keeps the shown state coherent with the fields |
| `AccountStatusesList.InitialCoherent` | Packages/Account/Sources/Account/StatusesLists/AccountStatusesListViewModel.swift:33-41 | a fresh view model is coherent and stays coherent, whatever is done to it |
| `AccountStatusesList.RunWithoutRefreshOnlyAppends` | Packages/Account/Sources/Account/StatusesLists/AccountStatusesListViewModel.swift:62-63 | with no first-page fetch, the list before a run is a prefix of the list after it, in order |
| `AccountStatusesList.ExhaustedCursorIsFixedPoint` | Packages/Account/Sources/Account/StatusesLists/AccountStatusesListViewModel.swift:57 | once the cursor has no `maxId`, any number of next-page fetches and visibility events leave the state exactly as it was |
| `AccountStatusesList.LastRefreshWins` | Packages/Account/Sources/Account/StatusesLists/AccountStatusesListViewModel.swift:47-50 | after any non-empty series of successful first-page fetches, the list is the last response's page and the shown state displays it with the footer of its cursor |
| `AccountStatusesList.TwoPagesThenExhausted` | Packages/Account/Sources/Account/StatusesLists/AccountStatusesListViewModel.swift:43-68 | first page [A, B] with a followable cursor shows `hasNextPage`. A last page [C] then shows [A, B, C] with `none`. A further next-page fetch issues no request and changes nothing |
| `AccountStatusesList.AccountStatusesListViewModel.constructor` | Packages/Account/Sources/Account/StatusesLists/AccountStatusesListViewModel.swift:32-41 | the mode is the given one; the state is `loading`, the list empty, cursor and client absent |
| `AccountStatusesList.AccountStatusesListViewModel.FetchNewestStatuses` | Packages/Account/Sources/Account/StatusesLists/AccountStatusesListViewModel.swift:43-54 | without a client there is no request and no change. On success the page becomes the list, the cursor is replaced and the footer follows the new cursor. On failure the state is `error` and list and cursor are kept. The data-controller hook gets the full list once per success |
| `AccountStatusesList.AccountStatusesListViewModel.FetchNextPage` | Packages/Account/Sources/Account/StatusesLists/AccountStatusesListViewModel.swift:56-68 | with no client, no cursor or no `maxId` there is no request and no change. Otherwise the request uses `maxId` as `sinceId`. Success: the list becomes old list ++ page, the footer follows the new cursor. Failure: list and cursor are kept and the state stays `display(old list, loadingNextPage)` |
| `AccountStatusesList.AccountStatusesListViewModel.StatusDidAppear` | Packages/Account/Sources/Account/StatusesLists/AccountStatusesListViewModel.swift:70-72 | nothing changes |
| `AccountStatusesList.AccountStatusesListViewModel.StatusDidDisappear` | Packages/Account/Sources/Account/StatusesLists/AccountStatusesListViewModel.swift:74-76 | nothing changes |
| `MainApp.IndexOf` | IceCubesApp/App/Main/AppView.swift:91-99 | absent exactly when no account has the id; otherwise the first position whose account has it |
| `MainApp.AccountAfter` | IceCubesApp/App/Main/AppView.swift:89-99 | the account switched to is one of the available accounts: the one right after the first account with the current id, or the first account when that one is last or the id is not in the list |
| `MainApp.ChooseNextAccount` | IceCubesApp/App/Main/AppView.swift:89-99 | the loop with its `found` flag returns exactly `AccountAfter` of the list and the current id |
| `MainApp.SwipeFromAccount` | IceCubesApp/App/Main/AppView.swift:89-99 | with distinct ids, a swipe from the account at `i` gives the account at `i + 1`, and from the last one the first |
| `MainApp.SwipesAt` | IceCubesApp/App/Main/AppView.swift:88-105 | with distinct ids, `k` swipes from the account at `i` give the account `k` places further on, wrapping around |
| `MainApp.SwipingReachesEveryAccount` | IceCubesApp/App/Main/AppView.swift:88-105 | with distinct ids, every account can be reached from every account by swiping |
| `MainApp.SwipingComesBack` | IceCubesApp/App/Main/AppView.swift:88-105 | with distinct ids, one swipe per account returns to the starting account |
| `MainApp.AppView.DragEnded` | IceCubesApp/App/Main/AppView.swift:87-107 | a drag with negative vertical translation sets the current account to `AccountAfter` of the available accounts and the old current id; any other drag leaves it unchanged; nothing else is written |
| `MainApp.AppView.SelectTab` | IceCubesApp/App/Main/AppView.swift:53-71 | selecting `.post` keeps the selected tab and presents the new-status editor with the preferred visibility; any other tab becomes the selected tab and the presented sheet is left as it was; a selection other than `.post` is never turned into `.post` |
| `MainApp.AppView.BadgeFor` | IceCubesApp/App/Main/AppView.swift:124-131 | the badge is 0 unless the tab is `.notifications`, is not selected and the current account has a token. In that case it is the unread count plus the count stored for the token, 0 when the token has none |
| `MainApp.AppView.RefreshAccounts` | IceCubesApp/App/Main/AppView.swift:174-180 | the rows are exactly one per available account, in the same order, each for that account with `isInNavigation` false and `showBadge` true; earlier rows are discarded |

## Left out

- The HTTP client (`client.getWithLink`) and link-header parsing are not part of this model. A response is an input value, and a cursor is given by its `maxId`.
- Async suspension is not modelled: each fetch runs as one atomic step. So are overlapping `fetchNewestStatuses`/`fetchNextPage` calls, which the code does not guard. The transient `loading` state set at the start of `fetchNewestStatuses` is therefore overwritten before the model's method returns.
- `StatusDataControllerProvider.shared.updateDataControllers` is a call into a shared registry. It is recorded only as a ghost log (`controllerUpdates`) of the lists it is called with.
- `Mode.title`: localized strings, not logic.
- The SwiftUI view tree is not modelled: `body`, `tabBarView` layout, `sidebarView`, `notificationsSecondaryColumn`, `introspect` tweaks, `availableTabs`, device-idiom and size-class branching, and the sheet and long-press presentation of the account selector.
- Haptics, sound effects and the animation-disabling transaction around the account switch: feedback only.
- The pop-to-root workaround when the selected tab is chosen again (`popToRootTab`, and its deferred reset via `DispatchQueue.main.asyncAfter`) is timing-based UI plumbing.
- `preferredHeight`: CGFloat layout arithmetic.
- `Tab` is reduced to `.notifications`, `.post`, `.other` and a named case for every other tab. The tab enum's own definition is not part of this model.
- `AppAccountViewModel` is represented by the arguments of its initializer. The class's own behaviour is not part of this model.
- MainApp.AppView.DragEnded: an upward swipe with no available accounts traps at the index `availableAccounts[0]` (line 90 of `AppView.swift`). The model rules that input out with a precondition (also on `ChooseNextAccount` and `AccountAfter`) instead of modelling the crash.
- MainApp.AppView.BadgeFor: counts are unbounded integers, so Swift's trap on `Int` overflow in the addition is not modelled.
- Packages/Notifications/Package.swift is a build manifest with no logic.
