/**
 * The paginated status list behind an account's bookmarks and favorites
 * (`AccountStatusesListViewModel`).
 *
 * The view model owns three pieces of state that its two fetch operations
 * overwrite: the state shown to the view, the accumulated statuses and the
 * pagination cursor. The HTTP client is not part of this model: each fetch
 * receives the response the client gives as an input, and returns the
 * request it issued (or `None` when it issued none).
 */
module AccountStatusesList {
  import opened Wrappers

  /** A status (a post). Only its identity matters to the list. */
  datatype Status = Status(id: string)

  /** The pagination cursor parsed from a response's link header. */
  datatype LinkHandler = LinkHandler(maxId: Option<string>)

  /** An authenticated HTTP client, identified by the server it talks to. */
  datatype Client = Client(server: string)

  /** The error a failed request throws. */
  datatype NetworkError = NetworkError(description: string)

  /** What `client.getWithLink` returns for one request: a page and its cursor, or a thrown error. */
  datatype Response =
    | Success(page: seq<Status>, next: Option<LinkHandler>)
    | Failure(error: NetworkError)

  /** The two account endpoints this list pages through. */
  datatype Endpoint =
    | AccountsBookmarks(sinceId: Option<string>)
    | AccountsFavorites(sinceId: Option<string>)
  {
    /** The list kind an endpoint belongs to. */
    function Kind(): Mode {
      match this
      case AccountsBookmarks(_) => Bookmarks
      case AccountsFavorites(_) => Favorites
    }
  }

  /** Which of the account's lists the view model shows. */
  datatype Mode = Bookmarks | Favorites {

    /** The endpoint for this list, from the given status id on. */
    function Endpoint(sinceId: Option<string>): (e: Endpoint)
      ensures e.Kind() == this
      ensures e.sinceId == sinceId
    {
      match this
      case Bookmarks => AccountsBookmarks(sinceId)
      case Favorites => AccountsFavorites(sinceId)
    }
  }

  /** The footer of a displayed list. `NoNextPage` is Swift's `.none`. */
  datatype PagingState = HasNextPage | LoadingNextPage | NoNextPage

  /** What the view shows. */
  datatype StatusesState =
    | Loading
    | Display(statuses: seq<Status>, nextPageState: PagingState)
    | Error(error: NetworkError)

  /** True when the cursor can be followed: it is present and carries a `maxId`. */
  predicate HasMaxId(cursor: Option<LinkHandler>) {
    cursor.Some? && cursor.value.maxId.Some?
  }

  /** The footer shown after a successful fetch that returned `next` as its cursor. */
  function NextPageStateFor(next: Option<LinkHandler>): (p: PagingState)
    ensures p == HasNextPage <==> HasMaxId(next)
    ensures p == NoNextPage <==> !HasMaxId(next)
  {
    if HasMaxId(next) then HasNextPage else NoNextPage
  }

  /** The view model's state as a value: its client and the three fields the fetches overwrite. */
  datatype Snapshot = Snapshot(
    client: Option<Client>,
    statusesState: StatusesState,
    statuses: seq<Status>,
    nextPage: Option<LinkHandler>)

  /** A freshly created view model: loading, with nothing fetched and no cursor. */
  function Initial(client: Option<Client>): Snapshot {
    Snapshot(client, Loading, [], None)
  }

  /**
   * The displayed state agrees with the fields: a displayed list is the
   * accumulated list, and its footer offers more exactly when the cursor can
   * be followed.
   */
  predicate Coherent(s: Snapshot) {
    match s.statusesState
    case Display(shown, paging) =>
      shown == s.statuses && (paging == NoNextPage <==> !HasMaxId(s.nextPage))
    case _ => true
  }

  /** The request `fetchNewestStatuses` issues from `s`, if any. */
  function NewestRequest(mode: Mode, s: Snapshot): (r: Option<Endpoint>)
    ensures r.None? <==> s.client.None?
    ensures r.Some? ==> r.value.Kind() == mode && r.value.sinceId.None?
  {
    if s.client.None? then None else Some(mode.Endpoint(None))
  }

  /** The guard of `fetchNextPage`: a client, and a cursor that can be followed. */
  predicate CanFetchNextPage(s: Snapshot) {
    s.client.Some? && HasMaxId(s.nextPage)
  }

  /** The request `fetchNextPage` issues from `s`, if any. */
  function NextPageRequest(mode: Mode, s: Snapshot): (r: Option<Endpoint>)
    ensures r.Some? <==> CanFetchNextPage(s)
    ensures r.Some? ==> r.value.Kind() == mode && r.value.sinceId == s.nextPage.value.maxId
  {
    if !CanFetchNextPage(s) then None
    else Some(mode.Endpoint(s.nextPage.value.maxId))
  }

  /** The state after `fetchNewestStatuses`, when the client answers `response`. */
  function AfterFetchNewest(s: Snapshot, response: Response): (t: Snapshot)
    ensures t.client == s.client
    // whatever came before, a request leaves the state coherent
    ensures s.client.Some? ==> Coherent(t)
    ensures Coherent(s) ==> Coherent(t)
    // a success forgets everything fetched before it
    ensures s.client.Some? && response.Success? ==> t.statuses == response.page
    // a failure keeps the list and the cursor
    ensures response.Failure? ==> t.statuses == s.statuses && t.nextPage == s.nextPage
  {
    if s.client.None? then s
    else
      match response
      case Success(page, next) =>
        s.(statuses := page, nextPage := next, statusesState := Display(page, NextPageStateFor(next)))
      case Failure(error) =>
        s.(statusesState := Error(error))
  }

  /** The state after `fetchNextPage`, when the client answers `response` (if it is asked). */
  function AfterFetchNextPage(s: Snapshot, response: Response): (t: Snapshot)
    ensures t.client == s.client
    ensures CanFetchNextPage(s) ==> Coherent(t)
    ensures Coherent(s) ==> Coherent(t)
    // the list only ever grows at its end
    ensures s.statuses <= t.statuses
    ensures response.Success? && CanFetchNextPage(s) ==>
              t.statuses == s.statuses + response.page
    // a failure keeps the list and the cursor
    ensures response.Failure? ==> t.statuses == s.statuses && t.nextPage == s.nextPage
  {
    if !CanFetchNextPage(s) then s
    else
      match response
      case Success(page, next) =>
        var statuses := s.statuses + page;
        s.(statuses := statuses, nextPage := next, statusesState := Display(statuses, NextPageStateFor(next)))
      case Failure(_) =>
        s.(statusesState := Display(s.statuses, LoadingNextPage))
  }

  /** One thing that can happen to a view model. */
  datatype Op =
    | AssignClient(client: Option<Client>)   // the owning view sets `client`
    | FetchNewest(response: Response)
    | FetchNext(response: Response)
    | Appear(status: Status)
    | Disappear(status: Status)

  function Step(s: Snapshot, op: Op): (t: Snapshot)
    ensures Coherent(s) ==> Coherent(t)
  {
    match op
    case AssignClient(c) => s.(client := c)
    case FetchNewest(r) => AfterFetchNewest(s, r)
    case FetchNext(r) => AfterFetchNextPage(s, r)
    case Appear(_) => s
    case Disappear(_) => s
  }

  /** The state after the operations `ops`, in order. */
  function Run(s: Snapshot, ops: seq<Op>): Snapshot
    decreases |ops|
  {
    if ops == [] then s else Run(Step(s, ops[0]), ops[1..])
  }

  /** Running one more operation is one more step. */
  lemma {:induction false} RunSnoc(s: Snapshot, ops: seq<Op>, op: Op)
    ensures Run(s, ops + [op]) == Step(Run(s, ops), op)
    decreases |ops|
  {
    if ops != [] {
      assert (ops + [op])[1..] == ops[1..] + [op];
      RunSnoc(Step(s, ops[0]), ops[1..], op);
    }
  }

  /**
   * Whatever happened before, a successful first-page fetch with a client in
   * place leaves exactly its page, its cursor and its footer: no earlier
   * page, cursor or error survives it.
   */
  lemma RefreshForgetsHistory(s: Snapshot, ops: seq<Op>, page: seq<Status>, next: Option<LinkHandler>)
    requires Run(s, ops).client.Some?
    ensures var t := Run(s, ops + [FetchNewest(Success(page, next))]);
            t.statuses == page && t.nextPage == next &&
            t.statusesState == Display(page, NextPageStateFor(next))
  {
    RunSnoc(s, ops, FetchNewest(Success(page, next)));
  }

  /** Every run keeps the displayed state in agreement with the fields. */
  lemma {:induction false} RunKeepsCoherent(s: Snapshot, ops: seq<Op>)
    requires Coherent(s)
    ensures Coherent(Run(s, ops))
    decreases |ops|
  {
    if ops != [] {
      RunKeepsCoherent(Step(s, ops[0]), ops[1..]);
    }
  }

  /** A view model that has just been created is coherent, and stays so. */
  lemma InitialCoherent(client: Option<Client>, ops: seq<Op>)
    ensures Coherent(Run(Initial(client), ops))
  {
    RunKeepsCoherent(Initial(client), ops);
  }

  /** An operation that cannot replace the list. */
  predicate KeepsList(op: Op) {
    !op.FetchNewest?
  }

  /** Without a first-page fetch the list is append-only: what was there stays, in order, at the front. */
  lemma {:induction false} RunWithoutRefreshOnlyAppends(s: Snapshot, ops: seq<Op>)
    requires forall i :: 0 <= i < |ops| ==> KeepsList(ops[i])
    ensures s.statuses <= Run(s, ops).statuses
    decreases |ops|
  {
    if ops != [] {
      RunWithoutRefreshOnlyAppends(Step(s, ops[0]), ops[1..]);
    }
  }

  /** An operation that leaves the client in place and fetches no first page. */
  predicate Paging(op: Op) {
    op.FetchNext? || op.Appear? || op.Disappear?
  }

  /** Once the cursor cannot be followed, next-page fetches change nothing, however many there are. */
  lemma {:induction false} ExhaustedCursorIsFixedPoint(s: Snapshot, ops: seq<Op>)
    requires !HasMaxId(s.nextPage)
    requires forall i :: 0 <= i < |ops| ==> Paging(ops[i])
    ensures Run(s, ops) == s
    decreases |ops|
  {
    if ops != [] {
      assert Step(s, ops[0]) == s;
      ExhaustedCursorIsFixedPoint(s, ops[1..]);
    }
  }

  /** A successful first-page fetch. */
  predicate SuccessfulRefresh(op: Op) {
    op.FetchNewest? && op.response.Success?
  }

  /** After any series of successful first-page fetches, the list is exactly the last response's page. */
  lemma {:induction false} LastRefreshWins(s: Snapshot, ops: seq<Op>)
    requires s.client.Some?
    requires |ops| > 0
    requires forall i :: 0 <= i < |ops| ==> SuccessfulRefresh(ops[i])
    ensures SuccessfulRefresh(ops[|ops| - 1])
    ensures Run(s, ops).statuses == ops[|ops| - 1].response.page
    ensures Run(s, ops).statusesState ==
              Display(ops[|ops| - 1].response.page, NextPageStateFor(ops[|ops| - 1].response.next))
    decreases |ops|
  {
    var t := Step(s, ops[0]);
    if |ops| > 1 {
      LastRefreshWins(t, ops[1..]);
    }
  }

  /**
   * The scenario of a first page [A, B] with a followable cursor, then a last
   * page [C]: the list is [A, B, C] with no next page, and a further
   * next-page fetch issues no request and changes nothing.
   */
  lemma TwoPagesThenExhausted(client: Client, cursor: string, response: Response)
    ensures var a, b, c := Status("A"), Status("B"), Status("C");
            var first := Run(Initial(Some(client)), [FetchNewest(Success([a, b], Some(LinkHandler(Some(cursor)))))]);
            var second := Run(first, [FetchNext(Success([c], None))]);
            first.statusesState == Display([a, b], HasNextPage) &&
            second.statusesState == Display([a, b, c], NoNextPage) &&
            NextPageRequest(Favorites, second).None? &&
            Run(second, [FetchNext(response)]) == second
  {
  }

  /** The view model. `client` is set by the owning view; the other fields by the fetches. */
  class AccountStatusesListViewModel {
    const mode: Mode
    var statusesState: StatusesState
    var statuses: seq<Status>
    var nextPage: Option<LinkHandler>
    var client: Option<Client>
    /** The lists `updateDataControllers` was called with, oldest first. */
    ghost var controllerUpdates: seq<seq<Status>>

    function Current(): Snapshot
      reads this
    {
      Snapshot(client, statusesState, statuses, nextPage)
    }

    constructor (mode: Mode)
      ensures this.mode == mode
      ensures statusesState == Loading && statuses == [] && nextPage == None && client == None
      ensures Current() == Initial(None) && controllerUpdates == []
    {
      this.mode := mode;
      statusesState := Loading;
      statuses := [];
      nextPage := None;
      client := None;
      controllerUpdates := [];
    }

    /** Replaces the list with the first page. `pullToRefresh` does not affect what it does. */
    method FetchNewestStatuses(pullToRefresh: bool, response: Response) returns (request: Option<Endpoint>)
      modifies this`statusesState, this`statuses, this`nextPage, this`controllerUpdates
      ensures request == NewestRequest(mode, old(Current()))
      ensures Current() == AfterFetchNewest(old(Current()), response)
      // no client: no request, nothing changes
      ensures client.None? ==> request.None? && Current() == old(Current())
      // success: the page replaces the list and the footer follows the new cursor
      ensures client.Some? && response.Success? ==>
                statuses == response.page && nextPage == response.next &&
                statusesState == Display(response.page, NextPageStateFor(response.next))
      // failure: an error is shown, list and cursor are kept
      ensures client.Some? && response.Failure? ==>
                statusesState == Error(response.error) &&
                statuses == old(statuses) && nextPage == old(nextPage)
      ensures controllerUpdates ==
                if request.Some? && response.Success? then old(controllerUpdates) + [statuses]
                else old(controllerUpdates)
    {
      if client.None? {
        return None;
      }
      statusesState := Loading;
      request := Some(mode.Endpoint(None));
      match response
      case Success(page, next) =>
        statuses, nextPage := page, next;
        controllerUpdates := controllerUpdates + [statuses];
        statusesState := Display(statuses, NextPageStateFor(nextPage));
      case Failure(error) =>
        statusesState := Error(error);
    }

    /** Appends the next page, requested from the cursor's `maxId` on. */
    method FetchNextPage(response: Response) returns (request: Option<Endpoint>)
      modifies this`statusesState, this`statuses, this`nextPage, this`controllerUpdates
      ensures request == NextPageRequest(mode, old(Current()))
      ensures Current() == AfterFetchNextPage(old(Current()), response)
      // no client or no followable cursor: no request, nothing changes
      ensures client.None? || !HasMaxId(old(nextPage)) ==> request.None? && Current() == old(Current())
      // success: the page is appended and the footer follows the new cursor
      ensures request.Some? && response.Success? ==>
                statuses == old(statuses) + response.page && nextPage == response.next &&
                statusesState == Display(statuses, NextPageStateFor(response.next))
      // failure: list and cursor are kept, and the footer stays at "loading"
      ensures request.Some? && response.Failure? ==>
                statuses == old(statuses) && nextPage == old(nextPage) &&
                statusesState == Display(old(statuses), LoadingNextPage)
      ensures controllerUpdates ==
                if request.Some? && response.Success? then old(controllerUpdates) + [statuses]
                else old(controllerUpdates)
    {
      if client.None? || nextPage.None? || nextPage.value.maxId.None? {
        return None;
      }
      var nextId := nextPage.value.maxId.value;
      statusesState := Display(statuses, LoadingNextPage);
      request := Some(mode.Endpoint(Some(nextId)));
      match response
      case Success(newStatuses, next) =>
        nextPage := next;
        statuses := statuses + newStatuses;
        controllerUpdates := controllerUpdates + [statuses];
        statusesState := Display(statuses, NextPageStateFor(nextPage));
      case Failure(_) =>
    }

    /** A status scrolled into view: nothing happens. */
    method StatusDidAppear(status: Status)
      ensures Current() == old(Current())
    {
    }

    /** A status scrolled out of view: nothing happens. */
    method StatusDidDisappear(status: Status)
      ensures Current() == old(Current())
    {
    }
  }
}
