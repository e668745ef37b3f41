/**
 * The selection logic of the app's root view (`AppView`): cycling to the next
 * account on an upward swipe, the notification badge of a tab, the tab
 * setter that opens the post editor instead of selecting the post tab, and
 * rebuilding the account rows of the account selector.
 *
 * The environment objects the view reads and writes (the accounts manager,
 * the stream watcher, the user preferences) are classes of their own, so
 * that the view writes them through its references as the source does.
 */
module MainApp {
  import opened Wrappers

  /** The tabs of the app. Only `.notifications`, `.post` and `.other` are told apart here. */
  datatype Tab = Notifications | Post | Other | Named(name: string)

  datatype OAuthToken = OAuthToken(accessToken: string)

  /** A signed-in account; an account that is not signed in has no token. */
  datatype AppAccount = AppAccount(id: string, server: string, oauthToken: Option<OAuthToken>)

  /** A row of the account selector: an account, not shown in navigation, with its badge. */
  datatype AppAccountViewModel = AppAccountViewModel(appAccount: AppAccount, isInNavigation: bool, showBadge: bool)

  datatype Visibility = Public | Unlisted | Private | Direct

  /** A sheet the router can present. */
  datatype SheetDestination = NewStatusEditor(visibility: Visibility)

  class AppAccountsManager {
    var availableAccounts: seq<AppAccount>
    var currentAccount: AppAccount

    constructor (availableAccounts: seq<AppAccount>, currentAccount: AppAccount)
      ensures this.availableAccounts == availableAccounts && this.currentAccount == currentAccount
    {
      this.availableAccounts := availableAccounts;
      this.currentAccount := currentAccount;
    }
  }

  class StreamWatcher {
    var unreadNotificationsCount: int

    constructor (unreadNotificationsCount: int)
      ensures this.unreadNotificationsCount == unreadNotificationsCount
    {
      this.unreadNotificationsCount := unreadNotificationsCount;
    }
  }

  class UserPreferences {
    var postVisibility: Visibility
    /** Notifications received per account, keyed by the account's token. */
    var notificationsCount: map<OAuthToken, int>

    constructor (postVisibility: Visibility, notificationsCount: map<OAuthToken, int>)
      ensures this.postVisibility == postVisibility && this.notificationsCount == notificationsCount
    {
      this.postVisibility := postVisibility;
      this.notificationsCount := notificationsCount;
    }
  }

  /** No account before index `k` has the id `id`, and the one at `k` has. */
  predicate FirstAt(accounts: seq<AppAccount>, id: string, k: int) {
    0 <= k < |accounts| && accounts[k].id == id &&
    forall j :: 0 <= j < k ==> accounts[j].id != id
  }

  /** No account has the id `id`. */
  predicate Absent(accounts: seq<AppAccount>, id: string) {
    forall j :: 0 <= j < |accounts| ==> accounts[j].id != id
  }

  /** The position of the first account with the id `id`, if any. */
  function IndexOf(accounts: seq<AppAccount>, id: string): (k: Option<nat>)
    ensures k.None? <==> Absent(accounts, id)
    ensures k.Some? ==> FirstAt(accounts, id, k.value)
  {
    if |accounts| == 0 then None
    else if accounts[0].id == id then Some(0)
    else
      match IndexOf(accounts[1..], id)
      case None => None
      case Some(k) => Some(k + 1)
  }

  /**
   * The account an upward swipe switches to: the one after the first account
   * with the current id, the first account when that one is the last, and
   * the first account when no account has the current id.
   */
  function AccountAfter(accounts: seq<AppAccount>, currentId: string): (a: AppAccount)
    requires |accounts| > 0
    ensures a in accounts
    ensures Absent(accounts, currentId) ==> a == accounts[0]
    ensures forall k :: FirstAt(accounts, currentId, k) && k + 1 < |accounts| ==> a == accounts[k + 1]
    ensures forall k :: FirstAt(accounts, currentId, k) && k + 1 == |accounts| ==> a == accounts[0]
  {
    match IndexOf(accounts, currentId)
    case None => accounts[0]
    case Some(k) => if k + 1 < |accounts| then accounts[k + 1] else accounts[0]
  }

  /** The loop of the drag gesture: pick the account after the current one, wrapping to the first. */
  method ChooseNextAccount(accounts: seq<AppAccount>, currentId: string) returns (accountToSet: AppAccount)
    requires |accounts| > 0
    ensures accountToSet == AccountAfter(accounts, currentId)
  {
    var found := false;
    accountToSet := accounts[0];
    var i := 0;
    while i < |accounts|
      invariant 0 <= i <= |accounts|
      invariant !found ==> Absent(accounts[..i], currentId)
      invariant found ==> 0 < i && FirstAt(accounts, currentId, i - 1)
      invariant accountToSet == accounts[0]
    {
      var account := accounts[i];
      if found {
        accountToSet := account;
        break;
      }
      if account.id == currentId {
        found := true;
      }
      i := i + 1;
    }
    if !found {
      assert accounts[..i] == accounts;
    }
  }

  /** No two accounts share an id. */
  predicate DistinctIds(accounts: seq<AppAccount>) {
    forall i, j :: 0 <= i < j < |accounts| ==> accounts[i].id != accounts[j].id
  }

  /** With distinct ids, a swipe moves one place along the list, from the last back to the first. */
  lemma SwipeFromAccount(accounts: seq<AppAccount>, i: nat)
    requires DistinctIds(accounts)
    requires i < |accounts|
    ensures i + 1 < |accounts| ==> AccountAfter(accounts, accounts[i].id) == accounts[i + 1]
    ensures i + 1 == |accounts| ==> AccountAfter(accounts, accounts[i].id) == accounts[0]
  {
    assert FirstAt(accounts, accounts[i].id, i);
  }

  /** The account reached by `k` upward swipes from `start`. */
  function Swipes(accounts: seq<AppAccount>, start: AppAccount, k: nat): AppAccount
    requires |accounts| > 0
  {
    if k == 0 then start else AccountAfter(accounts, Swipes(accounts, start, k - 1).id)
  }

  /** The position after `p` in a list of `n` accounts, from the last back to the first. */
  function Succ(p: nat, n: nat): nat {
    if p + 1 < n then p + 1 else 0
  }

  /** The position reached by `k` one-place moves from `i` in a list of `n`. */
  function SwipePosition(i: nat, k: nat, n: nat): nat {
    if k == 0 then i else Succ(SwipePosition(i, k - 1, n), n)
  }

  /** With distinct ids, `k` swipes from the account at `i` reach the account `k` places further on, cyclically. */
  lemma {:induction false} SwipesAt(accounts: seq<AppAccount>, i: nat, k: nat)
    requires DistinctIds(accounts)
    requires i < |accounts|
    ensures SwipePosition(i, k, |accounts|) < |accounts|
    ensures Swipes(accounts, accounts[i], k) == accounts[SwipePosition(i, k, |accounts|)]
  {
    if k > 0 {
      SwipesAt(accounts, i, k - 1);
      var p := SwipePosition(i, k - 1, |accounts|);
      SwipeFromAccount(accounts, p);
    }
  }

  /** Moving `a + b` places is moving `a` places and then `b`. */
  lemma {:induction false} SwipePositionAdd(i: nat, a: nat, b: nat, n: nat)
    ensures SwipePosition(i, a + b, n) == SwipePosition(SwipePosition(i, a, n), b, n)
  {
    if b > 0 {
      SwipePositionAdd(i, a, b - 1, n);
      assert a + b - 1 == a + (b - 1);
    }
  }

  /** Short of the end, moving `k` places from `i` is `i + k`. */
  lemma {:induction false} SwipePositionForward(i: nat, k: nat, n: nat)
    requires i + k < n
    ensures SwipePosition(i, k, n) == i + k
  {
    if k > 0 {
      SwipePositionForward(i, k - 1, n);
    }
  }

  /** From `i`, the moves past the last position land on the first one. */
  lemma SwipePositionWrap(i: nat, n: nat)
    requires i < n
    ensures SwipePosition(i, n - i, n) == 0
  {
    SwipePositionForward(i, n - 1 - i, n);
  }

  /** How many moves lead from position `i` to position `j` in a list of `n`. */
  function MovesBetween(i: nat, j: nat, n: nat): nat
    requires i < n
  {
    if i <= j then j - i else n - i + j
  }

  /** Moving along a list of `n` positions reaches every position, and `n` moves come back. */
  lemma SwipePositionCycle(i: nat, j: nat, n: nat)
    requires i < n && j < n
    ensures SwipePosition(i, MovesBetween(i, j, n), n) == j
    ensures SwipePosition(i, n, n) == i
  {
    SwipePositionWrap(i, n);
    SwipePositionAdd(i, n - i, i, n);
    SwipePositionForward(0, i, n);
    if i <= j {
      SwipePositionForward(i, j - i, n);
    } else {
      SwipePositionAdd(i, n - i, j, n);
      SwipePositionForward(0, j, n);
    }
  }

  /** With distinct ids, swiping from any account reaches every account. */
  lemma SwipingReachesEveryAccount(accounts: seq<AppAccount>, i: nat, j: nat)
    requires DistinctIds(accounts)
    requires i < |accounts| && j < |accounts|
    ensures Swipes(accounts, accounts[i], MovesBetween(i, j, |accounts|)) == accounts[j]
  {
    SwipesAt(accounts, i, MovesBetween(i, j, |accounts|));
    SwipePositionCycle(i, j, |accounts|);
  }

  /** With distinct ids, one swipe per account comes back to the account the swiping started from. */
  lemma SwipingComesBack(accounts: seq<AppAccount>, i: nat)
    requires DistinctIds(accounts)
    requires i < |accounts|
    ensures Swipes(accounts, accounts[i], |accounts|) == accounts[i]
  {
    SwipesAt(accounts, i, |accounts|);
    SwipePositionCycle(i, i, |accounts|);
  }

  /** The root view. `presentedSheet` is the sheet of the view's router path. */
  class AppView {
    const appAccountsManager: AppAccountsManager
    const watcher: StreamWatcher
    const userPreferences: UserPreferences
    var selectedTab: Tab
    var presentedSheet: Option<SheetDestination>
    var accountsViewModel: seq<AppAccountViewModel>

    constructor (appAccountsManager: AppAccountsManager, watcher: StreamWatcher,
                 userPreferences: UserPreferences, selectedTab: Tab)
      ensures this.appAccountsManager == appAccountsManager && this.watcher == watcher
      ensures this.userPreferences == userPreferences && this.selectedTab == selectedTab
      ensures presentedSheet == None && accountsViewModel == []
    {
      this.appAccountsManager := appAccountsManager;
      this.watcher := watcher;
      this.userPreferences := userPreferences;
      this.selectedTab := selectedTab;
      presentedSheet := None;
      accountsViewModel := [];
    }

    /** The tab view's selection setter: the post tab opens the editor and is never selected. */
    method SelectTab(newTab: Tab)
      modifies this`selectedTab, this`presentedSheet
      ensures newTab == Post ==>
                selectedTab == old(selectedTab) &&
                presentedSheet == Some(NewStatusEditor(userPreferences.postVisibility))
      ensures newTab != Post ==> selectedTab == newTab && presentedSheet == old(presentedSheet)
      ensures old(selectedTab) != Post ==> selectedTab != Post
    {
      if newTab == Post {
        presentedSheet := Some(NewStatusEditor(userPreferences.postVisibility));
        return;
      }
      selectedTab := newTab;
    }

    /** The end of a drag: an upward one switches to the next account. */
    method DragEnded(translationHeight: real)
      requires translationHeight < 0.0 ==> |appAccountsManager.availableAccounts| > 0
      modifies appAccountsManager`currentAccount
      ensures translationHeight < 0.0 ==>
                appAccountsManager.currentAccount ==
                AccountAfter(appAccountsManager.availableAccounts, old(appAccountsManager.currentAccount).id)
      ensures translationHeight >= 0.0 ==>
                appAccountsManager.currentAccount == old(appAccountsManager.currentAccount)
    {
      if translationHeight < 0.0 {
        var accountToSet := ChooseNextAccount(appAccountsManager.availableAccounts,
                                              appAccountsManager.currentAccount.id);
        appAccountsManager.currentAccount := accountToSet;
      }
    }

    /** The badge of a tab: the current account's notification count on an unselected notifications tab. */
    function BadgeFor(tab: Tab): (n: int)
      reads this, appAccountsManager, watcher, userPreferences
      ensures n != 0 ==>
                tab == Notifications && selectedTab != tab && appAccountsManager.currentAccount.oauthToken.Some?
      ensures tab == Notifications && selectedTab != tab && appAccountsManager.currentAccount.oauthToken.Some? ==>
                var token := appAccountsManager.currentAccount.oauthToken.value;
                n == watcher.unreadNotificationsCount +
                     (if token in userPreferences.notificationsCount then userPreferences.notificationsCount[token] else 0)
    {
      var token := appAccountsManager.currentAccount.oauthToken;
      if tab == Notifications && selectedTab != tab && token.Some? then
        watcher.unreadNotificationsCount + Get(userPreferences.notificationsCount, token.value).GetOr(0)
      else
        0
    }

    /** Rebuilds the rows of the account selector: one per available account, in order. */
    method RefreshAccounts()
      modifies this`accountsViewModel
      ensures |accountsViewModel| == |appAccountsManager.availableAccounts|
      ensures forall i :: 0 <= i < |accountsViewModel| ==>
                accountsViewModel[i] == AppAccountViewModel(appAccountsManager.availableAccounts[i], false, true)
    {
      accountsViewModel := [];
      var accounts := appAccountsManager.availableAccounts;
      for i := 0 to |accounts|
        invariant |accountsViewModel| == i
        invariant forall j :: 0 <= j < i ==> accountsViewModel[j] == AppAccountViewModel(accounts[j], false, true)
      {
        var viewModel := AppAccountViewModel(accounts[i], false, true);
        accountsViewModel := accountsViewModel + [viewModel];
      }
    }
  }

  /** `dictionary[key]`: the value under a key, if any. */
  function Get<K, V>(m: map<K, V>, key: K): (r: Option<V>)
    ensures r.Some? <==> key in m
    ensures r.Some? ==> r.value == m[key]
  {
    if key in m then Some(m[key]) else None
  }
}
