/**
 * The application-wide state of the storefront: the signed-in user, the
 * selected product, the recently viewed products, the search history, the
 * display preferences and the last error. Every operation replaces the one
 * state record; the two history lists are most-recently-used lists capped at
 * ten entries.
 */
module AppState {
  import opened Common
  import opened Sequences
  import opened Products

  /** How many entries each history list keeps. */
  const RecentLimit: nat := 10

  /** `s.slice(0, n)` for a non-negative `n`. */
  function Take<T>(s: seq<T>, n: nat): (r: seq<T>)
    ensures |r| == if |s| <= n then |s| else n
    ensures r <= s
  {
    if |s| <= n then s else s[..n]
  }

  /** The entries whose key differs from `k`. */
  function KeyIsNot<T, K(==)>(key: T -> K, k: K): T -> bool {
    (y: T) => key(y) != k
  }

  /**
   * `[x, ...list.filter(y => key(y) !== key(x))].slice(0, 10)`: `x` moves
   * to the front, earlier entries with its key are dropped, the others keep
   * their order, and the list is cut to ten entries.
   */
  function PushRecent<T(==,!new), K(==)>(list: seq<T>, x: T, key: T -> K): (r: seq<T>)
    ensures 1 <= |r| <= RecentLimit && r[0] == x
    ensures forall i :: 1 <= i < |r| ==> key(r[i]) != key(x) && r[i] in list
    ensures r[1..] <= Filter(list, KeyIsNot(key, key(x)))
    ensures |r| == if |Filter(list, KeyIsNot(key, key(x)))| < RecentLimit
                   then 1 + |Filter(list, KeyIsNot(key, key(x)))| else RecentLimit
  {
    var rest := Filter(list, KeyIsNot(key, key(x)));
    var r := Take([x] + rest, RecentLimit);
    assert r[1..] <= rest by {
      assert ([x] + rest)[1..] == rest;
    }
    forall i | 1 <= i < |r| ensures key(r[i]) != key(x) && r[i] in list {
      assert r[i] == rest[i - 1] && rest[i - 1] in rest;
    }
    r
  }

  /** No two entries share a key. */
  predicate UniqueKeys<T, K(==)>(s: seq<T>, key: T -> K) {
    forall i, j :: 0 <= i < j < |s| ==> key(s[i]) != key(s[j])
  }

  lemma {:induction false} FilterUniqueKeys<T(!new), K>(s: seq<T>, p: T -> bool, key: T -> K)
    requires UniqueKeys(s, key)
    ensures UniqueKeys(Filter(s, p), key)
  {
    if s != [] {
      var tail := s[1..];
      assert UniqueKeys(tail, key) by {
        forall i, j | 0 <= i < j < |tail| ensures key(tail[i]) != key(tail[j]) {
          assert tail[i] == s[i + 1] && tail[j] == s[j + 1];
        }
      }
      FilterUniqueKeys(tail, p, key);
      FilterCons(s, p);
      var rest := Filter(tail, p);
      if p(s[0]) {
        forall y | y in rest ensures key(y) != key(s[0]) {
          var k :| 0 <= k < |tail| && tail[k] == y;
          assert s[k + 1] == y;
        }
        UniqueKeysCons(s[0], rest, key);
      } else {
        assert [] + rest == rest;
      }
    }
  }

  lemma UniqueKeysCons<T, K>(x: T, rest: seq<T>, key: T -> K)
    requires UniqueKeys(rest, key)
    requires forall y :: y in rest ==> key(y) != key(x)
    ensures UniqueKeys([x] + rest, key)
  {
    var r := [x] + rest;
    forall i, j | 0 <= i < j < |r| ensures key(r[i]) != key(r[j]) {
      assert r[j] == rest[j - 1];
      if i == 0 {
        assert rest[j - 1] in rest;
      } else {
        assert r[i] == rest[i - 1];
      }
    }
  }

  /** A most-recently-used list whose keys are unique stays so after a push. */
  lemma PushRecentUniqueKeys<T(!new), K>(list: seq<T>, x: T, key: T -> K)
    requires UniqueKeys(list, key)
    ensures UniqueKeys(PushRecent(list, x, key), key)
  {
    var rest := Filter(list, KeyIsNot(key, key(x)));
    FilterUniqueKeys(list, KeyIsNot(key, key(x)), key);
    var r := PushRecent(list, x, key);
    forall i, j | 0 <= i < j < |r| ensures key(r[i]) != key(r[j]) {
      if i > 0 {
        assert r[i] == rest[i - 1] && r[j] == rest[j - 1];
      }
    }
  }

  /** Pushing the entry that is already at the front changes nothing. */
  lemma PushRecentTwice<T(!new), K>(list: seq<T>, x: T, key: T -> K)
    ensures PushRecent(PushRecent(list, x, key), x, key) == PushRecent(list, x, key)
  {
    var keep := KeyIsNot(key, key(x));
    var r := PushRecent(list, x, key);
    var tail := r[1..];
    assert r == [x] + tail;
    FilterCons(r, keep);
    assert r[1..] == tail;
    forall i | 0 <= i < |tail| ensures keep(tail[i]) {
      assert tail[i] == r[i + 1];
    }
    FilterKeepsAll(tail, keep);
    assert [] + tail == tail;
  }

  /** The key of a viewed product. */
  function ProductKey(p: Product): ProductId {
    p.id
  }

  /** An entry of the search history: the term and the clock reading when it was searched. */
  datatype SearchHistoryItem = SearchHistoryItem(term: string, timestamp: nat)

  function TermKey(item: SearchHistoryItem): string {
    item.term
  }

  /** `addToLastViewed(product)`. */
  function LastViewedAfter(lastViewed: seq<Product>, product: Product): (r: seq<Product>)
    ensures 1 <= |r| <= RecentLimit && r[0] == product
    ensures forall i :: 1 <= i < |r| ==> r[i].id != product.id && r[i] in lastViewed
  {
    PushRecent(lastViewed, product, ProductKey)
  }

  /** `addToSearchHistory(term)`, where `now` stands for `Date.now()`. */
  function SearchHistoryAfter(history: seq<SearchHistoryItem>, term: string, now: nat): (r: seq<SearchHistoryItem>)
    ensures 1 <= |r| <= RecentLimit && r[0] == SearchHistoryItem(term, now)
    ensures forall i :: 1 <= i < |r| ==> r[i].term != term && r[i] in history
  {
    PushRecent(history, SearchHistoryItem(term, now), TermKey)
  }

  datatype Theme = Light | Dark

  datatype UserPreferences = UserPreferences(theme: Theme, currency: string, language: string, notifications: bool)

  /** A `Partial<UserPreferences>`: the keys an update sets. */
  datatype PreferencesPatch = PreferencesPatch(
    theme: Option<Theme>, currency: Option<string>, language: Option<string>, notifications: Option<bool>)

  const DefaultPreferences := UserPreferences(Light, "USD", "en", true)

  /** `{ ...prefs, ...patch }`. */
  function Merged(prefs: UserPreferences, patch: PreferencesPatch): (r: UserPreferences)
    ensures patch.theme.Some? ==> r.theme == patch.theme.value
    ensures patch.theme.None? ==> r.theme == prefs.theme
    ensures patch.currency.Some? ==> r.currency == patch.currency.value
    ensures patch.currency.None? ==> r.currency == prefs.currency
    ensures patch.language.Some? ==> r.language == patch.language.value
    ensures patch.language.None? ==> r.language == prefs.language
    ensures patch.notifications.Some? ==> r.notifications == patch.notifications.value
    ensures patch.notifications.None? ==> r.notifications == prefs.notifications
  {
    UserPreferences(
      patch.theme.GetOr(prefs.theme),
      patch.currency.GetOr(prefs.currency),
      patch.language.GetOr(prefs.language),
      patch.notifications.GetOr(prefs.notifications))
  }

  /** The keys of `first`, overridden by those of `second`. */
  function Override(first: PreferencesPatch, second: PreferencesPatch): PreferencesPatch {
    PreferencesPatch(
      if second.theme.Some? then second.theme else first.theme,
      if second.currency.Some? then second.currency else first.currency,
      if second.language.Some? then second.language else first.language,
      if second.notifications.Some? then second.notifications else first.notifications)
  }

  /** Two updates in a row are one update whose later keys win; an empty update changes nothing. */
  lemma MergedTwice(prefs: UserPreferences, first: PreferencesPatch, second: PreferencesPatch)
    ensures Merged(Merged(prefs, first), second) == Merged(prefs, Override(first, second))
    ensures Merged(prefs, PreferencesPatch(None, None, None, None)) == prefs
  {
  }

  /** `AppState`; `U` is the signed-in user record, which the state only stores. */
  datatype State<U> = State(
    currentUser: Option<U>,
    selectedProduct: Option<Product>,
    lastViewedProducts: seq<Product>,
    searchHistory: seq<SearchHistoryItem>,
    userPreferences: UserPreferences,
    isLoading: bool,
    error: Option<string>)

  function InitialState<U>(): State<U> {
    State(None, None, [], [], DefaultPreferences, false, None)
  }

  /** Both history lists hold at most ten entries with distinct keys. */
  ghost predicate HistoriesValid<U>(s: State<U>) {
    && |s.lastViewedProducts| <= RecentLimit && UniqueKeys(s.lastViewedProducts, ProductKey)
    && |s.searchHistory| <= RecentLimit && UniqueKeys(s.searchHistory, TermKey)
  }

  /** The application state holder: each method replaces `state` through `setState`. */
  class AppStore<U> {
    var state: State<U>

    ghost predicate Valid()
      reads this
    {
      HistoriesValid(state)
    }

    constructor ()
      ensures state == InitialState() && Valid()
    {
      state := InitialState();
    }

    method SetCurrentUser(user: Option<U>)
      requires Valid()
      modifies this
      ensures state == old(state).(currentUser := user) && Valid()
    {
      state := state.(currentUser := user);
    }

    method SetSelectedProduct(product: Option<Product>)
      requires Valid()
      modifies this
      ensures state == old(state).(selectedProduct := product) && Valid()
    {
      state := state.(selectedProduct := product);
    }

    method AddToLastViewed(product: Product)
      requires Valid()
      modifies this
      ensures state == old(state).(lastViewedProducts := LastViewedAfter(old(state.lastViewedProducts), product))
      ensures Valid()
    {
      PushRecentUniqueKeys(state.lastViewedProducts, product, ProductKey);
      state := state.(lastViewedProducts := LastViewedAfter(state.lastViewedProducts, product));
    }

    method ClearLastViewed()
      requires Valid()
      modifies this
      ensures state == old(state).(lastViewedProducts := []) && Valid()
    {
      state := state.(lastViewedProducts := []);
    }

    /** `addToSearchHistory`: `now` is the clock reading. */
    method AddToSearchHistory(term: string, now: nat)
      requires Valid()
      modifies this
      ensures state == old(state).(searchHistory := SearchHistoryAfter(old(state.searchHistory), term, now))
      ensures Valid()
    {
      PushRecentUniqueKeys(state.searchHistory, SearchHistoryItem(term, now), TermKey);
      state := state.(searchHistory := SearchHistoryAfter(state.searchHistory, term, now));
    }

    method ClearSearchHistory()
      requires Valid()
      modifies this
      ensures state == old(state).(searchHistory := []) && Valid()
    {
      state := state.(searchHistory := []);
    }

    method UpdateUserPreferences(preferences: PreferencesPatch)
      requires Valid()
      modifies this
      ensures state == old(state).(userPreferences := Merged(old(state.userPreferences), preferences))
      ensures Valid()
    {
      state := state.(userPreferences := Merged(state.userPreferences, preferences));
    }

    method SetError(error: Option<string>)
      requires Valid()
      modifies this
      ensures state == old(state).(error := error) && Valid()
    {
      state := state.(error := error);
    }
  }
}
