# EcoBAZAARX storefront core in Dafny

This project models the parts of the EcoBAZAARX marketplace that carry logic, and proves properties of them.

**Backend identity service.** Four Spring controllers act on a table of user accounts:
- sign-up (`createUser`), email verification (`verifyEmail`) and login (`userPresent`);
- the two halves of the password reset (`sendForgotPassword`, `resetPassword`).

All of them share one nullable token column on the `User` entity. The model has two layers:
- `Identity` describes each handler as a function from the persisted state (accounts by email, mail outbox, saved rows, token and id counters) to the new state and the HTTP response.
- `AccountStore.Store` is the handlers as written: they load a mutable `Accounts.User` entity, call its setters, save it and hand mail to the sender. Each handler method is proved to produce exactly the state and response that `Identity` gives.

`IdentityLemmas` chains requests (`Run`) and proves what holds across any later activity:
- the store invariant;
- tokens are single-use;
- a newer token supersedes an older one;
- verification is permanent;
- what login reads and what it ignores.

**React state containers.** Each is a class whose methods replace the held state by a pure function of the old state:
- the cart (`Cart`);
- the liked products (`Likes`);
- the application state with its two most-recently-used lists (`AppState`);
- the eco-points leaderboard (`Leaderboard`);
- the product catalogue with its filter and sort pipeline (`ProductCatalog`).

Lemmas about those functions state the invariants the containers keep (unique ids, caps, sortedness, ranks) and the arithmetic of totals.

**Pure helpers.** Two modules hold the pure helpers:
- `Products` holds the utility functions: sorting by a named key, free-text search, unique categories, grouping by category and product-form validation.
- `Payment` holds the card-number, expiry and CVV checks of the payment form, and its acceptance condition.

Three support modules model the JavaScript built-ins the code relies on:
- `Sequences`: `filter`, `map`, a stable `sort`, and de-duplication through a `Set`.
- `Text`: `\s`, `\d`, `trim`, `toLowerCase`, `includes`, removing whitespace, and `Number.prototype.toString`.
- `Common`: `null`/`undefined` as `Option`.

Outside inputs are parameters of the operations:
- the clock (`now`, the current year and month);
- the password encoder's salt;
- the token helper's signature-and-expiry verdict (`signatureValid`).

The token helper hands out tokens from a serial counter kept in the store. This models the assumption that a freshly generated token differs from every earlier one (`Identity.NextTokenIsFresh`). The single-use lemmas rest on it.

## Model

Paths are relative to the repository root.

| member | source | states |
|---|---|---|
| Accounts.EncodeThenMatches | backend/src/main/java/com/example/demo/Controller/RegistrationController.java:50 | an encoded password matches its plaintext, and only that plaintext |
| Accounts.User.constructor | backend/src/main/java/com/example/demo/Model/User.java:24-42 | a new entity is unverified, not seller, not admin, and holds no token |
| Accounts.User.Load | backend/src/main/java/com/example/demo/Model/User.java:18-42 | an entity loaded from a row holds exactly that row |
| Accounts.User.SetVerified | backend/src/main/java/com/example/demo/Model/User.java:43-48 | `setVerified(b)` changes only the flag, and `isVerified()` then returns `b` |
| Accounts.User.SetVerificationToken | backend/src/main/java/com/example/demo/Model/User.java:32 | the setter changes the token column only |
| Accounts.User.SetPassword | backend/src/main/java/com/example/demo/Model/User.java:30-31 | the setter changes the password column only |
| Identity.NextTokenIsFresh | backend/src/main/java/com/example/demo/Controller/RegistrationController.java:42 | on a store satisfying the invariant, the next token differs from every stored and every mailed token |
| Identity.UpdateKeepsInv | backend/src/main/java/com/example/demo/Controller/VerificationController.java:36-38 | rewriting one row, keeping its identity fields and holding only its own fresh token, keeps the invariant |
| Identity.InsertKeepsInv | backend/src/main/java/com/example/demo/Controller/RegistrationController.java:50-54 | inserting a row under a new email, with a new username and id, keeps the invariant (unique emails, usernames, ids) |
| Identity.Register | backend/src/main/java/com/example/demo/Controller/RegistrationController.java:31-58 | a taken username gives 400 before anything else, with no change. A verified email gives 400 with no change. An unverified email gets only its token replaced, and that token is mailed. A new email is saved as received, with an encoded password and a fresh token, which is mailed. Failures save nothing and successes save exactly one row. The invariant is kept |
| Identity.Verify | backend/src/main/java/com/example/demo/Controller/VerificationController.java:25-41 | every refusal (unknown email, no token, invalid or different token) is the same 403 with no change. On an invariant store an accepted token always gives 201. Success clears the token and sets verified, changing nothing else. The invariant is kept |
| Identity.Login | backend/src/main/java/com/example/demo/Controller/LoginController.java:26-48 | an unknown email gives 404. A known email with a non-matching password gives 401. A match gives 200 with the stored row |
| Identity.ForgotPassword | backend/src/main/java/com/example/demo/Controller/ForgotPasswordController.java:31-52 | an unknown email gives 404 with no change. A known one has only its token replaced by a fresh one, which is saved and mailed. The invariant is kept |
| Identity.Reset | backend/src/main/java/com/example/demo/Controller/ForgotPasswordController.java:57-81 | every refusal is the same 403 with no change. On an invariant store an accepted token always succeeds. Success stores a password matching the new one, clears the token and changes nothing else, `verified` included |
| IdentityLemmas.Step | backend/src/main/java/com/example/demo/Controller/LoginController.java:26-48 | any handler keeps the invariant, never forgets an account, never rewinds the token counter, and login writes nothing |
| IdentityLemmas.RunKeepsInv | backend/src/main/java/com/example/demo/Controller/RegistrationController.java:33-54 | the invariant (unique emails, usernames and ids; tokens already issued) holds after any sequence of requests |
| IdentityLemmas.SpentIsRejected | backend/src/main/java/com/example/demo/Controller/VerificationController.java:29-35 | a token that no account holds is refused |
| IdentityLemmas.StepKeepsSpent | backend/src/main/java/com/example/demo/Controller/ForgotPasswordController.java:40-44 | no handler ever stores a token that was issued before |
| IdentityLemmas.RunKeepsSpent | backend/src/main/java/com/example/demo/Controller/ForgotPasswordController.java:40-44 | a spent token stays spent across any sequence of requests |
| IdentityLemmas.AcceptanceSpends | backend/src/main/java/com/example/demo/Controller/ForgotPasswordController.java:77 | verification and reset spend the token they accept |
| IdentityLemmas.NoReplay | backend/src/main/java/com/example/demo/Controller/VerificationController.java:29-37 | after a verification or a reset has accepted a token, both endpoints refuse it with 403, whatever requests come in between |
| IdentityLemmas.ForgotPasswordSupersedes | backend/src/main/java/com/example/demo/Controller/ForgotPasswordController.java:43 | after a reset request, the account's earlier token is never accepted again |
| IdentityLemmas.ResendSupersedes | backend/src/main/java/com/example/demo/Controller/RegistrationController.java:42-44 | after a resend, the account's earlier verification token is never accepted again |
| IdentityLemmas.ResetTokenVerifiesEmail | backend/src/main/java/com/example/demo/Controller/ForgotPasswordController.java:40-49 | the token of a reset mail verifies an unverified account |
| IdentityLemmas.VerificationTokenResetsPassword | backend/src/main/java/com/example/demo/Controller/ForgotPasswordController.java:62-78 | the token of a sign-up mail is accepted by the reset endpoint |
| IdentityLemmas.VerifiedIsPermanent | backend/src/main/java/com/example/demo/Controller/VerificationController.java:37 | a verified account stays present and verified after any sequence of requests |
| IdentityLemmas.LoginReadsOnlyCredentials | backend/src/main/java/com/example/demo/Controller/LoginController.java:29-33 | two login bodies with the same email and password get the same response |
| IdentityLemmas.LoginIgnoresVerification | backend/src/main/java/com/example/demo/Controller/LoginController.java:29-42 | the login status does not depend on the account being verified |
| IdentityLemmas.ResetChangesLogin | backend/src/main/java/com/example/demo/Controller/ForgotPasswordController.java:74 | after a reset, login succeeds exactly with the new password |
| IdentityLemmas.VerifiedAccountsMayHoldTokens | backend/src/main/java/com/example/demo/Controller/ForgotPasswordController.java:43 | a reset request leaves a verified account verified and holding a token |
| IdentityLemmas.SignupVerifyLogin | backend/src/main/java/com/example/demo/Controller/RegistrationController.java:50-57 | sign-up, then the mailed link, then login succeeds, and the account ends verified with no token |
| AccountStore.Store.constructor | backend/src/main/java/com/example/demo/Model/User.java:18-42 | an empty store satisfies the invariant |
| AccountStore.Store.UsernamePresent | backend/src/main/java/com/example/demo/Controller/RegistrationController.java:33 | true exactly when some account has the username |
| AccountStore.Store.FindByEmail | backend/src/main/java/com/example/demo/Controller/RegistrationController.java:36 | null exactly for an unknown email, otherwise a fresh entity holding the row |
| AccountStore.Store.GenerateToken | backend/src/main/java/com/example/demo/Controller/RegistrationController.java:42 | returns the next token and advances the counter only |
| AccountStore.Store.Save | backend/src/main/java/com/example/demo/Model/User.java:24-40 | a blank username is refused with no write. An insert gets the next id and the database timestamp. The row is stored and recorded |
| AccountStore.Store.SendVerificationEmail | backend/src/main/java/com/example/demo/Controller/RegistrationController.java:46 | appends one verification mail |
| AccountStore.Store.SendForgotPasswordEmail | backend/src/main/java/com/example/demo/Controller/ForgotPasswordController.java:49 | appends one reset mail |
| AccountStore.Store.CreateUser | backend/src/main/java/com/example/demo/Controller/RegistrationController.java:31-58 | gives exactly the state and response of `Identity.Register`, and keeps the invariant |
| AccountStore.Store.ResendVerification | backend/src/main/java/com/example/demo/Controller/RegistrationController.java:42-47 | the unverified branch: a new token, saved on the entity and mailed |
| AccountStore.Store.RegisterNew | backend/src/main/java/com/example/demo/Controller/RegistrationController.java:50-57 | the new-account branch: an encoded password and a new token, saved and mailed |
| AccountStore.Store.VerifyEmail | backend/src/main/java/com/example/demo/Controller/VerificationController.java:25-41 | gives exactly the state and response of `Identity.Verify`, and keeps the invariant |
| AccountStore.Store.SendForgotPassword | backend/src/main/java/com/example/demo/Controller/ForgotPasswordController.java:31-52 | gives exactly the state and response of `Identity.ForgotPassword`, and keeps the invariant |
| AccountStore.Store.ResetPassword | backend/src/main/java/com/example/demo/Controller/ForgotPasswordController.java:57-81 | gives exactly the state and response of `Identity.Reset`, and keeps the invariant |
| Cart.Added | frontend/src/context/CartContext.tsx:50-70 | an absent product is appended as one item, quantity defaulting to 1. A present one gets the quantity added in place, length unchanged |
| Cart.Removed | frontend/src/context/CartContext.tsx:72-74 | drops every item of the product and keeps exactly the other items |
| Cart.Requantified | frontend/src/context/CartContext.tsx:76-89 | a quantity of at most 0 is `removeFromCart`. Otherwise only that product's quantity is set, with ids, order and timestamps kept |
| Cart.UpdatesKeepUniqueIds | frontend/src/context/CartContext.tsx:50-89 | add, remove and update keep at most one item per product |
| Cart.TotalItems | frontend/src/context/CartContext.tsx:112-115 | `totalItems`, the reference sum that `AddedSums`, `RemovedSums` and `RequantifiedSums` relate the cart updates to: 0 for an empty cart |
| Cart.TotalItemsBound | frontend/src/context/CartContext.tsx:112-115 | with no negative quantity, `totalItems` is never negative and is at least each item's quantity |
| Cart.TotalPrice | frontend/src/context/CartContext.tsx:117-122 | `totalPrice`, the reference sum over `getCartProducts` that `RemovedPrice` relates removal to: 0.0 for an empty cart, never negative when no price or quantity is |
| Cart.AddedSums | frontend/src/context/CartContext.tsx:50-69 | `totalItems` grows by exactly the added quantity, and so does the product's own quantity; other products are unchanged |
| Cart.RemovedSums | frontend/src/context/CartContext.tsx:72-74 | `totalItems` drops by exactly the product's quantity; other products are unchanged |
| Cart.RequantifiedSums | frontend/src/context/CartContext.tsx:82-88 | the product's quantity becomes `q`, and `totalItems` moves by the difference |
| Cart.BumpSums | frontend/src/context/CartContext.tsx:56-60 | adding `q` in place adds `q` per matching item to the total and to that product |
| Cart.SetToSums | frontend/src/context/CartContext.tsx:82-88 | setting in place replaces that product's quantity by `q` per matching item |
| Cart.OneItemPerProduct | frontend/src/context/CartContext.tsx:52 | with unique ids, a product in the cart has exactly one item |
| Cart.FindProduct | frontend/src/context/CartContext.tsx:95-97 | finds a product with the id exactly when the catalogue has one |
| Cart.FindProductFirst | frontend/src/context/CartContext.tsx:95-97 | the product found is the first with that id |
| Cart.GetCartProducts | frontend/src/context/CartContext.tsx:99-110 | at most one line per item, each for a catalogue product, and no negative line quantity when the items have none |
| Cart.CartProductsAllKnown | frontend/src/context/CartContext.tsx:99-110 | when every product is known, line `i` is item `i` joined with its product |
| Cart.CartProductsSkipUnknown | frontend/src/context/CartContext.tsx:101-109 | an item whose product is unknown contributes no line |
| Cart.RemovedPrice | frontend/src/context/CartContext.tsx:117-122 | removing a product takes its price times its quantity off `totalPrice` |
| Cart.CartStore.constructor | frontend/src/context/CartContext.tsx:30 | the cart starts empty |
| Cart.CartStore.AddToCart | frontend/src/context/CartContext.tsx:50-70 | replaces the items by `Added` and keeps ids unique |
| Cart.CartStore.RemoveFromCart | frontend/src/context/CartContext.tsx:72-74 | replaces the items by `Removed` and keeps ids unique |
| Cart.CartStore.UpdateQuantity | frontend/src/context/CartContext.tsx:76-89 | replaces the items by `Requantified` and keeps ids unique |
| Cart.CartStore.ClearCart | frontend/src/context/CartContext.tsx:91-93 | leaves an empty cart whose `totalItems` is 0 |
| Likes.WithLike | frontend/src/context/LikesContext.tsx:47-54 | the id is liked afterwards; an absent id is appended, a present one leaves the list as it was |
| Likes.WithoutLike | frontend/src/context/LikesContext.tsx:56-58 | every copy of the id is dropped; every other id keeps its count and the remaining ids keep their order (a subsequence) |
| Likes.Toggled | frontend/src/context/LikesContext.tsx:64-72 | flips whether the id is liked and leaves every other id's membership as it was |
| Likes.WithLikeIdempotent | frontend/src/context/LikesContext.tsx:47-54 | liking twice is liking once |
| Likes.WithoutAbsent | frontend/src/context/LikesContext.tsx:56-58 | removing an id that is not liked changes nothing |
| Likes.ToggleTwiceAbsent | frontend/src/context/LikesContext.tsx:64-72 | toggling an absent id twice restores the list exactly |
| Likes.ToggleTwicePresent | frontend/src/context/LikesContext.tsx:64-72 | toggling a liked id twice keeps it liked but moves it to the end |
| Likes.UpdatesKeepNoDuplicates | frontend/src/context/LikesContext.tsx:47-72 | add, remove and toggle never create a duplicate |
| Likes.LikesStore.constructor | frontend/src/context/LikesContext.tsx:26 | no product is liked at first |
| Likes.LikesStore.IsLiked | frontend/src/context/LikesContext.tsx:60-62 | true exactly when the id occurs in the list |
| Likes.LikesStore.AddToLikes | frontend/src/context/LikesContext.tsx:47-54 | replaces the list by `WithLike`; afterwards the id is liked |
| Likes.LikesStore.RemoveFromLikes | frontend/src/context/LikesContext.tsx:56-58 | replaces the list by `WithoutLike`; afterwards the id is not liked |
| Likes.LikesStore.ToggleLike | frontend/src/context/LikesContext.tsx:64-72 | replaces the list by `Toggled`; `isLiked` flips |
| AppState.Take | frontend/src/context/AppContext.tsx:49 | `slice(0, n)` is the prefix of length `min(n, length)` |
| AppState.PushRecent | frontend/src/context/AppContext.tsx:46-49 | the new entry comes first, followed by a prefix of the old entries with a different key, at most 10 in all |
| AppState.FilterUniqueKeys | frontend/src/context/AppContext.tsx:48 | filtering keeps keys unique |
| AppState.PushRecentUniqueKeys | frontend/src/context/AppContext.tsx:46-49 | pushing keeps the keys of a most-recently-used list unique |
| AppState.PushRecentTwice | frontend/src/context/AppContext.tsx:46-49 | pushing the entry already in front changes nothing |
| AppState.LastViewedAfter | frontend/src/context/AppContext.tsx:43-51 | the product is first, the others are earlier entries with other ids, at most 10 |
| AppState.SearchHistoryAfter | frontend/src/context/AppContext.tsx:58-66 | the term with the clock reading is first, the others are earlier entries with other terms, at most 10 |
| AppState.Merged | frontend/src/context/AppContext.tsx:73-78 | keys given in the patch win and the other preference keys keep their values |
| AppState.MergedTwice | frontend/src/context/AppContext.tsx:73-78 | two updates are one update with later keys winning; an empty update changes nothing |
| AppState.AppStore.constructor | frontend/src/context/AppContext.tsx:7-26 | the initial state, with the default preferences |
| AppState.AppStore.SetCurrentUser | frontend/src/context/AppContext.tsx:34-36 | changes only `currentUser` |
| AppState.AppStore.SetSelectedProduct | frontend/src/context/AppContext.tsx:39-41 | changes only `selectedProduct` |
| AppState.AppStore.AddToLastViewed | frontend/src/context/AppContext.tsx:43-51 | changes only the viewed list, to `LastViewedAfter`, keeping it capped with unique ids |
| AppState.AppStore.ClearLastViewed | frontend/src/context/AppContext.tsx:53-55 | empties the viewed list only |
| AppState.AppStore.AddToSearchHistory | frontend/src/context/AppContext.tsx:58-66 | changes only the search history, to `SearchHistoryAfter`, keeping it capped with unique terms |
| AppState.AppStore.ClearSearchHistory | frontend/src/context/AppContext.tsx:68-70 | empties the search history only |
| AppState.AppStore.UpdateUserPreferences | frontend/src/context/AppContext.tsx:73-78 | changes only the preferences, to `Merged` |
| AppState.AppStore.SetError | frontend/src/context/AppContext.tsx:81-83 | changes only `error` |
| Leaderboard.MorePointsIsTotalPreorder | frontend/src/context/LeaderboardContext.tsx:96 | the comparator `b.ecoPoints - a.ecoPoints` is a consistent order |
| Leaderboard.Renumbered | frontend/src/context/LeaderboardContext.tsx:97 | entry `i` takes rank `i + 1`, and nothing else changes |
| Leaderboard.UpdatedBoard | frontend/src/context/LeaderboardContext.tsx:87-103 | same length and same user ids; ordered by non-increasing points with ranks 1..n; apart from rank, exactly the old entries with the user's restated |
| Leaderboard.UpdatedEntryHasNewStats | frontend/src/context/LeaderboardContext.tsx:89-93 | the user's entry carries the new points, carbon saved and purchase count |
| Leaderboard.UnknownUserChangesNothing | frontend/src/context/LeaderboardContext.tsx:89-97 | on a well-ranked board, an unknown user leaves the board exactly as it was |
| Leaderboard.UpdateKeepsUniqueIds | frontend/src/context/LeaderboardContext.tsx:89-97 | unique user ids stay unique |
| Leaderboard.UserRank | frontend/src/context/LeaderboardContext.tsx:105-108 | the rank of the first entry for the user, or 0 when there is none |
| Leaderboard.RankIsPosition | frontend/src/context/LeaderboardContext.tsx:105-108 | on a well-ranked board with unique ids, a user's rank is their position plus one |
| Leaderboard.RankAfterUpdate | frontend/src/context/LeaderboardContext.tsx:87-108 | after an update, every user's rank is their position plus one |
| Leaderboard.TopUsers | frontend/src/context/LeaderboardContext.tsx:110-112 | a prefix of length `min(limit, n)`; a negative limit counts back from the end |
| Leaderboard.TopUsersAreTop | frontend/src/context/LeaderboardContext.tsx:110-112 | the top users have at least the points of everyone left out, and ranks 1..k |
| Leaderboard.InitialLeaderboardWellRanked | frontend/src/context/LeaderboardContext.tsx:40-81 | the sample board is sorted by points, ranked 1..5, with unique ids |
| Leaderboard.LeaderboardStore.constructor | frontend/src/context/LeaderboardContext.tsx:40-82 | the board starts as the sample board and is well ranked |
| Leaderboard.LeaderboardStore.UpdateUserPoints | frontend/src/context/LeaderboardContext.tsx:87-103 | replaces the board by `UpdatedBoard`, keeping it well ranked with unique ids |
| Products.ApplyPatch | frontend/src/context/ProductContext.tsx:147 | each of the nine fields is taken from the patch when present and kept otherwise; an empty patch changes nothing |
| Products.ParseSortKey | frontend/src/utils/index.ts:46-59 | each of the five names selects its own key; every other string selects none |
| Products.SortKeyRoundTrip | frontend/src/utils/index.ts:46-59 | every key is recognised from its own name |
| Products.LexLeTotal | frontend/src/utils/index.ts:56 | the name order relates any two names |
| Products.LexLeTransitive | frontend/src/utils/index.ts:56 | the name order is transitive |
| Products.PrecedesIsTotalPreorder | frontend/src/utils/index.ts:45-60 | every comparator is a consistent order |
| Products.SortBy | frontend/src/context/ProductContext.tsx:83-101 | a permutation in the key's order; with no key, the input order |
| Products.SortByStable | frontend/src/context/ProductContext.tsx:83-101 | products whose sort keys tie keep their catalogue order |
| Products.SortProducts | frontend/src/utils/index.ts:44-61 | a permutation of the input. Non-decreasing for the `-low` keys and non-increasing for the `-high` keys. Ordered by name for `name`. An unrecognised key keeps the input order |
| Products.FilterProductsBySearch | frontend/src/utils/index.ts:66-73 | a subsequence of the input that holds every product whose name, description or category contains the lowercased term, as often as in the input, and no other product; an empty term keeps everything |
| Products.Categories | frontend/src/utils/index.ts:96 | the category of each product, in order |
| Products.UniqueCategories | frontend/src/utils/index.ts:95-97 | no duplicates, the same set as the input categories, in first-occurrence order |
| Products.Push | frontend/src/utils/index.ts:104-109 | adds the product's category as a key and changes no other group |
| Products.GroupByCategory | frontend/src/utils/index.ts:102-111 | one group per category of the input, each holding exactly that category's products in input order |
| Products.GroupsOfFilters | frontend/src/utils/index.ts:103-110 | the reduction yields, per category, the products of that category in order |
| Products.PushValues | frontend/src/utils/index.ts:105-108 | pushing onto a correct grouping of a prefix gives the grouping of the longer prefix |
| Products.GroupSizesSum | frontend/src/utils/index.ts:102-111 | over categories that cover every product, once each, the group sizes add up to the number of products |
| Products.GroupByCategorySizes | frontend/src/utils/index.ts:102-111 | every product in group `c` has category `c`, and the group sizes sum to the input length |
| Products.Check | frontend/src/utils/index.ts:128-142 | one rule's message exactly when the form fails it |
| Products.Failures | frontend/src/utils/index.ts:125-145 | empty exactly when the form passes every rule |
| Products.FailuresOfRules | frontend/src/utils/index.ts:125-145 | the messages of the failed rules in the order name, price, description, carbon; none exactly when all four pass |
| Products.ValidateProduct | frontend/src/utils/index.ts:125-145 | the failed rules' messages in the fixed order; `[]` exactly when name ≥ 3, price > 0, description ≥ 10 and carbon ≥ 0 |
| ProductCatalog.SearchActiveIffTrimmed | frontend/src/context/ProductContext.tsx:48 | the search runs exactly when the query is present and non-empty after `trim()` |
| ProductCatalog.ApplyStage | frontend/src/context/ProductContext.tsx:48-80 | one filter step takes the products passing the first `n` stages to those passing `n + 1` |
| ProductCatalog.StageOffPassesAll | frontend/src/context/ProductContext.tsx:63-78 | a switched-off filter keeps every product |
| ProductCatalog.AllStagesSelect | frontend/src/context/ProductContext.tsx:48-80 | passing all six stages is being selected |
| ProductCatalog.FilteredProducts | frontend/src/context/ProductContext.tsx:44-104 | exactly the selected products, each as often as in the catalogue, sorted by the chosen key. It is the stable sort `SortBy` of the selection, so products with tied keys keep catalogue order (`Products.SortByStable`). Unsorted, they keep catalogue order. No duplicates if the catalogue has none |
| ProductCatalog.SortedSelection | frontend/src/context/ProductContext.tsx:82-103 | sorting the selection keeps exactly the selected products, in the key's order |
| ProductCatalog.DefaultFiltersSelectAll | frontend/src/context/ProductContext.tsx:38-42 | under the initial options every product is shown |
| ProductCatalog.ZeroBoundIsIgnored | frontend/src/context/ProductContext.tsx:63-78 | a bound of 0 behaves as an absent bound, for each of the four bounds |
| ProductCatalog.BlankQueryIsIgnored | frontend/src/context/ProductContext.tsx:48 | a whitespace-only query behaves as no query |
| ProductCatalog.ShownWithinBounds | frontend/src/context/ProductContext.tsx:48-80 | a shown product matches the active search and category, and lies within every truthy bound |
| ProductCatalog.WithNewProduct | frontend/src/context/ProductContext.tsx:138-144 | exactly one product is appended, with the clock's decimal string as id, after the unchanged list |
| ProductCatalog.NewIdsDiffer | frontend/src/context/ProductContext.tsx:141 | products added at different clock readings get different ids |
| ProductCatalog.WithUpdate | frontend/src/context/ProductContext.tsx:146-148 | only products with the id change, and they take the patch |
| ProductCatalog.UpdateWithoutEffect | frontend/src/context/ProductContext.tsx:146-148 | an unknown id or an empty patch changes nothing |
| ProductCatalog.WithoutProduct | frontend/src/context/ProductContext.tsx:150-152 | every product with the id is dropped; every other product keeps its count and the order is kept (a subsequence) |
| ProductCatalog.DeleteAbsent | frontend/src/context/ProductContext.tsx:150-152 | deleting an unknown id changes nothing |
| ProductCatalog.DeletedNeverShown | frontend/src/context/ProductContext.tsx:44-104 | a deleted product never appears in the filtered view |
| ProductCatalog.ProductsBySeller | frontend/src/context/ProductContext.tsx:154-158 | `getProductsBySeller` returns as many products as the catalogue holds, including every product of another seller |
| ProductCatalog.ProductsBySellerIgnoresSeller | frontend/src/context/ProductContext.tsx:154-158 | every product is returned whatever the seller id |
| ProductCatalog.ProductStore.constructor | frontend/src/context/ProductContext.tsx:37-42 | the initial catalogue with the default options |
| ProductCatalog.ProductStore.SetFilterOptions | frontend/src/context/ProductContext.tsx:38 | replaces the options only |
| ProductCatalog.ProductStore.SortProducts | frontend/src/context/ProductContext.tsx:106-108 | changes only `sortBy` |
| ProductCatalog.ProductStore.FilterByCategory | frontend/src/context/ProductContext.tsx:110-112 | changes only `category` |
| ProductCatalog.ProductStore.ResetFilters | frontend/src/context/ProductContext.tsx:114-124 | restores the initial options |
| ProductCatalog.ProductStore.SearchProducts | frontend/src/context/ProductContext.tsx:126-128 | changes only `searchQuery` |
| ProductCatalog.ProductStore.SetCO2MaxFilter | frontend/src/context/ProductContext.tsx:130-132 | changes only `co2Max` |
| ProductCatalog.ProductStore.SetMinCO2Filter | frontend/src/context/ProductContext.tsx:134-136 | changes only `minCO2` |
| ProductCatalog.ProductStore.AddProduct | frontend/src/context/ProductContext.tsx:138-144 | the list becomes `WithNewProduct`; options untouched |
| ProductCatalog.ProductStore.UpdateProduct | frontend/src/context/ProductContext.tsx:146-148 | the list becomes `WithUpdate`; options untouched |
| ProductCatalog.ProductStore.DeleteProduct | frontend/src/context/ProductContext.tsx:150-152 | the list becomes `WithoutProduct`; options untouched |
| Payment.ValidateCardNumber | frontend/src/pages/PaymentPage.tsx:98-99 | true exactly when the number without whitespace has 16 characters and every other character is a digit |
| Payment.CardNumberSpacingIgnored | frontend/src/pages/PaymentPage.tsx:99 | inserting whitespace anywhere does not change the verdict |
| Payment.GroupedCardNumberValid | frontend/src/pages/PaymentPage.tsx:98-99 | four space-separated groups of four digits pass |
| Payment.ValidateCVV | frontend/src/pages/PaymentPage.tsx:108 | true exactly for 3 or 4 digits, with no whitespace allowed |
| Payment.ExpiryMonth | frontend/src/pages/PaymentPage.tsx:102 | the month field read as tens and units, at most 99 |
| Payment.ExpiryYear | frontend/src/pages/PaymentPage.tsx:102 | the year field read as tens and units, at most 99 |
| Payment.ValidateExpiry | frontend/src/pages/PaymentPage.tsx:100-107 | accepts only `DD/DD` with a month in 1..12; for such an expiry, accepted exactly when its two-digit year is later than the current one, or equal with a month no earlier than the current month |
| Payment.ExpiryThisYear | frontend/src/pages/PaymentPage.tsx:104-106 | in the current two-digit year, accepted exactly up to and including its month |
| Payment.ExpiryValidEarlier | frontend/src/pages/PaymentPage.tsx:104-106 | within a century, an expiry accepted now was accepted at every earlier month |
| Payment.ExpiryExamples | frontend/src/pages/PaymentPage.tsx:100-107 | in June 2025: `06/25` and `01/26` pass, while `05/25`, `13/30` and `6/25` fail |
| Payment.PaymentAccepted | frontend/src/pages/PaymentPage.tsx:117-122 | success exactly when the name is non-empty, the card number has 16 digits once whitespace is removed and nothing else, the expiry is `DD/DD` with a month in 1..12 and not in the past, and the CVV is 3 or 4 digits |
| Payment.PaymentAcceptedExample | frontend/src/pages/PaymentPage.tsx:117-122 | a named holder with a grouped card number, `06/25` in June 2025 and a three-digit CVV is accepted |
| Text.ToLower | frontend/src/utils/index.ts:67 | same length; letters lowered, other characters kept |
| Text.ContainsAt | frontend/src/utils/index.ts:69-71 | `includes` holds exactly when the term occurs at some offset |
| Text.TrimEmptyIffBlank | frontend/src/context/ProductContext.tsx:48 | `trim()` yields `""` exactly for whitespace-only strings |
| Text.RemoveWhitespace | frontend/src/pages/PaymentPage.tsx:99 | no whitespace is left, and every other character is kept |
| Text.RemoveWhitespaceAppend | frontend/src/pages/PaymentPage.tsx:99 | whitespace removal distributes over concatenation |
| Text.DecimalString | frontend/src/context/ProductContext.tsx:141 | `toString()` of a natural number gives digits with no leading zero |
| Text.DecimalRoundTrip | frontend/src/context/ProductContext.tsx:141 | reading the digits back gives the number |
| Text.DecimalStringInjective | frontend/src/context/ProductContext.tsx:141 | different numbers give different strings |
| Sequences.Filter | frontend/src/context/ProductContext.tsx:50-79 | `filter` keeps exactly the elements that pass, as a sub-multiset |
| Sequences.FilterCounts | frontend/src/context/ProductContext.tsx:50-79 | `filter` keeps each passing element as often as it occurs and drops every other |
| Sequences.FilterIsSubsequence | frontend/src/context/ProductContext.tsx:50-79 | what `filter` keeps stays in its original order |
| Sequences.Dedup | frontend/src/utils/index.ts:96 | `Array.from(new Set(s))` has no duplicates and the same elements |
| Sequences.DedupFirstOccurrenceOrder | frontend/src/utils/index.ts:96 | the `Set` lists values by first occurrence |
| Sequences.Sort | frontend/src/context/LeaderboardContext.tsx:96 | the stable sort returns a permutation of its input |
| Sequences.SortSorted | frontend/src/context/LeaderboardContext.tsx:96 | under a consistent comparator, the sort's output is in order |
| Sequences.SortOfSorted | frontend/src/context/LeaderboardContext.tsx:96 | sorting an ordered list leaves it unchanged |
| Sequences.InsertTied | frontend/src/context/LeaderboardContext.tsx:96 | when the comparator is transitive through the class, inserting an element keeps every tie class in order and puts the element first in its own |
| Sequences.SortStable | frontend/src/context/LeaderboardContext.tsx:96 | under a consistent comparator the sort is stable: each tie class comes out in input order |
| Sequences.SortAllTied | frontend/src/utils/index.ts:57-58 | a comparator that always returns 0 leaves the order unchanged |
| Sequences.PermutationNoDuplicates | frontend/src/context/ProductContext.tsx:85-97 | reordering a list without duplicates leaves none |
| Sequences.MapPermutation | frontend/src/context/LeaderboardContext.tsx:96-97 | mapping permuted inputs gives permuted outputs |

## Left out

- The JWT signing, parsing and expiry logic of `JwtTokenUtil` is not part of this model; the same goes for `EmailService`, the repository implementation and BCrypt.
  - Tokens are values with a serial and a subject.
  - `validateToken`'s verdict is an input.
  - Encoding is a digest that keeps its preimage and takes a salt parameter.
  - Mail is an outbox sequence.
- Concurrent requests are not modelled: every request is handled to completion before the next.
- Identity.Register: the request body's `id` is assumed absent in `AccountStore.Store.CreateUser`. A client-sent id would turn the JPA save into a merge with another row.
- Null columns in a request body are not modelled: a missing email, username or password, and a `null` `isSeller` or `isAdmin` (nullable `Boolean` columns, stored as `null` by the code). The model requires a plaintext password, non-null strings and `bool` flags.
- Email and username lookups compare strings exactly. A database collation that ignores case is not modelled.
- Identity.Verify, Identity.Reset: `JwtTokenUtil.extractEmail` is not part of this model. An unparsable token is assumed to yield no email, so both handlers refuse it with 403. If the helper throws instead, the code answers with an unhandled-exception 500, and the claim that every refusal is the same 403 does not cover that case.
- Identity.Login: returns the stored row as the code does, including the password hash and any outstanding token. The model does not strip the hash.
- IdentityLemmas.VerifiedAccountsMayHoldTokens: "a verified account holds no token" is not an invariant of the code. A reset request gives a verified account a token, and the lemma shows this.
- The `isAdmin`/`isSeller` flags of a sign-up body are stored as received. No lemma restricts them, because the code does not.
- `Save` refuses a blank username with a 500 and no write. This models Bean Validation of the `@NotBlank` column. Spring's error body is not modelled beyond its status.
- Text.ToLower: only ASCII letters are lowered. Unicode case mapping is not modelled.
- Products.LexLeTotal: `localeCompare` is replaced by code-point order on names. Locale collation is not modelled.
- Prices, carbon values and points are mathematical `real`/`int` values. The model does not cover floating-point rounding, `NaN`, `Infinity`, or a `price` that is not a number (which `validateProduct` treats like 0).
- String lengths count Unicode code points where JavaScript counts UTF-16 code units.
- Product ids are strings. The `string | number` ids of the type are not modelled.
- Product fields that the core never reads are omitted: rating, reviews, images, packaging, activity, units sold and dates.
- ProductCatalog.ProductStore.SetFilterOptions: only the form that takes a new options value is modelled, not the form that takes an updater function.
- An explicit `undefined` in an update patch is treated as an absent key. In JavaScript the spread would copy the `undefined`.
- The clock is a parameter everywhere it is read:
  - `Date.now()` for product ids, cart timestamps and search timestamps;
  - `new Date()` for the expiry check.
- Payment.ValidateExpiry: compares two-digit years as the code does, so an expiry in the next century reads as past. Payment.ExpiryValidEarlier therefore holds only within one century.
- Reading and writing `localStorage` is not modelled (cart, likes, leaderboard), and neither is the recovery from unparsable saved JSON.
- AppState.AppStore: `isLoading` is held in the state but has no setter in the code, so no operation changes it.
- Keys such as `__proto__` in `groupByCategory`'s accumulator object are not modelled; the accumulator is a map.
- The payment form's timer, alert and success callback are not modelled; only the acceptance condition is.
- Formatting helpers (`formatCurrency`, `formatRelativeTime`, `formatSearchHistory`) and `calculateCarbonStats` are not modelled: they are locale and floating-point presentation.
