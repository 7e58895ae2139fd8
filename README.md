# User lifecycle and buyer categories of a Laravel e-commerce API

This project models two parts of the API's controllers and proves properties about them.

1. `UserAccounts` (user_accounts.dfy) models `UserController`. It is a class holding
   the users table (`map<UserId, User>`), the next id to hand out, and a log of every
   mail send attempted. Its methods are the controller actions `store`, `update`,
   `verify`, `resend` and `destroy`. Each returns the HTTP status as a tag:
   201, 200, 404, 409 or 422.
   - The freshly generated verification code is a parameter.
   - bcrypt is a function of the password and a salt. The class holds the function; the
     salt is a parameter.
   - The mailer's success or failure on each attempt is a parameter (`seq<bool>`).
   The class invariant says a record holds a verification token exactly when it is
   unverified. Every action preserves it.
   `update` is written field by field in the controller's order. It is proved equal to
   the specification function `UpdateUser`. That function's contract states the design
   rules: absent fields are kept, and a new email re-arms verification. Admin is refused
   (409) exactly when the user is unverified, including when the email step of the same
   request has just made it so. A request that changes nothing gets 422. A rejected
   request saves nothing and sends nothing. The email-changed mail is attempted only
   when the email changed, only after the save, carries the saved record, and is
   attempted at most five times.
2. `BuyerCategoryController` (buyer_categories.dfy) models `index`. The pipeline is
   `pluck('product.categories')`, then `collapse()`, `unique('id')` and `values()`. It
   is written as recursive functions over sequences. The lemmas prove three things about
   the result. First, no two categories share an id. Second, every category in the
   result was bought, and every bought category's id appears. Third, the result is the
   first occurrence of each id, in flattened transaction-then-category order.

The buyer pipeline keeps first-seen order, because `unique` keeps the first item per
key and `values()` only re-indexes. The model follows that code; it is a stronger
promise than "deduplicated by id".

## Model

| member | source | states |
|---|---|---|
| `UserAccounts.AttemptsFrom` | app/Http/Controllers/User/UserController.php:57-59 | starting at attempt i, retry stops after the first success or at attempt 5; every earlier attempt failed |
| `UserAccounts.AttemptCount` | app/Http/Controllers/User/UserController.php:57-59 | retry(5, ...) makes between 1 and 5 attempts; all but the last failed; the last succeeded, or it was the fifth |
| `UserAccounts.AttemptCountDelivers` | app/Http/Controllers/User/UserController.php:57-59 | the last attempt succeeded exactly when some attempt within the budget of five succeeds |
| `UserAccounts.Repeat` | app/Http/Controllers/User/UserController.php:114-116 | the log a retry leaves: n entries, all the same mail |
| `UserAccounts.UpdateUser` | app/Http/Controllers/User/UserController.php:84-109 | 409 exactly when admin is requested and the user is unverified after the email step (unverified before, or the email changes); otherwise 422 exactly when every submitted field equals the stored one; a saved record differs from the stored one, keeps every absent field, takes every present one, and on a new email is unverified with the fresh token, else keeps verified and token |
| `UserAccounts.EmailChangeBlocksAdmin` | app/Http/Controllers/User/UserController.php:88-102 | a verified user whose email changes in the same request is refused admin with 409 |
| `UserAccounts.UserController.SendWithRetry` | app/Http/Controllers/User/UserController.php:57-59 | the log grows by exactly AttemptCount(outcomes) attempts of the one mail; it reports delivery iff an attempt within the budget succeeds |
| `UserAccounts.UserController.Store` | app/Http/Controllers/User/UserController.php:39-62 | 201 iff the request passes the rules (name, email, unique email, password of 6+ characters and confirmed), else 422 with nothing stored or mailed; the new record gets a new id and is unverified, holds the fresh token and the hash of the password, is a regular user; the account-created mail of that record is attempted at most 5 times after the insert; token uniqueness is kept when the fresh token is unused |
| `UserAccounts.UserController.Update` | app/Http/Controllers/User/UserController.php:75-122 | 404 with nothing changed for an unknown id; otherwise the field-by-field mutation gives UpdateUser's outcome: a rejection changes no record and sends no mail; a save stores exactly that record and the email-changed mail of the saved record is attempted (at most 5 times) only when the email changed; invariant and token uniqueness kept |
| `UserAccounts.UserController.FindByToken` | app/Http/Controllers/User/UserController.php:137 | finds nobody exactly when no user holds the token; a found user holds it |
| `UserAccounts.UserController.Verify` | app/Http/Controllers/User/UserController.php:134-145 | 404 with nothing changed exactly when no user holds the token; else the holder becomes verified with its token cleared and nothing else changes; with unique tokens nobody holds the token afterwards, so redeeming it again is 404 |
| `UserAccounts.UserController.Resend` | app/Http/Controllers/User/UserController.php:147-155 | the users table is untouched (the token is not rotated); 404 for an unknown id, 409 with no mail for a verified user, otherwise the account-created mail of the stored record is attempted at most 5 times |
| `UserAccounts.UserController.Destroy` | app/Http/Controllers/User/UserController.php:127-132 | 404 for an unknown id; otherwise the record is removed, returned, and nothing else changes |
| `UserAccounts.StoreRequestValid` | app/Http/Controllers/User/UserController.php:41-47 | the `store` rules as a predicate; `Store`'s contract `status == Created <==> StoreRequestValid(old(users), req)` states that exactly these requests are accepted and every other one is answered 422 with nothing stored |
| `UserAccounts.RegisterVerifyTwice` | app/Http/Controllers/User/UserController.php:39-62 | registering answers 201 with a new id; redeeming the returned token then succeeds; redeeming it a second time is 404 |
| `BuyerCategoryController.IndexOfId` | app/Http/Controllers/Buyer/BuyerCategoryController.php:19 | the first position of an id in a category list, or the length exactly when the id is absent |
| `BuyerCategoryController.Pluck` | app/Http/Controllers/Buyer/BuyerCategoryController.php:19 | one category list per transaction, that of its product, in transaction order |
| `BuyerCategoryController.Collapse` | app/Http/Controllers/Buyer/BuyerCategoryController.php:19 | the flattened list is empty exactly when every list is empty; membership in both directions is `CollapseMembership` |
| `BuyerCategoryController.UniqueById` | app/Http/Controllers/Buyer/BuyerCategoryController.php:19 | unique('id') from nothing seen: no id twice, exactly the input's ids, each kept item the first of its id, in first-occurrence order (from `UniqueFromDistinct`, `UniqueFromIds`, `UniqueFromFirstOccurrences`) |
| `BuyerCategoryController.BuyerCategories` | app/Http/Controllers/Buyer/BuyerCategoryController.php:19 | index's result: distinct ids, exactly the ids of the flattened category lists, empty without transactions; `BuyerCategoriesExact`, `BuyerCategoriesFirstSeenOrder` and `BuyerCategoriesSize` state the rest |
| `BuyerCategoryController.UniqueFrom` | app/Http/Controllers/Buyer/BuyerCategoryController.php:19 | unique('id') with the ids already seen: no longer than its input, keeps only input items, none with a seen id |
| `BuyerCategoryController.CollapseMembership` | app/Http/Controllers/Buyer/BuyerCategoryController.php:19 | a category is in the collapsed list iff it is in one of the lists |
| `BuyerCategoryController.UniqueFromDistinct` | app/Http/Controllers/Buyer/BuyerCategoryController.php:19 | the deduplicated list has no two items with the same id |
| `BuyerCategoryController.UniqueFromIds` | app/Http/Controllers/Buyer/BuyerCategoryController.php:19 | the deduplicated list carries exactly the input's ids minus those already seen |
| `BuyerCategoryController.UniqueFromFirstOccurrences` | app/Http/Controllers/Buyer/BuyerCategoryController.php:19 | every kept item is the first input item with its id, and kept items are in the order of those first occurrences |
| `BuyerCategoryController.BuyerCategoriesExact` | app/Http/Controllers/Buyer/BuyerCategoryController.php:19 | the buyer's categories have distinct ids, each was bought in some transaction, and every bought category's id is present |
| `BuyerCategoryController.BuyerCategoriesFirstSeenOrder` | app/Http/Controllers/Buyer/BuyerCategoryController.php:19 | the result is the first occurrence of each id in transaction-then-category order, in that order |
| `BuyerCategoryController.BuyerCategoriesSize` | app/Http/Controllers/Buyer/BuyerCategoryController.php:19 | the result is no longer than the flattened list, and empty for a buyer without transactions |
| `BuyerCategoryController.TwoPurchases` | app/Http/Controllers/Buyer/BuyerCategoryController.php:19 | two purchases in categories {C1, C2} and {C2, C3} give exactly C1, C2, C3 |

## Left out

- Routing, middleware (`client.credentials`, `auth:api`, `transform.input`) and route-model binding are left out. Binding is modelled as an explicit lookup that answers 404.
- `index` and `show` are left out: they list or return records without logic.
- Response bodies are left out: `showOne`, `showAll`, `showMessage`, `errorResponse`, transformers and pagination. A response is its status tag.
- Mail delivery is left out. A send is an entry in the attempt log, and its success comes from the caller-supplied outcomes.
- The 100 ms pause between retries is left out; time is not modelled.
- Retry exhaustion is left out. After five failures `retry` rethrows, and what the framework then answers is not shown. The model reports the committed state change and a `delivered` flag.
- `User::generateVerificationCode` is not part of this model. Its result is a parameter. Token uniqueness is stated conditionally, assuming the fresh token is unused.
- bcrypt is an uninterpreted function of the password and a per-call salt. "Differs from the stored hash" therefore depends on that salt. The model does not claim that re-submitting the same password is a no-op, and does not state that the hash differs from the plaintext.
- The values of `User::ADMIN`, `User::REGULAR_USER`, `VERIFIED` and `UNVERIFIED` are in the User model, which is not part of this model. `verified` is a boolean, and `admin` is a string with the regular value taken as "false".
- UserAccounts.UserController.Store: does not model the `email` format rule, nor trimming or empty-to-null input conversion.
- `update` builds validation rules but never applies them, so the model applies none either.
- PHP's loose `!=` between numeric strings is left out: emails compare as exact strings.
- Database collation is left out. The `unique:users` lookup of `store` and the `where('verification_token', ...)` lookup of `verify` run under the database's collation, which may ignore case. The model matches emails and tokens as exact strings.
- `isDirty` is modelled as record inequality. Attribute casts are not modelled.
- UserAccounts.UserController.Destroy: removes the record from the table. Whether `User` soft-deletes is in the User model, which is not part of this model. So the email-uniqueness rule of `store` only sees records still in the table.
- UserAccounts.UserController.FindByToken: picks any user holding the token. The database's row order for `firstOrFail` is not modelled.
- Concurrent requests and per-row atomicity are left out; they belong to the database.
- The buyer's transactions arrive as a sequence, the result of the `transaction()` relation. The eager loading and the ORM query behind it are left out.
- Every transaction is assumed to carry a loaded product. In the source, `collapse()` skips an entry that is not a collection, so a transaction whose product does not load adds nothing; the `Transaction` datatype cannot express that case.
- app/Models/Seller.php is left out. Its global scope predicate is not shown, and its `products` relation is ORM only.
- app/Http/Controllers/Transaction/TransactionController.php is left out; it is a pure list/show passthrough.
