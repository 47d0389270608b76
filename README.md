# Stock management: a verified model of its core

The system is a stock-management application. Its Kotlin/Spring backend keeps users, categories, products and orders. It authenticates requests with signed bearer tokens: JWTs (RFC 7519) carrying `sub`, `iat` and `exp`, signed with HMAC-SHA (section 3.2 of RFC 7518) and sent in the `Authorization: Bearer` header (section 2.1 of RFC 6750). Its Angular frontend stores the token, adds it to every request, guards the dashboard routes, and offers forms and lists for the four kinds of record.

This project models, in Dafny:

- **Backend authentication.**
  - Token issue, parsing and validation (`JwtTokenProvider`), with the clock as a parameter.
  - The per-request filter (`JwtAuthenticationFilter`), with the security context as an explicit per-request object.
  - The three decisions of `AuthController`: register, login and `/me`, each giving a status and a body.
- **Credential store.**
  - The `User` entity and its mapper.
  - Registration, lookups, profile update, password change and the checks made on an uploaded picture (`UserServiceImpl`).
- **Orders, products and categories.**
  - Their services and mappers.
  - The `addItem` route of `OrderController`.
- **Client auth state.**
  - The two token slots of `AuthService`, the interceptor, the route guard and the route table.
- **Forms and list pages.**
  - The order, product, category and user forms and the register page: what they validate, what they send, what they show, and how their modal opens and closes.
  - The product, user, category and order lists: search, sorting and the integer statistics.
  - The chart-range helpers of the home page.

How the model is built:

- **Stored tables.** They are sequences of rows in one `Database` object, whose methods change them in place. The invariant `Valid()` states that ids are unique and below their identity counters.
- **Outside collaborators.** The clock, the salt, the uuid and the e-mail validator are parameters.
- **Crypto libraries.** The jjwt library and the BCrypt encoder are records of functions. A `Sound` predicate states what the model relies on: a compact token decodes back to itself with its dates cut to whole seconds, and an encoded password matches its raw form.
- **Frontend components.** Each is a class.
  - An HTTP call is recorded in a `calls` or `requests` field; its answer is a separate handler method.
  - A SweetAlert dialog is recorded by its title and text.
  - An expired timer is a method of its own.
- **Four places where the code departs from the intended design; the model follows the code:**
  - No request is refused for its roles: the security configuration permits every request, so there is no "Forbidden" outcome.
  - A bad signature is not "answered false" by `validateToken`. The catch names the JDK's `SecurityException`, not jjwt's, so the jjwt exception escapes. `JwtTokenProvider.ValidateToken` returns `Raised` for it, and the filter's catch-all then gives the same unauthenticated request as a false answer (`JwtAuthenticationFilter.RejectedTokenLeavesContext`).
  - The order form's `showSuccess` asks `closeModal` to close while `isSubmitting` is still set, so after a successful save the modal stays open and busy (`AddOrderForm.AddOrder.OnSaveSuccess`; see "Findings").
  - The user form's `closeModalWithNotification` does the same, after a successful save and after a failed image upload (`AddUserForm.AddUser.CloseNotifying`; see "Findings").
- **Other behaviour of the code that the model keeps:**
  - A user whose username is literally `anonymousUser` is answered 401 by `/me`.
  - The register page lower-cases the gender, but the users page counts the exact strings `'Male'` and `'Female'`, so someone who signed up on that page is counted as neither (`UsersPage.SignedUpUserNotCounted`).
  - `resetForm` of the category form empties its `categoryData` input, not the form.
  - The category warning tests the untrimmed values, so a blank name fails the check yet is not listed (`AddCategoryForm.BlankNameNotListed`).
  - The backend's user response has no role, so the users page's role search never matches.
  - The backend sends a null description and category name for a product saved without them. The products page calls `toLowerCase` on both, so a search that reaches such a product throws a TypeError and the shown list stays as it was (`ProductPage.SearchProducts`).

## Model

| member | source | states |
|---|---|---|
| UserModel.NewUser | Backend/src/main/kotlin/com/firestorm/stockmanagment/model/User.kt:19-40 | a new user has id 0, the single role ROLE_USER and no profile image, and keeps the given username, e-mail, password and gender |
| UserModel.GetAuthorities | Backend/src/main/kotlin/com/firestorm/stockmanagment/model/User.kt:42-43 | an authority is granted exactly when its name is one of the user's roles, and there are as many authorities as roles |
| UserModel.AuthorityCount | Backend/src/main/kotlin/com/firestorm/stockmanagment/model/User.kt:42-43 | mapping the roles to authorities loses no role: the set keeps its size |
| UserModel.ChangePassword | Backend/src/main/kotlin/com/firestorm/stockmanagment/model/User.kt:47-49 | the new password is stored and every other field is as before |
| UserModel.UpdateUsername | Backend/src/main/kotlin/com/firestorm/stockmanagment/model/User.kt:53-55 | the new username is stored and every other field is as before |
| UserMapper.ToResponse | Backend/src/main/kotlin/com/firestorm/stockmanagment/mapper/UserMapper.kt:6-13 | the response carries id, username, e-mail, gender and profile image of the user |
| UserMapper.ResponseHidesCredentials | Backend/src/main/kotlin/com/firestorm/stockmanagment/mapper/UserMapper.kt:6-13 | the response is the same whatever the stored password hash and roles are |
| PasswordEncoding.MatchesStored | Backend/src/main/kotlin/com/firestorm/stockmanagment/config/SecurityConfig.kt:59-60 | a raw password matches exactly when a hash is stored and the encoder accepts the pair; a missing hash never matches |
| PasswordEncoding.EncodedMatches | Backend/src/main/kotlin/com/firestorm/stockmanagment/config/SecurityConfig.kt:59-60 | for a sound encoder, a password matches the hash made from it with any salt |
| Repositories.IndexWhere | Backend/src/main/kotlin/com/firestorm/stockmanagment/repository/UserRepo.kt:8-12 | the index found is the first row that satisfies the test; no index means no row does |
| Repositories.UserIndex | Backend/src/main/kotlin/com/firestorm/stockmanagment/repository/UserRepo.kt:8 | `findById` on users: the row found has that id; nothing is found exactly when no row has it |
| Repositories.UsernameIndex | Backend/src/main/kotlin/com/firestorm/stockmanagment/repository/UserRepo.kt:9-10 | `findByUsername`/`existsByUsername`: the row found has that username; nothing is found exactly when no row has it |
| Repositories.CategoryIndex | Backend/src/main/kotlin/com/firestorm/stockmanagment/repository/CategoryRepo.kt:8 | `findById` on categories, with the same two directions |
| Repositories.ProductIndex | Backend/src/main/kotlin/com/firestorm/stockmanagment/repository/ProductRepo.kt:8 | `findById` on products, with the same two directions; the row found is the first with that id |
| Repositories.OrderIndex | Backend/src/main/kotlin/com/firestorm/stockmanagment/repository/OrderRepo.kt:8 | `findById` on orders, with the same two directions; the row found is the first with that id |
| Repositories.NumberItems | Backend/src/main/kotlin/com/firestorm/stockmanagment/model/Order.kt:29-34 | saving an order with cascading items gives the i-th item the i-th next id and changes nothing else about it |
| Repositories.Database.constructor | Backend/src/main/kotlin/com/firestorm/stockmanagment/model/Order.kt:22-23 | an empty database is valid and every identity counter starts at 1 |
| Repositories.Database.InsertOrder | Backend/src/main/kotlin/com/firestorm/stockmanagment/model/Order.kt:21-40 | a saved order gets the next order id, its items the next item ids, it is appended, and the table invariant (unique ids below the counters) is kept |
| Repositories.ReplaceOrderKeepsIds | Backend/src/main/kotlin/com/firestorm/stockmanagment/service/impl/OrderServiceImpl.kt:56-80 | replacing an order by one with the same id, whose items carry ids below the item counter (which may only grow), keeps every order id and item id valid |
| Repositories.Database.UpdateOrder | Backend/src/main/kotlin/com/firestorm/stockmanagment/service/impl/OrderServiceImpl.kt:74-80 | a changed order is committed in its own row, every other row and the counters stay, and the table invariant is kept |
| Repositories.Database.AppendItem | Backend/src/main/kotlin/com/firestorm/stockmanagment/service/impl/OrderServiceImpl.kt:62-71 | the order gains the item at the end of its list under the next item id, the item counter moves on by one, and the table invariant is kept |
| UserServiceImpl.ExistsByUsername | Backend/src/main/kotlin/com/firestorm/stockmanagment/repository/UserRepo.kt:10 | true exactly when some stored user has that username |
| UserServiceImpl.ExistsByEmail | Backend/src/main/kotlin/com/firestorm/stockmanagment/repository/UserRepo.kt:11 | true exactly when some stored user has that e-mail |
| Wrappers.MapAll | Backend/src/main/kotlin/com/firestorm/stockmanagment/service/impl/OrderServiceImpl.kt:22 | a `map` whose mapping may throw succeeds exactly when each element maps, with one result per element in order; a failure is that of the first element that fails |
| UserServiceImpl.FindAll | Backend/src/main/kotlin/com/firestorm/stockmanagment/service/impl/UserServiceImpl.kt:33 | one response per stored user, in table order |
| UserServiceImpl.FindById | Backend/src/main/kotlin/com/firestorm/stockmanagment/service/impl/UserServiceImpl.kt:35-38 | fails with "User with id … not found" exactly when no user has the id; otherwise answers a user with that id |
| UserServiceImpl.LoadUserByUsername | Backend/src/main/kotlin/com/firestorm/stockmanagment/service/impl/UserServiceImpl.kt:40-44 | succeeds exactly when a stored user has the name, with a stored user of that name; otherwise the "User not found with username: …" error |
| UserServiceImpl.FindByUsername | Backend/src/main/kotlin/com/firestorm/stockmanagment/service/impl/UserServiceImpl.kt:46-52 | null for a null name; otherwise a stored user of that name exactly when one exists |
| UserServiceImpl.LookupUnique | Backend/src/main/kotlin/com/firestorm/stockmanagment/model/User.kt:23-24 | with the unique username column, both lookups by a user's name find that very user |
| UserServiceImpl.ApplyProfile | Backend/src/main/kotlin/com/firestorm/stockmanagment/service/impl/UserServiceImpl.kt:84-86 | username, e-mail and gender come from the request; id, password hash, roles and image are kept |
| UserServiceImpl.UploadedFileName | Backend/src/main/kotlin/com/firestorm/stockmanagment/service/impl/UserServiceImpl.kt:130-132 | the stored name is the random id, a dash, then the original file name or "image" when there is none |
| UserServiceImpl.UploadRejection | Backend/src/main/kotlin/com/firestorm/stockmanagment/service/impl/UserServiceImpl.kt:116-128 | an empty file is refused first, then a content type not starting with "image/"; an upload is accepted exactly when neither applies and the directory can be made |
| UserServiceImpl.AppendUserKeepsValid | Backend/src/main/kotlin/com/firestorm/stockmanagment/service/impl/UserServiceImpl.kt:57-75 | appending a user with the next id and a free username keeps the ids and usernames unique |
| UserServiceImpl.AppendUserKeepsEmailsUnique | Backend/src/main/kotlin/com/firestorm/stockmanagment/service/impl/UserServiceImpl.kt:62-64 | appending a user whose e-mail is not in use keeps e-mails unique |
| UserServiceImpl.ReplaceUserKeepsValid | Backend/src/main/kotlin/com/firestorm/stockmanagment/service/impl/UserServiceImpl.kt:82-88 | replacing a row by one with the same id and a username nobody else has keeps the table invariant |
| UserServiceImpl.RemoveUserKeepsValid | Backend/src/main/kotlin/com/firestorm/stockmanagment/service/impl/UserServiceImpl.kt:106-108 | removing a row keeps the table invariant |
| UserServiceImpl.RegisterUser | Backend/src/main/kotlin/com/firestorm/stockmanagment/service/impl/UserServiceImpl.kt:54-76 | a taken username is refused, then a taken e-mail, storing nothing; otherwise exactly one user with the encoded password, ROLE_USER and the next id is appended and returned |
| UserServiceImpl.UpdateProfile | Backend/src/main/kotlin/com/firestorm/stockmanagment/service/impl/UserServiceImpl.kt:78-89 | an unknown id fails and stores nothing; a username held by another user is refused by the unique column; otherwise only that row changes, to the applied profile |
| UserServiceImpl.ChangePassword | Backend/src/main/kotlin/com/firestorm/stockmanagment/service/impl/UserServiceImpl.kt:91-104 | an unknown id fails, a wrong current password is refused with "Password is incorrect!"; otherwise only the hash of that row changes, and with a sound encoder the new password then matches |
| UserServiceImpl.DeleteById | Backend/src/main/kotlin/com/firestorm/stockmanagment/service/impl/UserServiceImpl.kt:106-108 | the row with the id is removed and the others keep their order; afterwards no row has the id |
| UserServiceImpl.UploadProfileImage | Backend/src/main/kotlin/com/firestorm/stockmanagment/service/impl/UserServiceImpl.kt:110-142 | an unknown user fails, then the file checks in order; on success only that user's profile image changes, to the stored file name |
| CategoryMapper.ToEntity | Backend/src/main/kotlin/com/firestorm/stockmanagment/mapper/CategoryMapper.kt:7-11 | a new category has id 0 and the request's name and description |
| CategoryMapper.ToResponse | Backend/src/main/kotlin/com/firestorm/stockmanagment/mapper/CategoryMapper.kt:13-18 | the response carries the category's id, name and description |
| CategoryMapper.ToResponseInjective | Backend/src/main/kotlin/com/firestorm/stockmanagment/mapper/CategoryMapper.kt:13-18 | two categories with the same response are the same category |
| CategoryServiceImpl.GetAll | Backend/src/main/kotlin/com/firestorm/stockmanagment/service/impl/CategoryServiceImpl.kt:16 | one response per stored category, in order |
| CategoryServiceImpl.GetById | Backend/src/main/kotlin/com/firestorm/stockmanagment/service/impl/CategoryServiceImpl.kt:18-19 | fails with "Category with id … not found" exactly when no category has the id; otherwise a response with that id |
| CategoryServiceImpl.ApplyRequest | Backend/src/main/kotlin/com/firestorm/stockmanagment/service/impl/CategoryServiceImpl.kt:28-29 | the id is kept, name and description come from the request |
| CategoryServiceImpl.Save | Backend/src/main/kotlin/com/firestorm/stockmanagment/service/impl/CategoryServiceImpl.kt:21-22 | one category with the next id is appended and answered |
| CategoryServiceImpl.Update | Backend/src/main/kotlin/com/firestorm/stockmanagment/service/impl/CategoryServiceImpl.kt:24-32 | an unknown id fails and stores nothing; otherwise only that row changes |
| CategoryServiceImpl.Delete | Backend/src/main/kotlin/com/firestorm/stockmanagment/service/impl/CategoryServiceImpl.kt:34-36 | the row with the id is removed; afterwards no row has the id |
| ProductMapper.ToEntity | Backend/src/main/kotlin/com/firestorm/stockmanagment/mapper/ProductMapper.kt:8-15 | a new product has no id, the request's fields and the given category |
| ProductMapper.ToResponse | Backend/src/main/kotlin/com/firestorm/stockmanagment/mapper/ProductMapper.kt:17-26 | the response carries the product's columns and its category's name and id, both null without a category; a category no longer stored fails |
| ProductMapper.ToEntityRoundTrip | Backend/src/main/kotlin/com/firestorm/stockmanagment/mapper/ProductMapper.kt:8-26 | a request saved into a stored category reads back as the request, with the category's name |
| ProductServiceImpl.FindAll | Backend/src/main/kotlin/com/firestorm/stockmanagment/service/impl/ProductServiceImpl.kt:18 | succeeds exactly when every product maps, with one response per product in order |
| ProductServiceImpl.FindById | Backend/src/main/kotlin/com/firestorm/stockmanagment/service/impl/ProductServiceImpl.kt:20-23 | an unknown id fails with "Product with id … not found"; otherwise the answer is the response of the first product with that id, and a success has that id |
| ProductServiceImpl.ApplyRequest | Backend/src/main/kotlin/com/firestorm/stockmanagment/service/impl/ProductServiceImpl.kt:35-39 | the id is kept; name, description, stock, price and category come from the request |
| ProductServiceImpl.Save | Backend/src/main/kotlin/com/firestorm/stockmanagment/service/impl/ProductServiceImpl.kt:25-28 | an unknown category fails and stores nothing; otherwise one product with the next id is appended |
| ProductServiceImpl.Update | Backend/src/main/kotlin/com/firestorm/stockmanagment/service/impl/ProductServiceImpl.kt:30-42 | an unknown product fails, then an unknown category, storing nothing; otherwise only that row changes |
| ProductServiceImpl.Delete | Backend/src/main/kotlin/com/firestorm/stockmanagment/service/impl/ProductServiceImpl.kt:44-47 | the row with the id is removed; afterwards no row has the id |
| OrderMapper.ItemToResponse | Backend/src/main/kotlin/com/firestorm/stockmanagment/mapper/OrderMapper.kt:11-22 | a missing product fails with "Product is null."; a success carries the product's name, the unit price, the quantity and unit price times quantity |
| OrderMapper.ItemsToResponse | Backend/src/main/kotlin/com/firestorm/stockmanagment/mapper/OrderMapper.kt:28 | succeeds exactly when every item maps, with one response per item in order |
| OrderMapper.ToResponse | Backend/src/main/kotlin/com/firestorm/stockmanagment/mapper/OrderMapper.kt:24-36 | a missing user fails with "User is null."; it succeeds exactly when user, id and every item resolve, and the total is the sum of the stored item totals |
| OrderMapper.ResponseTotalsAreLineTotals | Backend/src/main/kotlin/com/firestorm/stockmanagment/mapper/OrderMapper.kt:20 | the item responses' totals add up to the sum of unit price times quantity |
| OrderMapper.StoredTotalsAreLineTotals | Backend/src/main/kotlin/com/firestorm/stockmanagment/mapper/OrderMapper.kt:29 | when every stored item total is its line price, `totalAmount` is the sum of the line prices |
| OrderMapper.SumLinesAppend | Backend/src/main/kotlin/com/firestorm/stockmanagment/service/impl/OrderServiceImpl.kt:51 | one more line adds its price to the sum |
| OrderMapper.SumStoredTotalsAppend | Backend/src/main/kotlin/com/firestorm/stockmanagment/mapper/OrderMapper.kt:29 | one more item adds its stored total to the sum |
| OrderServiceImpl.BuildItem | Backend/src/main/kotlin/com/firestorm/stockmanagment/service/impl/OrderServiceImpl.kt:37-48 | a null product id fails with "Product not found with id null", an unknown one with "Product not found"; otherwise the item is priced from the product |
| OrderServiceImpl.BuildItems | Backend/src/main/kotlin/com/firestorm/stockmanagment/service/impl/OrderServiceImpl.kt:37-49 | succeeds exactly when every line builds, with one item per line in order |
| OrderServiceImpl.BuildItemsSnoc | Backend/src/main/kotlin/com/firestorm/stockmanagment/service/impl/OrderServiceImpl.kt:37-49 | one more line appends its item or makes its refusal the outcome |
| OrderServiceImpl.BuildItemsFailureSticks | Backend/src/main/kotlin/com/firestorm/stockmanagment/service/impl/OrderServiceImpl.kt:37-49 | once a prefix of the lines is refused, the whole request is refused with the same message |
| OrderServiceImpl.NumberingKeepsTotals | Backend/src/main/kotlin/com/firestorm/stockmanagment/service/impl/OrderServiceImpl.kt:51-53 | the ids the database assigns change neither the sums nor the item responses |
| OrderServiceImpl.SumsAgree | Backend/src/main/kotlin/com/firestorm/stockmanagment/service/impl/OrderServiceImpl.kt:51-53 | item lists that differ only in ids have the same sums |
| OrderServiceImpl.BuiltItemsRespond | Backend/src/main/kotlin/com/firestorm/stockmanagment/service/impl/OrderServiceImpl.kt:37-53 | the items built from a request always map to responses, and their stored totals sum to their line prices when the item total is unit price times quantity |
| OrderServiceImpl.SavedOrderResponds | Backend/src/main/kotlin/com/firestorm/stockmanagment/service/impl/OrderServiceImpl.kt:51-53 | the saved order always maps to a response, whose total is the stored total when the item total is unit price times quantity |
| OrderServiceImpl.CollectItems | Backend/src/main/kotlin/com/firestorm/stockmanagment/service/impl/OrderServiceImpl.kt:37-49 | the loop over the request lines returns exactly the items, or the first refusal, that the recursive definition of the line list gives |
| OrderServiceImpl.CreateOrder | Backend/src/main/kotlin/com/firestorm/stockmanagment/service/impl/OrderServiceImpl.kt:29-54 | an unknown user is refused, then the first bad line, storing nothing; otherwise one order with the next ids, one item per line and the line sum as total is appended and always answered |
| OrderServiceImpl.AddItemSpecMeaning | Backend/src/main/kotlin/com/firestorm/stockmanagment/service/impl/OrderServiceImpl.kt:56-72 | an unknown order is refused, then an unknown product; otherwise the order of that id gains exactly one last item, numbered by the item counter and priced from the product, keeps its id and stored total, and the answer is the new row's response |
| OrderServiceImpl.AddItem | Backend/src/main/kotlin/com/firestorm/stockmanagment/service/impl/OrderServiceImpl.kt:56-72 | on success the order's row becomes the one `AddItemSpec` builds (one new last item, as `AddItemSpecMeaning` states), the item counter moves on by one and the answer is that row's response; a refusal stores nothing; the table invariant is kept |
| OrderServiceImpl.RemoveWhereId | Backend/src/main/kotlin/com/firestorm/stockmanagment/service/impl/OrderServiceImpl.kt:78 | exactly the items without that id remain, never more than before; if none had it the list is unchanged |
| OrderServiceImpl.RemoveWhereIdIsFilter | Backend/src/main/kotlin/com/firestorm/stockmanagment/service/impl/OrderServiceImpl.kt:78 | the remaining items are the filter of the list by "the id differs", so they keep their order and every one of them is kept |
| OrderServiceImpl.RemoveIdempotent | Backend/src/main/kotlin/com/firestorm/stockmanagment/service/impl/OrderServiceImpl.kt:78 | removing the same item id twice removes nothing more |
| OrderServiceImpl.RemoveItem | Backend/src/main/kotlin/com/firestorm/stockmanagment/service/impl/OrderServiceImpl.kt:74-80 | an unknown order is refused; otherwise only that order's items of the id are dropped, the stored total is kept |
| OrderServiceImpl.FindById | Backend/src/main/kotlin/com/firestorm/stockmanagment/service/impl/OrderServiceImpl.kt:24-27 | an unknown id fails with "Order not found with id …"; otherwise the answer is the response of the first order with that id, and a success has that id |
| OrderServiceImpl.FindAll | Backend/src/main/kotlin/com/firestorm/stockmanagment/service/impl/OrderServiceImpl.kt:22 | succeeds exactly when every order maps, one response per order in order |
| OrderServiceImpl.AddedItemLeavesTotalStale | Backend/src/main/kotlin/com/firestorm/stockmanagment/service/impl/OrderServiceImpl.kt:68-71 | after `addItem` an order whose total was its line sum no longer is, unless the new line is free |
| OrderController.SwappedIdsRefuseValidRequest | Backend/src/main/kotlin/com/firestorm/stockmanagment/controller/OrderController.kt:43-45 | for order 1 and product 2, the handler as written answers "Order not found" while the intended call adds the item to order 1 |
| OrderController.AddItemAsWritten | Backend/src/main/kotlin/com/firestorm/stockmanagment/controller/OrderController.kt:43-45 | the handler as written passes the order id as the product id and the product id as the order id |
| OrderController.AddItem | Backend/src/main/kotlin/com/firestorm/stockmanagment/controller/OrderController.kt:43-45 | with the ids in the service's order, the item is added to the order named in the path |
| JwtTokenProvider.Utf8Length | Backend/src/main/kotlin/com/firestorm/stockmanagment/security/JwtTokenProvider.kt:28 | the UTF-8 encoding of a string has at least one byte per character |
| JwtTokenProvider.WholeSeconds | Backend/src/main/kotlin/com/firestorm/stockmanagment/security/JwtTokenProvider.kt:43-46 | a date stored in a JWT is a multiple of 1000 ms within one second of the original, toward zero |
| JwtTokenProvider.InWholeSeconds | Backend/src/main/kotlin/com/firestorm/stockmanagment/security/JwtTokenProvider.kt:43-46 | the token as jjwt serialises it: the same subject and signature, both dates in whole seconds |
| JwtTokenProvider.NewProvider | Backend/src/main/kotlin/com/firestorm/stockmanagment/security/JwtTokenProvider.kt:22-28 | construction succeeds exactly when the secret has at least 32 bytes; the remember-me lifetime defaults to 604800000 ms |
| JwtTokenProvider.Issue | Backend/src/main/kotlin/com/firestorm/stockmanagment/security/JwtTokenProvider.kt:34-49 | the token names the user; `iat` is the issue time and `exp` the end of the chosen lifetime, both cut to whole seconds, so `exp` lies less than a second before that end and after `iat` when the chosen lifetime is at least a second; the token is signed with the key over those claims |
| JwtTokenProvider.ParseSignedClaims | Backend/src/main/kotlin/com/firestorm/stockmanagment/security/JwtTokenProvider.kt:56-60 | a blank token is an illegal argument, an unreadable one malformed; it succeeds exactly for a signed, correctly keyed, unexpired token, whose claims it returns |
| JwtTokenProvider.GenerateToken | Backend/src/main/kotlin/com/firestorm/stockmanagment/security/JwtTokenProvider.kt:34-49 | with a sound jjwt the token parses, to its second-precision claims, at every time up to its `exp`, and is refused as expired after it |
| JwtTokenProvider.GetUsernameFromToken | Backend/src/main/kotlin/com/firestorm/stockmanagment/security/JwtTokenProvider.kt:55-62 | the subject of a token that parses; otherwise the parse error |
| JwtTokenProvider.ValidateToken | Backend/src/main/kotlin/com/firestorm/stockmanagment/security/JwtTokenProvider.kt:68-87 | true exactly when the token parses; only a signature mismatch escapes as an exception, every other failure answers false |
| JwtTokenProvider.IssuedTokenValidUntilExpiry | Backend/src/main/kotlin/com/firestorm/stockmanagment/security/JwtTokenProvider.kt:34-87 | an issued token validates and yields its username at any time up to its `exp` |
| JwtTokenProvider.IssuedTokenRejectedAfterExpiry | Backend/src/main/kotlin/com/firestorm/stockmanagment/security/JwtTokenProvider.kt:79-80 | after its `exp` the same token is answered false, not with an exception |
| JwtTokenProvider.ForeignKeyRaises | Backend/src/main/kotlin/com/firestorm/stockmanagment/security/JwtTokenProvider.kt:75-76 | a token checked under another key is thrown out as a signature mismatch |
| SecurityContext.Authenticated | Backend/src/main/kotlin/com/firestorm/stockmanagment/security/JwtAuthenticationFilter.kt:44-48 | the three-argument token is authenticated, carries the principal, credentials and authorities, has no details and is named by the username |
| SecurityContext.SecurityContextHolder.constructor | Backend/src/main/kotlin/com/firestorm/stockmanagment/controller/AuthController.kt:100-101 | a request's context starts without an authentication |
| SecurityContext.SecurityContextHolder.SetAuthentication | Backend/src/main/kotlin/com/firestorm/stockmanagment/security/JwtAuthenticationFilter.kt:53 | the context then holds that authentication |
| JwtAuthenticationFilter.GetJwtFromRequest | Backend/src/main/kotlin/com/firestorm/stockmanagment/security/JwtAuthenticationFilter.kt:67-75 | a token is found exactly when the header starts with "Bearer ", and the header is "Bearer " followed by it |
| JwtAuthenticationFilter.ExtractsBearerToken | Backend/src/main/kotlin/com/firestorm/stockmanagment/security/JwtAuthenticationFilter.kt:67-75 | the header "Bearer " + token yields exactly that token |
| JwtAuthenticationFilter.Authenticate | Backend/src/main/kotlin/com/firestorm/stockmanagment/security/JwtAuthenticationFilter.kt:31-54 | no token or a false validation binds nothing; a forged token escapes; an authentication is bound exactly when the token parses and names a stored user, and it is that user's, authenticated, without credentials, with the request's details |
| JwtAuthenticationFilter.ContextAfter | Backend/src/main/kotlin/com/firestorm/stockmanagment/security/JwtAuthenticationFilter.kt:53-57 | the context changes only to an authentication the try block bound |
| JwtAuthenticationFilter.RejectedTokenLeavesContext | Backend/src/main/kotlin/com/firestorm/stockmanagment/security/JwtAuthenticationFilter.kt:36-57 | a token that does not validate, forged or not, leaves the context as it was |
| JwtAuthenticationFilter.UnknownSubjectLeavesContext | Backend/src/main/kotlin/com/firestorm/stockmanagment/security/JwtAuthenticationFilter.kt:41-57 | a valid token naming no stored user raises, is caught, and leaves the context as it was |
| JwtAuthenticationFilter.FilterChain.constructor | Backend/src/main/kotlin/com/firestorm/stockmanagment/security/JwtAuthenticationFilter.kt:29 | the chain starts having forwarded nothing |
| JwtAuthenticationFilter.FilterChain.DoFilter | Backend/src/main/kotlin/com/firestorm/stockmanagment/security/JwtAuthenticationFilter.kt:60 | the request is forwarded once more |
| JwtAuthenticationFilter.DoFilterInternal | Backend/src/main/kotlin/com/firestorm/stockmanagment/security/JwtAuthenticationFilter.kt:26-61 | the context ends as `ContextAfter` says, an exception is logged exactly when one escapes, and the request is forwarded exactly once in every case |
| AuthController.RegisterResponse | Backend/src/main/kotlin/com/firestorm/stockmanagment/controller/AuthController.kt:35-48 | 201 with the message and stored username exactly on success; otherwise 400 with the exception's message |
| AuthController.Register | Backend/src/main/kotlin/com/firestorm/stockmanagment/controller/AuthController.kt:33-49 | a taken username or e-mail answers 400 with the service's message and stores nothing; otherwise 201 and exactly one more user |
| AuthController.DaoAuthenticate | Backend/src/main/kotlin/com/firestorm/stockmanagment/config/SecurityConfig.kt:65-73 | succeeds exactly when the user exists and the password matches the stored hash, with that user, its authorities and no credentials; both failures are "Bad credentials" |
| AuthController.LoginResponse | Backend/src/main/kotlin/com/firestorm/stockmanagment/controller/AuthController.kt:56-91 | 401 "Invalid username or password" exactly when authentication fails; otherwise 200 with a token for the name and the remember-me choice, and the user's username, e-mail and roles |
| AuthController.Login | Backend/src/main/kotlin/com/firestorm/stockmanagment/controller/AuthController.kt:55-91 | the context holds the authentication exactly after a successful one and is untouched otherwise; the answer is `LoginResponse` |
| AuthController.GetCurrentUser | Backend/src/main/kotlin/com/firestorm/stockmanagment/controller/AuthController.kt:98-117 | 401 exactly for no, unauthenticated or anonymous authentication; 404 exactly when nobody has the name; otherwise 200 with that user's username, e-mail and roles |
| AuthController.LoginTokenAuthenticatesRequests | Backend/src/main/kotlin/com/firestorm/stockmanagment/controller/AuthController.kt:56-117 | the token of a successful login, sent back as a bearer token before expiry, makes the filter bind the logged-in user, and `/me` then answers 200 |
| ClientAuth.StoredToken | Frontend/src/app/service/auth.ts:84-87 | a token is there exactly when either storage holds a non-empty one; localStorage wins when it does |
| ClientAuth.AuthService.constructor | Frontend/src/app/service/auth.ts:41-47 | the service starts from the two storages with no current user, and sends one `GET /me` exactly when a token is stored |
| ClientAuth.AuthService.GetToken | Frontend/src/app/service/auth.ts:84-87 | the localStorage token when it is non-empty, otherwise whatever sessionStorage holds |
| ClientAuth.AuthService.IsLoggedIn | Frontend/src/app/service/auth.ts:89-91 | logged in exactly when either storage holds a non-empty token |
| ClientAuth.AuthService.OnLoginResponse | Frontend/src/app/service/auth.ts:53-74 | a remembered login writes localStorage only, any other sessionStorage only; the response's user becomes current; a non-empty token logs in, though an older remembered token still wins `getToken` |
| ClientAuth.AuthService.Logout | Frontend/src/app/service/auth.ts:76-82 | both storages and the user are cleared, the router goes to /login, and the service is no longer logged in |
| ClientAuth.AuthService.LoadCurrentUser | Frontend/src/app/service/auth.ts:97-98 | one more `GET /me` is sent |
| ClientAuth.AuthService.OnMeResponse | Frontend/src/app/service/auth.ts:98-105 | a user answer becomes current; a 401 logs out; any other error changes nothing |
| AuthInterceptor.Intercept | Frontend/src/app/interceptors/auth-interceptor.ts:3-17 | with a stored token the forwarded request is the same request plus "Authorization: Bearer <token>"; without one it is the request itself |
| AuthInterceptor.InterceptorSendsServiceToken | Frontend/src/app/interceptors/auth-interceptor.ts:4-14 | the interceptor attaches exactly the token `getToken` reports, and only when `isLoggedIn` holds |
| AuthInterceptor.ServerSeesStoredToken | Frontend/src/app/interceptors/auth-interceptor.ts:8-14 | the backend filter extracts from the intercepted request exactly the stored token |
| AuthGuard.Decide | Frontend/src/app/service/auth.gaurd.ts:6-28 | the route opens exactly with a token; without one the router goes to /login; a missing user is reloaded exactly when a token is there |
| AuthGuard.Guard | Frontend/src/app/service/auth.gaurd.ts:6-28 | the answer is `isLoggedIn`; a refusal navigates to /login and only a refusal navigates; `GET /me` is sent exactly when allowed with no user loaded |
| AppRoutes.LoginGuard | Frontend/src/app/app.routes.ts:18-27 | the login page opens exactly without a token; with one the router goes to /dashboard |
| AppRoutes.FindRoute | Frontend/src/app/app.routes.ts:14-64 | the route found is in the table and has the path; none found means no route has it |
| AppRoutes.FindChild | Frontend/src/app/app.routes.ts:37-62 | the child found is among the children and has the path; none found means no child has it |
| AppRoutes.Resolve | Frontend/src/app/app.routes.ts:14-64 | a resolved URL has one or two segments naming a table route, and a child exactly when that route has children, the empty-path child for a single segment |
| AppRoutes.TableLookups | Frontend/src/app/app.routes.ts:14-64 | each path of the table finds its own entry |
| AppRoutes.ResolvedUrlsKnown | Frontend/src/app/app.routes.ts:14-64 | only the seven URLs of the table resolve |
| AppRoutes.KnownUrlsResolve | Frontend/src/app/app.routes.ts:14-64 | each of the seven URLs of the table resolves |
| AppRoutes.DashboardUrlResolves | Frontend/src/app/app.routes.ts:34-62 | a URL naming the dashboard and the path of one of its children resolves |
| AppRoutes.FindChildFinds | Frontend/src/app/app.routes.ts:37-62 | a child path that is in the list is always found |
| AppRoutes.AccessRules | Frontend/src/app/app.routes.ts:14-64 | login opens exactly without a token, register always, the dashboard and each of its pages exactly with one |
| AppRoutes.SingleGuard | Frontend/src/app/app.routes.ts:16-29 | a route with a single guard is entered exactly when that guard allows it |
| AppRoutes.HomeReliesOnParentGuard | Frontend/src/app/app.routes.ts:33-41 | /dashboard shows Home, which has no guard of its own, only the dashboard's |
| AppRoutes.GuardsAreOpposite | Frontend/src/app/app.routes.ts:18-36 | for every token state the login guard and `authGuard` give opposite answers |
| ModalDialog.CloseModal | Frontend/src/app/pages/layout/orders/addorder/addorder.ts:314-322 | a close request is ignored while a save is in flight; otherwise the closing animation starts |
| ModalDialog.FinishThenClose | Frontend/src/app/pages/layout/product/addproduct/addproduct.ts:270-275 | marking the save finished before closing always starts the closing animation |
| AddOrderForm.FindProduct | Frontend/src/app/pages/layout/orders/addorder/addorder.ts:137 | the product found is in the list, has the id and is the first to have it; none found means none has it |
| AddOrderForm.ProductOf | Frontend/src/app/pages/layout/orders/addorder/addorder.ts:146-149 | a line has a product exactly when its id is truthy and some loaded product has it |
| AddOrderForm.MaxQuantity | Frontend/src/app/pages/layout/orders/addorder/addorder.ts:156-159 | the stock of the line's product, 0 without one |
| AddOrderForm.PayloadItemOf | Frontend/src/app/pages/layout/orders/addorder/addorder.ts:242-245 | a payload item carries the line's product id and quantity |
| AddOrderForm.PayloadItems | Frontend/src/app/pages/layout/orders/addorder/addorder.ts:238-246 | only lines with a product and a positive quantity are sent, never more than the form has; the list is empty exactly when no line qualifies |
| AddOrderForm.PayloadItemsAreFilteredLines | Frontend/src/app/pages/layout/orders/addorder/addorder.ts:238-246 | the payload has one item per line that `filter` keeps, in order, and the k-th item is the k-th kept line's product id and quantity |
| AddOrderForm.PayloadItemsAppend | Frontend/src/app/pages/layout/orders/addorder/addorder.ts:240-245 | the payload of two runs of lines is the two payloads one after the other, so the lines keep their order |
| AddOrderForm.ValidItemsGivePayload | Frontend/src/app/pages/layout/orders/addorder/addorder.ts:188-194 | a form that passes `hasValidItems` never sends an empty item list |
| AddOrderForm.Splice1 | Frontend/src/app/pages/layout/orders/addorder/addorder.ts:130 | `splice(index, 1)` removes the line at the index, counts a negative index from the end and removes nothing past the end |
| AddOrderForm.ShowSuccessAsWritten | Frontend/src/app/pages/layout/orders/addorder/addorder.ts:286-299 | as written, `showSuccess` closes through `closeModal`: while submitting the flags stay as they were; only an idle modal starts closing |
| AddOrderForm.SuccessLeavesModalStuck | Frontend/src/app/pages/layout/orders/addorder/addorder.ts:286-299 | as written, closing from `showSuccess` while submitting changes neither flag |
| AddOrderForm.AddOrder.constructor | Frontend/src/app/pages/layout/orders/addorder/addorder.ts:62-84 | the form starts with no customer and one empty line; nothing sent or shown |
| AddOrderForm.AddOrder.NgOnChanges | Frontend/src/app/pages/layout/orders/addorder/addorder.ts:91-100 | new order data replaces the form, an empty item list becoming one empty line; the form never has no line |
| AddOrderForm.AddOrder.AddItem | Frontend/src/app/pages/layout/orders/addorder/addorder.ts:124-126 | one empty line is appended and nothing else changes |
| AddOrderForm.AddOrder.RemoveItem | Frontend/src/app/pages/layout/orders/addorder/addorder.ts:128-132 | the line is spliced out unless it is the last one, so the form keeps at least one line |
| AddOrderForm.AddOrder.OnProductChange | Frontend/src/app/pages/layout/orders/addorder/addorder.ts:134-171 | with a known product, the line takes its price and name, and its total when the quantity is positive; other lines and a line without product are untouched |
| AddOrderForm.AddOrder.ValidateStock | Frontend/src/app/pages/layout/orders/addorder/addorder.ts:196-213 | true exactly when no line asks for more than its product's stock; otherwise the product of the first such line is reported |
| AddOrderForm.AddOrder.OnSubmit | Frontend/src/app/pages/layout/orders/addorder/addorder.ts:215-284 | no customer or no valid line warns "Missing Information" and sends nothing; a line over stock shows "Insufficient Stock" and sends nothing; an edit without an id shows "Update failed" and ends submitting; otherwise exactly one request with the filtered payload is sent, with no dialog, while submitting |
| AddOrderForm.AddOrder.OnSaveSuccess | Frontend/src/app/pages/layout/orders/addorder/addorder.ts:255-299 | the list is told to reload and the success dialog shows; the close is asked for while submitting, so after a sent request both flags stay as they were and the modal stays open and busy |
| AddOrderForm.AddOrder.OnSaveError | Frontend/src/app/pages/layout/orders/addorder/addorder.ts:301-312 | the error is shown and the form can be submitted again |
| AddOrderForm.AddOrder.Close | Frontend/src/app/pages/layout/orders/addorder/addorder.ts:314-322 | the flags change as `closeModal` says |
| AddOrderForm.AddOrder.OnCloseTimer | Frontend/src/app/pages/layout/orders/addorder/addorder.ts:318-321 | the closing flag drops and `close` is emitted once, also for a second pending timer |
| AddProductForm.FieldNamesDistinct | Frontend/src/app/pages/layout/product/addproduct/addproduct.ts:200-209 | the five labels of the warning are pairwise different texts |
| AddProductForm.MissingFields | Frontend/src/app/pages/layout/product/addproduct/addproduct.ts:198-209 | the list is empty exactly when the form passes the check of `onSubmit`; it names each field exactly when that field fails, in the order name, category, stock, price, description |
| AddProductForm.Prepare | Frontend/src/app/pages/layout/product/addproduct/addproduct.ts:138-148 | the data sent has the trimmed, non-empty name and description, the stock, the price, and the category as a plain id |
| AddProductForm.WithoutId | Frontend/src/app/pages/layout/product/addproduct/addproduct.ts:181 | create sends every prepared field except the id |
| AddProductForm.GetCategoryName | Frontend/src/app/pages/layout/product/addproduct/addproduct.ts:111-115 | a name exactly when some category has the id, and it is that of the first such category; null with no categories |
| AddProductForm.SubmitOutcomeMeaning | Frontend/src/app/pages/layout/product/addproduct/addproduct.ts:117-162 | an invalid form shows its (non-empty) missing fields; a valid one is created without id, or updated under its id; an update without a truthy id fails |
| AddProductForm.AddProduct.constructor | Frontend/src/app/pages/layout/product/addproduct/addproduct.ts:62-82 | the form starts empty, nothing sent or shown |
| AddProductForm.AddProduct.NgOnChanges | Frontend/src/app/pages/layout/product/addproduct/addproduct.ts:88-97 | new product data replaces the form; otherwise it stays |
| AddProductForm.AddProduct.OnSubmit | Frontend/src/app/pages/layout/product/addproduct/addproduct.ts:117-162 | the outcome decides: a warning with the missing fields, one request sent while submitting, or "Update failed" with the submitting state dropped |
| AddProductForm.AddProduct.Apply | Frontend/src/app/pages/layout/product/addproduct/addproduct.ts:117-162 | a warning adds its field list and sends nothing; a send adds exactly that request and marks the form submitting; an update without id adds "Update failed" and ends submitting |
| AddProductForm.AddProduct.OnSaveSuccess | Frontend/src/app/pages/layout/product/addproduct/addproduct.ts:164-189 | the list reloads, the success dialog shows, the request is over and the modal closes |
| AddProductForm.AddProduct.OnSaveError | Frontend/src/app/pages/layout/product/addproduct/addproduct.ts:171-194 | the error is shown and the form can be submitted again |
| AddProductForm.AddProduct.Close | Frontend/src/app/pages/layout/product/addproduct/addproduct.ts:260-268 | the flags change as `closeModal` says |
| AddProductForm.AddProduct.OnCloseTimer | Frontend/src/app/pages/layout/product/addproduct/addproduct.ts:264-267 | `close` is emitted once and the form is reset |
| AddProductForm.AddProduct.ResetForm | Frontend/src/app/pages/layout/product/addproduct/addproduct.ts:277-287 | the empty form, neither submitted nor closing |
| AddUserForm.CheckFile | Frontend/src/app/pages/layout/users/adduser/adduser.ts:95-117 | a file is accepted exactly when its type starts with `image/` and it is at most 5 MiB; the type is refused before the size is looked at |
| AddUserForm.Tenths | Frontend/src/app/pages/layout/users/adduser/adduser.ts:129-130 | `toFixed(1)` of bytes over the unit is the nearest tenth, within half a tenth |
| AddUserForm.OneDecimal | Frontend/src/app/pages/layout/users/adduser/adduser.ts:129-130 | digits, a point and one digit, whose value is the given count of tenths |
| AddUserForm.GetFileSize | Frontend/src/app/pages/layout/users/adduser/adduser.ts:127-131 | below 1024 the exact byte count; below 1048576 KB with one decimal; else MB with one decimal |
| AddUserForm.AccountOf | Frontend/src/app/pages/layout/users/adduser/adduser.ts:158-163 | the request body is the four account fields of the form, and nothing else |
| AddUserForm.SubmitCallMeaning | Frontend/src/app/pages/layout/users/adduser/adduser.ts:139-188 | a request goes out exactly when all four fields are truthy; a create carries the account, an update the form's id and the account |
| AddUserForm.AccountIgnoresImage | Frontend/src/app/pages/layout/users/adduser/adduser.ts:158-163 | the profile image never reaches the create or update body |
| AddUserForm.CloseWithNotificationAsWritten | Frontend/src/app/pages/layout/users/adduser/adduser.ts:270-282 | as written, `closeModalWithNotification` goes through `closeModal`: while submitting the flags stay as they were; only an idle modal starts closing |
| AddUserForm.SavedUserLeavesModalStuck | Frontend/src/app/pages/layout/users/adduser/adduser.ts:270-282 | as written, `closeModalWithNotification` while submitting leaves both flags as they were, so the modal stays open and busy |
| AddUserForm.Success | Frontend/src/app/pages/layout/users/adduser/adduser.ts:257-266 | the success dialog is titled "Success!" and shows the message |
| AddUserForm.AddUser.constructor | Frontend/src/app/pages/layout/users/adduser/adduser.ts:43-59 | the empty form, no file, no preview, nothing sent or shown |
| AddUserForm.AddUser.NgOnChanges | Frontend/src/app/pages/layout/users/adduser/adduser.ts:63-67 | a bound user replaces the form; otherwise the form stays |
| AddUserForm.AddUser.HandleFile | Frontend/src/app/pages/layout/users/adduser/adduser.ts:95-119 | an accepted file is selected with no dialog; a refused one leaves the selection and shows "Invalid File Type" or "File Too Large" |
| AddUserForm.AddUser.OnFileRead | Frontend/src/app/pages/layout/users/adduser/adduser.ts:121-123 | the preview is the reader's data URL |
| AddUserForm.AddUser.OnFileSelected | Frontend/src/app/pages/layout/users/adduser/adduser.ts:69-74 | no file changes nothing; a file is handled as `handleFile` says |
| AddUserForm.AddUser.OnDragOver | Frontend/src/app/pages/layout/users/adduser/adduser.ts:76-79 | the drop zone is marked as dragged over |
| AddUserForm.AddUser.OnDragLeave | Frontend/src/app/pages/layout/users/adduser/adduser.ts:81-84 | the mark is removed |
| AddUserForm.AddUser.OnFileDrop | Frontend/src/app/pages/layout/users/adduser/adduser.ts:86-93 | the drag ends, and a dropped file is handled as `handleFile` says |
| AddUserForm.AddUser.RemoveImage | Frontend/src/app/pages/layout/users/adduser/adduser.ts:133-137 | no file, no preview and no stored image remain; the rest of the form stays |
| AddUserForm.AddUser.OnSubmit | Frontend/src/app/pages/layout/users/adduser/adduser.ts:139-155 | a form with a missing field shows "Missing Information" and sends nothing; otherwise exactly the request `SubmitCall` designates is sent while submitting |
| AddUserForm.AddUser.CloseNotifying | Frontend/src/app/pages/layout/users/adduser/adduser.ts:270-282 | the list is notified once; `closeModal` runs while the request still counts as in flight, so after a sent request both flags stay as they were |
| AddUserForm.AddUser.FinishSuccess | Frontend/src/app/pages/layout/users/adduser/adduser.ts:257-273 | the success dialog shows, the list is notified once, and `closeModalWithNotification` runs as written: a save in flight leaves both flags as they were |
| AddUserForm.AddUser.OnCreateResponse | Frontend/src/app/pages/layout/users/adduser/adduser.ts:166-172 | with a chosen file and a truthy new id the picture is uploaded under that id and nothing else changes; otherwise "User created successfully!", one notification, and the modal closes only if no request is in flight |
| AddUserForm.AddUser.OnUpdateResponse | Frontend/src/app/pages/layout/users/adduser/adduser.ts:189-195 | with a chosen file the picture is uploaded under the form's id and nothing else changes; otherwise "User updated successfully!", one notification, and the modal closes only if no request is in flight |
| AddUserForm.AddUser.OnUploadSuccess | Frontend/src/app/pages/layout/users/adduser/adduser.ts:210-215 | the success message names the update or the create, the list is notified, and the modal closes only if no request is in flight, so after a save it stays open and busy |
| AddUserForm.AddUser.OnUploadError | Frontend/src/app/pages/layout/users/adduser/adduser.ts:216-226 | "Partial Success" is shown and the list is notified; the modal closes only if no request is in flight, so after a save it stays open and busy |
| AddUserForm.AddUser.OnSaveError | Frontend/src/app/pages/layout/users/adduser/adduser.ts:173-176 | the create or update failure is shown and the request is over |
| AddUserForm.AddUser.Close | Frontend/src/app/pages/layout/users/adduser/adduser.ts:275-282 | the flags change as `closeModal` says |
| AddUserForm.AddUser.OnCloseTimer | Frontend/src/app/pages/layout/users/adduser/adduser.ts:278-281 | the closing flag drops and `close` is emitted once |
| AddCategoryForm.MissingFields | Frontend/src/app/pages/layout/categories/addcategory/addcategory.ts:133-134 | the warning lists the name exactly when it is falsy and the description exactly when it is falsy, name first |
| AddCategoryForm.BlankNameNotListed | Frontend/src/app/pages/layout/categories/addcategory/addcategory.ts:65-66 | for every form whose name is white space only and whose description is filled, the trimmed check fails but the warning lists no field |
| AddCategoryForm.Prepare | Frontend/src/app/pages/layout/categories/addcategory/addcategory.ts:73-77 | the data sent is the form with name and description trimmed and the id kept; neither text is empty |
| AddCategoryForm.PrepareIdempotent | Frontend/src/app/pages/layout/categories/addcategory/addcategory.ts:65-77 | the data sent passes the check again and trimming it once more changes nothing |
| AddCategoryForm.SubmitOutcomeMeaning | Frontend/src/app/pages/layout/categories/addcategory/addcategory.ts:61-94 | a form fails exactly when it is invalid, listing `MissingFields`; a valid one is created trimmed or updated under its truthy id; an update without one fails |
| AddCategoryForm.CharacterCountColor | Frontend/src/app/pages/layout/categories/addcategory/addcategory.ts:198-203 | grey exactly at 0, yellow below 10 otherwise, green from 10 to 49, red from 50 |
| AddCategoryForm.AddCategory.constructor | Frontend/src/app/pages/layout/categories/addcategory/addcategory.ts:39-47 | the empty form, no input bound, nothing sent or shown |
| AddCategoryForm.AddCategory.NgOnChanges | Frontend/src/app/pages/layout/categories/addcategory/addcategory.ts:51-59 | a changed input is copied into the form, and a null one empties it; otherwise the form stays |
| AddCategoryForm.AddCategory.OnSubmit | Frontend/src/app/pages/layout/categories/addcategory/addcategory.ts:61-94 | the outcome decides: a warning with its fields and nothing sent, one request sent while submitting, or "Update failed" with the request over |
| AddCategoryForm.AddCategory.Apply | Frontend/src/app/pages/layout/categories/addcategory/addcategory.ts:61-94 | a warning adds its field list and sends nothing; a send adds exactly that request and marks the form submitting; an update without id adds "Update failed" and ends submitting |
| AddCategoryForm.AddCategory.OnSaveSuccess | Frontend/src/app/pages/layout/categories/addcategory/addcategory.ts:95-115 | the list is notified, the title shown, the request over and the modal closing |
| AddCategoryForm.AddCategory.OnSaveError | Frontend/src/app/pages/layout/categories/addcategory/addcategory.ts:101-120 | the error title is shown and the request is over |
| AddCategoryForm.AddCategory.Close | Frontend/src/app/pages/layout/categories/addcategory/addcategory.ts:174-177 | the flags change as `closeModal` says |
| AddCategoryForm.AddCategory.OnCloseTimer | Frontend/src/app/pages/layout/categories/addcategory/addcategory.ts:178-181 | `close` is emitted once and `resetForm` runs |
| AddCategoryForm.AddCategory.ResetForm | Frontend/src/app/pages/layout/categories/addcategory/addcategory.ts:191-195 | the input is emptied while the form keeps what was typed; not submitted, not closing |
| RegisterForm.PasswordMismatch | Frontend/src/app/pages/register/register.ts:61-68 | no mismatch while either password is empty; otherwise a mismatch exactly when they differ |
| RegisterForm.SignupRules | Frontend/src/app/pages/register/register.ts:48-58 | the form is valid exactly when the username has 3 to 50 characters, the password at least 6 and equals the confirmation, the e-mail passes the validator, a gender is chosen and the terms are accepted |
| RegisterForm.RegisterData | Frontend/src/app/pages/register/register.ts:80-87 | the request carries the username, e-mail and password as typed, and the gender lower-cased |
| RegisterForm.SentGenderIsLowerCase | Frontend/src/app/pages/register/register.ts:86 | the gender sent has no upper-case letter, and "Male" is sent as "male" |
| RegisterForm.ErrorMessage | Frontend/src/app/pages/register/register.ts:113-120 | 400 shows the server's error text, or the fixed invalid-data text without one; 0 shows the cannot-connect text; any other status the generic one; never empty |
| RegisterForm.SuccessText | Frontend/src/app/pages/register/register.ts:97 | the server's message when truthy, else the default text |
| RegisterForm.BackendRejectionShown | Frontend/src/app/pages/register/register.ts:114-115 | a rejection by the backend's `register` reaches the page as status 400 and is shown with the service's own message |
| RegisterForm.Register.constructor | Frontend/src/app/pages/register/register.ts:34-59 | the empty form, not loading, no messages, nothing sent |
| RegisterForm.Register.OnSubmit | Frontend/src/app/pages/register/register.ts:70-89 | an invalid form only marks the controls touched; a valid one clears the messages, starts loading and sends exactly `RegisterData` of the form |
| RegisterForm.Register.OnRegisterSuccess | Frontend/src/app/pages/register/register.ts:90-97 | loading ends and the success dialog shows `SuccessText` |
| RegisterForm.Register.OnDialogClosed | Frontend/src/app/pages/register/register.ts:105-107 | the page goes to /login |
| RegisterForm.Register.OnRegisterError | Frontend/src/app/pages/register/register.ts:109-120 | loading ends and the message is `ErrorMessage` of the status |
| ProductPage.MatchTest | Frontend/src/app/pages/layout/product/product.ts:119-124 | when it does not throw, true exactly when the name contains the lower-cased term, or the category name is present and contains it, or (both present) the description or the id does, so a name hit counts even on a row with null fields; with both fields present it never throws; it throws exactly when the name misses and a null category name, or (after a missed category name) a null description, is reached |
| ProductPage.SearchProducts | Frontend/src/app/pages/layout/product/product.ts:112-125 | a blank term keeps the whole list; otherwise it throws exactly when the test throws on some product, and else gives the `filter` of the list by the test, in list order, a subsequence of the list |
| ProductPage.TotalStock | Frontend/src/app/pages/layout/product/product.ts:107 | the reduce is the sum of the stocks |
| ProductPage.OutOfStockCount | Frontend/src/app/pages/layout/product/product.ts:109 | the number of products with stock exactly 0, never more than the list |
| ProductPage.NoStockMeansAllOut | Frontend/src/app/pages/layout/product/product.ts:106-110 | with no negative stock the total is non-negative, and 0 exactly when every product is out of stock |
| ProductPage.ProductList.constructor | Frontend/src/app/pages/layout/product/product.ts:50-62 | empty lists, zero figures, nothing loading |
| ProductPage.ProductList.LoadProducts | Frontend/src/app/pages/layout/product/product.ts:74-76 | one more request, and loading |
| ProductPage.ProductList.OnProductsLoaded | Frontend/src/app/pages/layout/product/product.ts:77-83 | the data is the list and the shown list, counted, with the figures recomputed; loading ends |
| ProductPage.ProductList.OnLoadError | Frontend/src/app/pages/layout/product/product.ts:84-96 | loading ends and the error dialog opens |
| ProductPage.ProductList.OnErrorDialogClosed | Frontend/src/app/pages/layout/product/product.ts:97-101 | a confirmed dialog loads again; a cancelled one changes nothing |
| ProductPage.ProductList.CalculateStats | Frontend/src/app/pages/layout/product/product.ts:106-110 | the total stock and the out-of-stock count of the list |
| ProductPage.ProductList.SetSearchTerm | Frontend/src/app/pages/layout/product/product.ts:56 | the search box's text is the term |
| ProductPage.ProductList.OnSearch | Frontend/src/app/pages/layout/product/product.ts:112-125 | the shown list is `SearchProducts` of the list and the term; when that throws, the shown list is unchanged |
| ProductPage.ProductList.ClearSearch | Frontend/src/app/pages/layout/product/product.ts:127-130 | no term and the whole list shown |
| UsersPage.SearchUsers | Frontend/src/app/pages/layout/users/users.ts:114-128 | a blank term keeps the whole list; otherwise exactly the users whose username, e-mail, role, gender or id contains the lower-cased term, in list order: the `filter` of the list by that test |
| UsersPage.AbsentFieldsNeverMatch | Frontend/src/app/pages/layout/users/users.ts:124-125 | a missing role or gender never matches, so such a user is found only by username, e-mail or id |
| UsersPage.GenderCountsBounded | Frontend/src/app/pages/layout/users/users.ts:109-110 | the male and female counts together never exceed the number of users |
| UsersPage.SignedUpUserNotCounted | Frontend/src/app/pages/layout/users/users.ts:109-110 | a user who signed up choosing "Male" or "Female" is stored lower-cased and counted as neither |
| UsersPage.UserList.constructor | Frontend/src/app/pages/layout/users/users.ts:49-61 | empty lists, zero figures, nothing loading |
| UsersPage.UserList.LoadUsers | Frontend/src/app/pages/layout/users/users.ts:76-78 | one more request, and loading |
| UsersPage.UserList.OnUsersLoaded | Frontend/src/app/pages/layout/users/users.ts:79-84 | the data is the list and the shown list, the figures agree with it, loading ends |
| UsersPage.UserList.OnLoadError | Frontend/src/app/pages/layout/users/users.ts:85-97 | loading ends and the error dialog opens |
| UsersPage.UserList.OnErrorDialogClosed | Frontend/src/app/pages/layout/users/users.ts:98-102 | a confirmed dialog loads again; a cancelled one changes nothing |
| UsersPage.UserList.CalculateStats | Frontend/src/app/pages/layout/users/users.ts:107-112 | total and active are the list length, male and female the exact-case counts, and male plus female never exceed the total |
| UsersPage.UserList.SetSearchTerm | Frontend/src/app/pages/layout/users/users.ts:54 | the search box's text is the term |
| UsersPage.UserList.OnSearch | Frontend/src/app/pages/layout/users/users.ts:114-128 | the shown list is `SearchUsers` of the list and the term |
| UsersPage.UserList.ClearSearch | Frontend/src/app/pages/layout/users/users.ts:130-133 | no term and the whole list shown |
| CategoriesPage.ConsSorted | Frontend/src/app/pages/layout/categories/categories.ts:69 | a head whose id is larger than the inserted row's, put before a newest-first list of the right elements, gives a newest-first list of the tail, the head and the new row |
| CategoriesPage.Insert | Frontend/src/app/pages/layout/categories/categories.ts:69 | inserting into a newest-first list gives a newest-first list with one more element and the same elements plus the new one |
| CategoriesPage.SortByIdDesc | Frontend/src/app/pages/layout/categories/categories.ts:69 | the sort gives the same rows, as a multiset, with ids never increasing |
| CategoriesPage.InsertKeepsEqualIdOrder | Frontend/src/app/pages/layout/categories/categories.ts:69 | among the rows of any one id, the inserted row comes first and the others keep their order |
| CategoriesPage.SortKeepsEqualIdOrder | Frontend/src/app/pages/layout/categories/categories.ts:69 | the sort is stable, as `Array.prototype.sort` is: the rows of each id come out in their input order |
| CategoriesPage.SearchCategories | Frontend/src/app/pages/layout/categories/categories.ts:110-122 | a blank term keeps the whole list; otherwise exactly the categories whose name, description or id contains the lower-cased term, in list order: the `filter` of the list by that test |
| CategoriesPage.SubsequenceStaysSorted | Frontend/src/app/pages/layout/categories/categories.ts:117-121 | a search of the newest-first list is still newest first |
| CategoriesPage.CategoryList.constructor | Frontend/src/app/pages/layout/categories/categories.ts:43-52 | empty lists, zero figures, nothing loading |
| CategoriesPage.CategoryList.LoadCategories | Frontend/src/app/pages/layout/categories/categories.ts:64-66 | one more request, and loading |
| CategoriesPage.CategoryList.OnCategoriesLoaded | Frontend/src/app/pages/layout/categories/categories.ts:67-76 | the list is the data sorted newest first, shown whole, the same rows as received, counted three times over; loading ends |
| CategoriesPage.CategoryList.OnLoadError | Frontend/src/app/pages/layout/categories/categories.ts:77-90 | loading ends and the error dialog opens |
| CategoriesPage.CategoryList.OnErrorDialogClosed | Frontend/src/app/pages/layout/categories/categories.ts:91-95 | a confirmed dialog loads again; a cancelled one changes nothing |
| CategoriesPage.CategoryList.CalculateStats | Frontend/src/app/pages/layout/categories/categories.ts:100-108 | every category counts as recent and as active |
| CategoriesPage.CategoryList.SetSearchTerm | Frontend/src/app/pages/layout/categories/categories.ts:52 | the search box's text is the term |
| CategoriesPage.CategoryList.OnSearch | Frontend/src/app/pages/layout/categories/categories.ts:110-122 | the shown list is `SearchCategories` of the list and the term, and stays newest first |
| CategoriesPage.CategoryList.ClearSearch | Frontend/src/app/pages/layout/categories/categories.ts:124-127 | no term and the whole list shown, newest first |
| OrdersPage.GetTotalItems | Frontend/src/app/pages/layout/orders/orders.ts:125-127 | the reduce is the sum of the lines' quantities |
| OrdersPage.TotalItemsAtLeastLines | Frontend/src/app/pages/layout/orders/orders.ts:125-127 | with positive quantities an order holds at least one piece per line |
| OrdersPage.SearchOrders | Frontend/src/app/pages/layout/orders/orders.ts:129-143 | a blank term keeps the whole list; otherwise exactly the orders whose customer name or id, or some line's product name, contains the lower-cased term, in list order: the `filter` of the list by that test |
| OrdersPage.EmptyOrderMatchesOnHeader | Frontend/src/app/pages/layout/orders/orders.ts:139-141 | an order without lines is found only by its customer's name or its id |
| OrdersPage.OrderList.constructor | Frontend/src/app/pages/layout/orders/orders.ts:57-69 | empty lists, zero count, nothing loading |
| OrdersPage.OrderList.LoadOrders | Frontend/src/app/pages/layout/orders/orders.ts:81-84 | one more request, and loading |
| OrdersPage.OrderList.OnOrdersLoaded | Frontend/src/app/pages/layout/orders/orders.ts:85-90 | the data is the list and the shown list, counted; loading ends |
| OrdersPage.OrderList.OnLoadError | Frontend/src/app/pages/layout/orders/orders.ts:91-103 | loading ends and the error dialog opens |
| OrdersPage.OrderList.OnErrorDialogClosed | Frontend/src/app/pages/layout/orders/orders.ts:104-108 | a confirmed dialog loads again; a cancelled one changes nothing |
| OrdersPage.OrderList.CalculateStats | Frontend/src/app/pages/layout/orders/orders.ts:114 | the order count is the list length |
| OrdersPage.OrderList.SetSearchTerm | Frontend/src/app/pages/layout/orders/orders.ts:60 | the search box's text is the term |
| OrdersPage.OrderList.OnSearch | Frontend/src/app/pages/layout/orders/orders.ts:129-143 | the shown list is `SearchOrders` of the list and the term |
| OrdersPage.OrderList.ClearSearch | Frontend/src/app/pages/layout/orders/orders.ts:145-148 | no term and the whole list shown |
| OrdersPage.OrderList.ClearFilters | Frontend/src/app/pages/layout/orders/orders.ts:166-169 | no term and the whole list shown, which also undoes a date filter |
| Home.RangeCount | Frontend/src/app/pages/layout/home/home.ts:205-211 | the table's count for a listed range, 6 for any other; always 6, 7, 9 or 12 |
| Home.Take | Frontend/src/app/pages/layout/home/home.ts:212 | `slice(0, count)` is the prefix of length count, or the whole list when shorter |
| Home.GetMonthsForRange | Frontend/src/app/pages/layout/home/home.ts:204-213 | the first months, as many as the range shows or as there are |
| Home.GetDataForRange | Frontend/src/app/pages/layout/home/home.ts:215-224 | the first values, by the same table |
| Home.LabelsMatchData | Frontend/src/app/pages/layout/home/home.ts:120-122 | labels and values of equal length stay of equal length for every range |
| Home.GetStatusSeverity | Frontend/src/app/pages/layout/home/home.ts:226-237 | success exactly for Completed, info for Processing, warn for Pending, secondary for every other status |
| ListOps.Filter | Frontend/src/app/pages/layout/product/product.ts:109 | `filter` keeps exactly the elements that pass, in order, never more than there were, and all of them when all pass |
| ListOps.FilterAppend | Frontend/src/app/pages/layout/users/users.ts:109 | filtering two runs one after the other is filtering each |
| ListOps.Count | Frontend/src/app/pages/layout/users/users.ts:109-110 | a count never exceeds the list length |
| ListOps.DisjointCounts | Frontend/src/app/pages/layout/users/users.ts:109-110 | two tests no element passes together count at most the list length |
| ListOps.CountAll | Frontend/src/app/pages/layout/product/product.ts:109 | the count is the length exactly when every element passes |
| ListOps.ReduceIsSum | Frontend/src/app/pages/layout/product/product.ts:107 | the left fold from a start value is the start value plus the sum |
| ListOps.SumOfNonNegative | Frontend/src/app/pages/layout/product/product.ts:107 | a sum of non-negative terms is non-negative, and 0 exactly when every term is |
| ListOps.Search | Frontend/src/app/pages/layout/product/product.ts:112-124 | a blank term keeps the list; otherwise exactly the filter by the page's test; a subsequence holding exactly the elements that pass |
| ListOps.IsSubsequenceReflexive | Frontend/src/app/pages/layout/product/product.ts:114 | the whole list is a subsequence of itself |
| ListOps.FilterOrThrow | Frontend/src/app/pages/layout/product/product.ts:119-124 | `filter` with a callback that may throw: it throws exactly when the callback throws on some element, and otherwise keeps exactly the elements that pass, in order |
| ListOps.PicksInOrder | Frontend/src/app/pages/layout/product/addproduct/addproduct.ts:200-209 | five conditional pushes made in the order of a list give a subsequence of that list |
| ListOps.KeepOrDropHead | Frontend/src/app/pages/layout/product/addproduct/addproduct.ts:200-209 | keeping or dropping the head of a list keeps a subsequence a subsequence |
| ListOps.SubsequenceElements | Frontend/src/app/pages/layout/categories/categories.ts:117 | every element of a subsequence is in the whole list |
| JsValues.FilledIsTruthy | Frontend/src/app/pages/layout/categories/addcategory/addcategory.ts:65 | a string that passes `?.trim()` is truthy, and a truthy one that fails it is white space only |
| Text.TrimStart | Frontend/src/app/pages/layout/categories/addcategory/addcategory.ts:75 | a suffix that starts with no white space, all of what was dropped being white space |
| Text.TrimEnd | Frontend/src/app/pages/layout/categories/addcategory/addcategory.ts:75 | a prefix that ends with no white space, all of what was dropped being white space |
| Text.Trim | Frontend/src/app/pages/layout/categories/addcategory/addcategory.ts:75-76 | `trim()` gives a piece of the string that begins and ends with non-space, and is empty exactly when the string is blank |
| Text.TrimIdempotent | Frontend/src/app/pages/layout/categories/addcategory/addcategory.ts:75-76 | trimming twice is trimming once |
| Text.TrimmedNotBlank | Frontend/src/app/pages/layout/categories/addcategory/addcategory.ts:65 | what is left of a non-blank string is not blank |
| Text.LowerChar | Frontend/src/app/pages/layout/product/product.ts:118 | an upper-case ASCII letter is lowered, every other character kept |
| Text.ToLower | Frontend/src/app/pages/layout/product/product.ts:118 | `toLowerCase()` keeps the length and lowers each character |
| Text.OccursAtShift | Frontend/src/app/pages/layout/product/product.ts:120 | an occurrence one place further in the string is an occurrence in its tail |
| Text.Includes | Frontend/src/app/pages/layout/product/product.ts:120-123 | `includes` is true exactly when the text occurs at some position |
| Text.DigitChar | Frontend/src/app/pages/layout/users/adduser/adduser.ts:129 | a digit below ten prints as one of '0' to '9' |
| Text.NatToString | Frontend/src/app/pages/layout/users/adduser/adduser.ts:128 | a natural number prints as at least one decimal digit |
| Text.IntToString | Frontend/src/app/pages/layout/product/product.ts:123 | `toString()` prints digits for a non-negative number and a leading '-' for a negative one |
| Text.NatToStringRoundTrip | Frontend/src/app/pages/layout/users/adduser/adduser.ts:128 | the printed digits read back as the number |
| Text.NatToStringInjective | Frontend/src/app/pages/layout/product/product.ts:123 | different natural numbers print differently |
| Text.IntToStringInjective | Frontend/src/app/pages/layout/product/product.ts:123 | different integers print differently, so an id is found by its own digits |

## Left out

- Concurrency of requests, the servlet container, Spring's dependency injection and the JPA session are not modelled. Each operation runs alone on the `Database` object.
- Spring Data's "load, set fields, save" becomes one row replacement in a table. The database's foreign-key constraints are not modelled: a dangling id makes the mapper fail instead.
- The OrderItem entity file is not part of this model. Its fields are taken from its use in `OrderServiceImpl.kt` and `OrderMapper.kt`.
- `BigDecimal` amounts are integers in minor units. `unitPrice * quantity` is the item total function the callers pass in.
- Floating point on the frontend is not modelled: the total value of the product page, the revenue and average of the orders page, and the subtotal, tax and total of the order form.
- Dates and clocks on the frontend are not modelled: `filterByDate`, `todaysOrders`, date formatting and the chart data of the home page.
- The HMAC computation, the Base64 encoding and the JSON layout of a JWT are not modelled. They are the jjwt record's functions, which `Sound` constrains.
- BCrypt's cost and salt generation are not modelled. They are the encoder record's functions and the salt parameter.
- `getProfileImage` and the file write of `uploadProfileImage` are left out, because they work on the file system. The checks made before that file work are modelled.
- The order, product, category and user controllers other than `OrderController.addItem` pass their arguments straight to the services. They are left out as plumbing, as are the other `OrderController` routes (findAll, findById, createOrder, deleteItem).
- The frontend's HTTP services (`Userdata`, `Productdata`, `Categorydata`, `Orderdata`) and their `notifyUpdated` subjects are recorded calls and counters, not modelled code.
- Page plumbing is left out because it holds no logic beyond opening a dialog or a modal:
  - `deleteX` (a confirmation dialog and one delete call);
  - `viewX` (an HTML dialog);
  - `openAddModal`, `openEditModal` and `closeModal` of the list pages;
  - `exportData` and `printTable`.
- `loadUsers` and `loadProducts` of the order form only fill its two select lists; their results are parameters of the methods that read them.
- Timers collapse into handler methods. The 300 ms closing animation is `OnCloseTimer`. In the product and category forms' `OnSaveSuccess`, `FinishThenClose` stands for the sequence "end the request, wait one second, close" of their success handlers. The order and user forms have no such delay: they call `closeModal` at once, as `ShowSuccessAsWritten` and `CloseWithNotificationAsWritten` say.
- JwtTokenProvider.Issue: `now.time + jwtExpiration` is a 64-bit `Long` sum in the source; the model adds unbounded integers, so a lifetime that pushes the sum past 2^63 - 1 ms, where Kotlin would wrap to a date in the past, is not modelled.
- AddOrderForm.AddOrder.NgOnChanges: `{...orderData}` is a shallow copy, so the form's `items` array is the same array as the input's and edits of the lines also change the parent's order; the model copies the lines by value and does not capture that sharing.
- The `FileReader` preview is the separate method `AddUserForm.AddUser.OnFileRead`, with the data URL as its argument.
- The e-mail pattern of `Validators.email` is a parameter of `RegisterForm.SignupValid`.
- `toLowerCase` and `trim` are modelled on ASCII letters and on the white-space characters of `Text.IsSpace`. There is no Unicode case mapping.
- The 404 branch of login is kept in `AuthController.LoginResponse`, but no input reaches it: a successful authentication has just found the user.
- The chart-range table is a Dafny map. A JavaScript object lookup such as `rangeMap['constructor']` would reach the prototype; that is not modelled.
- UserServiceImpl.UpdateProfile: the text of the unique-column refusal (`UserServiceImpl.DuplicateUsername`) is a placeholder. The real message comes from the JDBC driver and Hibernate, which are not part of this model.
- A null username in `findByUsername(null)` is `None` in the model; Kotlin's platform types are not modelled further.
- Logging is not modelled: the `println` calls in `validateToken`'s catch blocks (JwtTokenProvider.kt:75-84) and in `uploadProfileImage` (UserServiceImpl.kt:136), and the frontend's `console.log` / `console.error` calls, write diagnostics only and change no state and no answer.
- CategoriesPage.CategoryList.OnCategoriesLoaded: `data.sort` sorts the response array in place; the model sorts a sequence value and stores the result.

## Findings

| source | as written | input that shows it | evidently intended | confidence | as-written member | corrected member |
|---|---|---|---|---|---|---|
| Backend/src/main/kotlin/com/firestorm/stockmanagment/controller/OrderController.kt:43-45 | `orderService.addItem(orderId, productId, quantity)`, while the service takes `(productId, orderId, quantity)` | order 1 exists, product 2 exists, and no order has id 2: `POST /orders/1/items?productId=2&quantity=3` fails with "Order not found" | the product is added to the order named in the path | not executed | OrderController.AddItemAsWritten (shown by OrderController.SwappedIdsRefuseValidRequest) | OrderController.AddItem |
| Frontend/src/app/pages/layout/orders/addorder/addorder.ts:286-299 | `showSuccess` calls `closeModal` while `isSubmitting` is still true, so `closeModal` returns at once | any successful create or update of an order | the modal ends the request and closes | not executed | AddOrderForm.ShowSuccessAsWritten (shown by AddOrderForm.SuccessLeavesModalStuck) | ModalDialog.FinishThenClose |
| Frontend/src/app/pages/layout/users/adduser/adduser.ts:270-273 | `closeModalWithNotification` calls `closeModal` while `isSubmitting` is still true | any successful user save, or a save whose image upload fails | the modal ends the request and closes | not executed | AddUserForm.CloseWithNotificationAsWritten (shown by AddUserForm.SavedUserLeavesModalStuck) | ModalDialog.FinishThenClose |
