# TableReserve in Dafny

TableReserve is a restaurant-reservation web application. Customers browse restaurants, book tables, write reviews and keep favourites. Restaurant owners manage a restaurant profile and a menu, and see the reservations and reviews of their restaurants. This project models the application's core in Dafny and proves properties of that model.

- **The server routes.** These are the reviews, reservations, favorites and restaurants routes, and the user settings, profile and change-password routes. Each handler is modelled as a pure decision function: the guard chain in the route's own order, then the record it builds. A method applies that decision to an in-memory `Store` class. The store has one sequence per collection and a log of emitted socket events.
- **The helpers.** These cover token handling, registration and login (`lib/auth.ts`), the API utilities (`lib/api-utils.ts`), file validation (`lib/upload-utils.ts`) and the middleware's access decision.
- **The entities.** The records of `lib/db.ts` become datatypes, and their enumerations are parsed from stored text.
- **The client code.** This covers the list and string logic of the pages and components:
  - breadcrumbs and avatar initials;
  - the notification list and its time labels;
  - the restaurant search pipeline and the review tabs;
  - the sidebar and navbar links;
  - the dashboard statistics;
  - the review and profile forms;
  - the menu page.

Modules follow the source files, one module per file. `Common` holds generic sequence and string helpers. `Db` holds the entities and the JSON values the routes read.

Some modelling choices:
- JavaScript objects with free-form members (request bodies, settings sections, the user object of the auth context) are `map<string, Value>`. Reading an absent member gives `Null`, which stands for `undefined`.
- JWT signing and verification, and bcrypt hashing and comparison, are uninterpreted. They are function-valued fields of a `Crypto` datatype passed to the routes.
- Clock readings, generated ids (`uuidv4`, `Math.random`), the next-auth session and the server's answers to client requests are parameters.
- The activity card's `formatTime` (components/real-time-activity.tsx:78-101) is the same code as the notification menu's, so both are modelled once, by `Notifications.FormatTime`.

Where the code and the documented behaviour differ, the model follows the code:
- The routes that call `verifyToken` directly answer an invalid token with 500 "Invalid token" through their outer catch, not with 401.
- The profile update does not check that a new email is free, so two users can end up with the same email (`ProfileRoute.UpdateCanDuplicateEmail`).
- The auth context provides no `token` member. The dashboard layout's redirect to /login therefore happens exactly when there is no user.

## Model

| member | source | states |
|---|---|---|
| Db.ParseUserType | lib/db.ts:9 | a stored user type is accepted exactly when it is "customer" or "restaurant", and the parsed value's name gives the text back |
| Db.ParseReservationStatus | lib/db.ts:94 | a reservation status is exactly one of pending, confirmed and cancelled, and it round-trips through its name |
| Db.ParseReviewStatus | lib/db.ts:108 | a review status, when present, is exactly one of pending, approved and rejected, and it round-trips through its name |
| Db.ParseReportStatus | lib/db.ts:127 | a report status is exactly one of pending, resolved and dismissed, and it round-trips through its name |
| Db.ParsePriceRange | lib/db.ts:83 | a price range is exactly one of low, medium and high, and it round-trips through its name |
| Db.NamesAreInjective | lib/db.ts:83-127 | two different enumeration values never have the same stored name |
| Db.FindRestaurant | lib/db.ts:64-85 | a `findOne` by id returns a restaurant of the collection with that id, and returns none exactly when no restaurant has it |
| Db.RestaurantIds | app/api/reservations/route.ts:48 | the ids of the restaurants, one per restaurant and in order |
| Db.OwnedIds | app/api/reservations/route.ts:45-50 | an id is among the owner's restaurant ids exactly when the collection has a restaurant with that id and that owner |
| Db.FindUser | lib/db.ts:4-38 | a `findOne` by id returns a user of the collection with that id, and returns none exactly when no user has it |
| Db.UserIndex | app/api/users/change-password/route.ts:38 | the position `updateOne` changes is the first user with the id; there is none exactly when no user has it |
| Db.UserIndexFinds | app/api/users/profile/route.ts:48 | finding the user's position and finding the user agree on whether the user exists and on which user it is |
| Auth.StripBearer | lib/auth.ts:131 | the 7-character "Bearer " prefix is removed when the token starts with it, and a token without it is kept whole |
| Auth.StripBearerOfHeader | lib/auth.ts:131 | stripping "Bearer " + t gives t back, for every t |
| Auth.VerifyToken | lib/auth.ts:124-144 | an empty token fails with "No token provided"; otherwise it succeeds exactly when the stripped token verifies, with the verified claims, and every failure is "Invalid token" |
| Auth.VerifyHeaderAsBareToken | lib/auth.ts:124-144 | "Bearer " + t and the bare t give the same verification result |
| Auth.AuthenticateHeader | app/api/reservations/route.ts:9-14 | no header gives 401 "Authorization required"; a header that does not verify gives 500 "Invalid token" through the route's catch; otherwise the verified claims |
| Auth.FindByEmail | lib/auth.ts:17 | the lookup returns a user with that email, and returns none exactly when no user has it |
| Auth.NewUserDocument | lib/auth.ts:22-30 | the stored user has the hashed password, the given name, email and user type, and the creation time |
| Auth.RegisterUser | lib/auth.ts:12-54 | a taken email fails with "User already exists" and inserts nothing; otherwise exactly one new user is appended and the session with the signed token is returned; no other collection changes |
| Auth.RegisterKeepsEmailsUnique | lib/auth.ts:16-32 | registering an email that is not taken keeps every email on at most one user |
| Auth.LoginUser | lib/auth.ts:56-92 | an unknown email fails with "User not found", a wrong password with "Invalid password"; a known email whose password bcrypt accepts always succeeds, returning the user without its password and a token for {userId, email, userType} |
| Auth.RegisterThenLogin | lib/auth.ts:12-92 | logging in right after registering, with the same credentials, returns the session the registration returned |
| ApiUtils.HeaderToken | lib/api-utils.ts:14-15 | a token is read only from a header that starts with "Bearer "; it is the piece after the first space, up to the next space or the end |
| ApiUtils.HeaderTokenOfBearer | lib/api-utils.ts:14-15 | a header built as "Bearer " + t from a token t without spaces gives t back |
| ApiUtils.HeaderUser | lib/api-utils.ts:12-26 | the header yields a user exactly when it is a bearer header whose token verifies |
| ApiUtils.GetAuthUser | lib/api-utils.ts:9-50 | a verified bearer token wins; otherwise the session user, with a missing email as ""; with neither, the failure is "Unauthorized" |
| ApiUtils.BearerHeaderAuthenticates | lib/api-utils.ts:14-22 | "Bearer t" with a verifying token t authenticates as t's claims, whatever the session holds |
| ApiUtils.HandleApiError | lib/api-utils.ts:53-64 | the message "Unauthorized" maps to 401; any other error keeps its message (or "Internal server error") and its status (or 500) |
| ApiUtils.AuthFailureIs401 | lib/api-utils.ts:46-58 | every failure of getAuthUser is answered with 401 "Unauthorized" |
| ApiUtils.AuthenticateRequest | app/api/users/profile/route.ts:55-57 | the user routes answer 401 "Unauthorized" exactly when getAuthUser fails, and otherwise go on with its user |
| ApiUtils.IsAuthorized | lib/api-utils.ts:67-69 | authorized exactly when the user owns the resource or is an admin |
| ApiUtils.OwnerOrAdmin | lib/api-utils.ts:67-69 | the owner is always authorized, an admin always, and nobody else |
| ApiUtils.FetchHeaders | lib/api-utils.ts:87-96 | Content-Type is a default that FormData bodies drop; Authorization is added only with a token; the caller's headers override both |
| ApiUtils.FetchThenAuthenticate | lib/api-utils.ts:14-15 | the token fetchWithAuth puts in the Authorization header is the one getAuthUser reads back |
| ApiUtils.PostWithAuth | lib/api-utils.ts:103-122 | as written: a request rejects only on a 401 ("Unauthorized") or a thrown failure; every other status resolves like a success |
| ApiUtils.DuplicateReviewResolves | lib/api-utils.ts:116-122 | as written, the review route's 400 "You have already reviewed this restaurant" resolves like a success |
| ApiUtils.PostWithAuthChecked | lib/api-utils.ts:103-122 | corrected: a request succeeds exactly on a 2xx answer; 401 rejects with "Unauthorized", any other non-2xx answer with its own status and error |
| ApiUtils.CheckedDiffersOnRejections | lib/api-utils.ts:116-122 | the two differ exactly on the answers that are neither 2xx nor 401, and agree on every success |
| UploadUtils.ValidateFile | lib/upload-utils.ts:4-34 | valid exactly when the size is at most 5 MB and the type is one of the four image types, and then with no error; an oversized file reports the size error whatever its type; otherwise the type error |
| UploadUtils.SizeBoundary | lib/upload-utils.ts:4-18 | the limit is 5242880 bytes; a file of exactly that size passes the size check and one byte more fails it |
| UploadUtils.GenerateUniqueFilename | lib/upload-utils.ts:37-40 | the name is the uuid, ".", then the text after the last "." of the original name, which holds no "." itself; a name without a dot is kept whole |
| Middleware.ProtectedIsPrefix | middleware.ts:6-22 | none of the listed paths is dynamic, so a path is protected exactly when it starts with one of the five entries |
| Middleware.Decide | middleware.ts:11-60 | the middleware body: an unprotected path passes; a protected /api path passes on a "Bearer " header or a session and otherwise gets 401 "Authorization required"; a protected page passes on a session and otherwise redirects to /login with the path as callbackUrl |
| Middleware.MatchedIsProtected | middleware.ts:6-71 | every path the matcher selects starts with a protected entry |
| Middleware.Handle | middleware.ts:11-71 | a path the matcher does not select passes untouched; on a selected path an /api request passes on a "Bearer " header or a session and otherwise gets 401, and a page passes on a session and otherwise redirects to /login |
| Middleware.NotSelected | middleware.ts:63-71 | a path that differs from "base/" at a position it has is not selected by that matcher entry |
| Middleware.UnmatchedLookalike | middleware.ts:15-71 | "/dashboardX" starts like a protected page, and the middleware body alone would redirect it, but the matcher does not select it, so it passes |
| Middleware.LookalikeUnmatched | middleware.ts:63-71 | no matcher entry selects "/dashboardX" |
| Middleware.PublicPageExample | middleware.ts:63-71 | "/restaurants" is not selected and passes without a header or a session |
| ReviewsRoute.BuildReviewQuery | app/api/reviews/route.ts:14-60 | without restaurantId and customerId the answer is 400 "Either restaurantId or customerId is required"; otherwise each given id is filtered on exactly, the status filter is the given one or "approved", and it is dropped for a restaurant-role caller who owns the restaurant, even when it was given; a token that fails to verify changes nothing |
| ReviewsRoute.BuildSortOptions | app/api/reviews/route.ts:11-73 | "rating" sorts by rating, "helpful" by helpful, anything else by date; ascending only for "asc"; with neither parameter, date descending |
| ReviewsRoute.ReviewOrderTotal | app/api/reviews/route.ts:66-75 | every sort order the route can request is a total preorder, so sorting by it is well defined |
| ReviewsRoute.VisibleReviews | app/api/reviews/route.ts:22-75 | a review is returned exactly when it is stored and matches the requested ids and the status rule |
| ReviewsRoute.GetReviews | app/api/reviews/route.ts:5-100 | the 400 case as above; otherwise exactly the visible reviews, each as often as it is stored, sorted in the requested order, each row carrying its customer's and its restaurant's names |
| ReviewsRoute.QueryFindsVisible | app/api/reviews/route.ts:22-75 | the filter the route builds selects exactly the visible reviews, in store order |
| ReviewsRoute.SortedReviews | app/api/reviews/route.ts:75 | sorting keeps the same reviews, each as often, and leaves them in the requested order |
| ReviewsRoute.WithNames | app/api/reviews/route.ts:77-93 | one row per review, in order, with the customer's name or "Unknown Customer" and the restaurant's name or "Unknown Restaurant" |
| ReviewsRoute.Reviews | app/api/reviews/route.ts:87-89 | the stored review behind each row, in order |
| ReviewsRoute.ReviewsOfWithNames | app/api/reviews/route.ts:77-93 | adding the names keeps the reviews and their order |
| ReviewsRoute.StoredImages | app/api/reviews/route.ts:116 | a missing `images` member is stored as [], an explicit null as null, and a list as itself |
| ReviewsRoute.DecideCreateReview | app/api/reviews/route.ts:102-158 | the checks in the route's order: no header 401, a bad token 500, a non-customer 403, a missing restaurantId, rating (0 counts as missing) or comment 400, a rating outside 1 to 5 400, an unknown restaurant 404, a second review of the same restaurant by the same customer 400; a request that passes every check always succeeds, with a review by the caller with status pending, helpful 0, reportCount 0 and images defaulting to [] only when the member is left out (a null is stored as null) |
| ReviewsRoute.CreateReviewKeepsOnePerPair | app/api/reviews/route.ts:136-160 | a review that passes the checks keeps at most one review per restaurant and customer |
| ReviewsRoute.CreateReview | app/api/reviews/route.ts:102-171 | the store gains exactly the decided review on success and nothing on failure; restaurants, their ratings included, and every other collection are unchanged, and the store invariant is kept |
| ReservationsRoute.BuildReservationQuery | app/api/reservations/route.ts:9-57 | the header checks first; a customer is filtered on their own id and any customerId parameter is ignored; a restaurant caller naming a restaurant they do not own gets 404, an owned one is filtered on exactly that id, and without one the filter is the ids of all restaurants they own; only a restaurant caller's customerId parameter is used |
| ReservationsRoute.VisibleReservations | app/api/reservations/route.ts:23-60 | a reservation is returned exactly when it is stored and the caller may see it under the role rule |
| ReservationsRoute.WithNames | app/api/reservations/route.ts:63-79 | one row per reservation, in order, with the restaurant's name or "Unknown Restaurant" and the customer's name or "Unknown Customer" |
| ReservationsRoute.GetReservations | app/api/reservations/route.ts:6-86 | 401 without a header, the header errors, the 404 for a restaurant not owned; every other authenticated request succeeds, with exactly the visible reservations in store order, each with its restaurant's and its customer's names |
| ReservationsRoute.DecideCreateReservation | app/api/reservations/route.ts:88-148 | the checks in the route's order: 401, 500 for a bad token, 403 for a non-customer, 400 if restaurantId, date, time or guests is missing (0 guests counts as missing), 404 for an unknown restaurant; a request that passes every check always succeeds, with a pending reservation by the caller with guests as given and specialRequests defaulting to "", and a "new_reservation" event for the restaurant's owner |
| ReservationsRoute.CreateReservation | app/api/reservations/route.ts:88-155 | on success exactly one reservation is stored and one "new_reservation" event is appended; when the Socket.IO server is not started (lib/socket-server.ts:54-58) the reservation is still stored, no event is sent and the answer is 500 "Socket.IO not initialized"; on a rejected request nothing changes; no other collection changes and the store invariant is kept |
| FavoritesRoute.Summary | app/api/favorites/route.ts:33-39 | the embedded restaurant keeps its id, name and cuisine, and a missing rating shows as 0 |
| FavoritesRoute.Views | app/api/favorites/route.ts:26-43 | one view per favorite in the same order, each with its restaurant's summary, or null when the restaurant is not found |
| FavoritesRoute.OwnViews | app/api/favorites/route.ts:22-43 | the views list every favorite of the caller and only the caller's |
| FavoritesRoute.GetFavorites | app/api/favorites/route.ts:5-45 | the header errors, 403 for a non-customer, and every authenticated customer is answered with the views of exactly the caller's favorites in store order, each with its restaurant's summary or null |
| FavoritesRoute.DecideAddFavorite | app/api/favorites/route.ts:52-114 | 401 / 500, 403 for a non-customer, 400 without restaurantId, 404 for an unknown restaurant, 400 for a duplicate; a request that passes every check always succeeds, with a favorite by the caller for that restaurant with its summary |
| FavoritesRoute.AddFavoriteKeepsOnePerPair | app/api/favorites/route.ts:82-100 | the duplicate check keeps at most one favorite per customer and restaurant |
| FavoritesRoute.AddFavorite | app/api/favorites/route.ts:52-119 | stores the decided favorite only on success, changes no other collection, keeps the store invariant |
| FavoritesRoute.DeleteFavorite | app/api/favorites/route.ts:121-135 | 400 exactly when either parameter is missing; otherwise success, and nothing is deleted |
| RestaurantsRoute.AddIfRequested | app/api/restaurants/route.ts:32-49 | a feature joins the filter exactly when its parameter is the text "true"; the others already there stay |
| RestaurantsRoute.BuildRestaurantQuery | app/api/restaurants/route.ts:7-49 | cuisine, location and priceRange filter only when given and non-empty; each feature filters exactly when its parameter is "true" |
| RestaurantsRoute.RequestedRestaurants | app/api/restaurants/route.ts:52 | a restaurant is returned exactly when it is stored and matches every filter the request sets |
| RestaurantsRoute.GetRestaurants | app/api/restaurants/route.ts:5-60 | the answer is the requested restaurants of the store |
| RestaurantsRoute.NoParamsReturnsAll | app/api/restaurants/route.ts:22-52 | without parameters every stored restaurant is returned, in order |
| RestaurantsRoute.NonTrueFlagIgnored | app/api/restaurants/route.ts:32-49 | a feature parameter with any value other than "true" (for instance "false") changes nothing |
| RestaurantsRoute.TextOr | app/api/restaurants/route.ts:109-118 | `value \|\| default`: the value when non-empty, the default otherwise |
| RestaurantsRoute.DecideCreateRestaurant | app/api/restaurants/route.ts:67-125 | 401 / 500, 403 for a non-owner, 400 unless name, cuisine and location are given; an owner who sends all three always succeeds, and the restaurant is owned by the caller, takes the given fields, defaults description, phone and hours to "", priceRange to "medium", every feature to false, and starts without images, menu or rating |
| RestaurantsRoute.MinimalRestaurantDefaults | app/api/restaurants/route.ts:106-125 | a body with only the three required fields gets all the defaults |
| RestaurantsRoute.CreateRestaurant | app/api/restaurants/route.ts:67-135 | stores the decided restaurant only on success, changes nothing else and keeps the store invariant |
| SettingsRoute.DefaultSettingsShape | app/api/users/settings/route.ts:76-115 | each section of the defaults has exactly the documented members, and the choice members hold "registered", "system", "MM/DD/YYYY" and "12h" |
| SettingsRoute.DefaultSettings | app/api/users/settings/route.ts:76-115 | the defaults are well typed (switches are booleans, the choice members are on their lists) and hold every checked personalization member |
| SettingsRoute.RestaurantDefaultsExtendCustomer | app/api/users/settings/route.ts:99-114 | restaurant defaults are the customer ones plus newReviews and showReservations, both true; customers have neither |
| SettingsRoute.Pick | app/api/users/settings/route.ts:145-163 | a value on the allowed list is kept and anything else becomes the fallback |
| SettingsRoute.CoerceNotifications | app/api/users/settings/route.ts:138-140 | every notification member becomes `Boolean(value)` and no member is added or dropped |
| SettingsRoute.SanitizePrivacySection | app/api/users/settings/route.ts:142-151 | profileVisibility is checked against its list and every other privacy member becomes a boolean |
| SettingsRoute.CheckChoice | app/api/users/settings/route.ts:154-164 | one choice member is replaced by its default unless its value is on its list; the rest of the section is unchanged |
| SettingsRoute.SanitizeSettings | app/api/users/settings/route.ts:121-166 | the loops compute the merge-then-sanitise of the body against the defaults |
| SettingsRoute.Sanitized | app/api/users/settings/route.ts:121-166 | every notification switch and every privacy member but profileVisibility comes out a boolean, and theme, dateFormat and timeFormat are each on their list or the default's |
| SettingsRoute.Validated | app/api/users/settings/route.ts:118-167 | what validateSettings returns is well typed |
| SettingsRoute.ValidateSettings | app/api/users/settings/route.ts:118-167 | validateSettings sanitises against the defaults of the caller's user type |
| SettingsRoute.SanitizedKeys | app/api/users/settings/route.ts:122-135 | every default member is present in the result, and nothing else except the supplied members |
| SettingsRoute.SanitizedOverrides | app/api/users/settings/route.ts:122-151 | a supplied switch wins over the default, as a boolean; a switch that is not supplied keeps its default |
| SettingsRoute.SanitizedWellTyped | app/api/users/settings/route.ts:137-164 | sanitising against well-typed defaults gives well-typed settings |
| SettingsRoute.SanitizedChoices | app/api/users/settings/route.ts:143-164 | an allowed choice is kept and any other resets to its default; language, currency and other unchecked members pass through as sent |
| SettingsRoute.NotificationsIdempotent | app/api/users/settings/route.ts:138-140 | sanitising the notifications a second time changes nothing |
| SettingsRoute.PrivacyIdempotent | app/api/users/settings/route.ts:142-151 | sanitising the privacy section a second time changes nothing |
| SettingsRoute.PersonalizationIdempotent | app/api/users/settings/route.ts:153-164 | sanitising the personalization section a second time changes nothing |
| SettingsRoute.SanitizeIdempotent | app/api/users/settings/route.ts:121-166 | sanitising sanitised settings against the same defaults changes nothing |
| SettingsRoute.ValidateIdempotent | app/api/users/settings/route.ts:118-167 | validateSettings is idempotent for a fixed user type |
| SettingsRoute.SanitizedEmptyBody | app/api/users/settings/route.ts:122-166 | a body that sends nothing gives exactly the defaults |
| SettingsRoute.ValidatedEmptyBody | app/api/users/settings/route.ts:118-167 | an empty body validates to the defaults of the user type |
| SettingsRoute.SettingsOf | app/api/users/settings/route.ts:10-30 | 404 for an unknown user; otherwise the stored settings, or the defaults of the user's type when none are stored |
| SettingsRoute.GetSettings | app/api/users/settings/route.ts:5-35 | 401 when getAuthUser fails, otherwise the caller's settings |
| SettingsRoute.WithSettings | app/api/users/settings/route.ts:56-58 | only the caller's record changes, and only in its settings; an unknown id changes nothing |
| SettingsRoute.GetAfterPut | app/api/users/settings/route.ts:10-58 | settings stored by PUT are what the next GET returns |
| SettingsRoute.WithSettingsKeepsEmails | app/api/users/settings/route.ts:56-58 | storing settings keeps emails unique |
| SettingsRoute.UpdateSettings | app/api/users/settings/route.ts:37-73 | 401, then 404 for an unknown user; otherwise the validated body is stored on the caller and returned, and nothing else changes |
| ProfileRoute.View | app/api/users/profile/route.ts:10-17 | the projection keeps id, role, creation time, profile members and settings |
| ProfileRoute.ViewHidesPassword | app/api/users/profile/route.ts:13-15 | users that differ only in their password project to the same document |
| ProfileRoute.GetProfile | app/api/users/profile/route.ts:5-28 | 401 when getAuthUser fails, 404 for an unknown id, otherwise the caller's projected document |
| ProfileRoute.ProfileUpdate | app/api/users/profile/route.ts:36-45 | a member is in the update exactly when the body sends it and it is whitelisted, with the value sent |
| ProfileRoute.BuildProfileUpdate | app/api/users/profile/route.ts:40-45 | the allowedFields loop builds exactly that update |
| ProfileRoute.UpdateNeverWritesCredentials | app/api/users/profile/route.ts:37 | password, userType, _id and settings can never be written through the profile update |
| ProfileRoute.WithProfile | app/api/users/profile/route.ts:48 | only the caller's profile members named in the update change; an unknown id changes nothing |
| ProfileRoute.WithProfileKeepsEmails | app/api/users/profile/route.ts:48 | an email no other user holds keeps emails unique |
| ProfileRoute.UpdateCanDuplicateEmail | app/api/users/profile/route.ts:36-52 | as written, the route can give two users the same email |
| ProfileRoute.UpdateProfile | app/api/users/profile/route.ts:30-59 | 401, then 404 for an unknown id; an authenticated caller who is found always succeeds, and the caller's document takes the whitelisted members, and the other users, the caller's password, role and settings, and the other collections stay as they were |
| ProfileRoute.UpdateTouchesOnlyWhitelisted | app/api/users/profile/route.ts:40-48 | member by member: whitelisted members sent take the sent value, all others keep theirs |
| ChangePasswordRoute.DecideChangePassword | app/api/users/change-password/route.ts:6-35 | the guards in the route's order: 401; 400 when either password is missing; 400 when the new one is shorter than 8; 404 for an unknown user; 400 when the current password does not match; a request that passes every check always succeeds, with the hash of the new password |
| ChangePasswordRoute.WithPassword | app/api/users/change-password/route.ts:38 | only the caller's stored password changes; an unknown id changes nothing |
| ChangePasswordRoute.WithPasswordKeepsEmails | app/api/users/change-password/route.ts:38 | replacing a password keeps emails unique |
| ChangePasswordRoute.ChangePassword | app/api/users/change-password/route.ts:6-45 | on success only the caller's password changes, to the decided hash; on failure nothing changes |
| ChangePasswordRoute.LoginAfterChange | app/api/users/change-password/route.ts:29-38 | after a change, logging in with the new password succeeds when bcrypt accepts a password against its own hash |
| Store.Store.constructor | lib/db.ts:141-158 | a fresh database has empty collections and no events, and satisfies the invariants the creating routes keep: one review and one favorite per customer and restaurant, unique emails |
| RestaurantsPage.GetFinds | app/restaurants/page.tsx:21-31 | `searchParams.get` returns a value set under that name, and nothing only when no pair has that name |
| RestaurantsPage.SetRow | app/restaurants/page.tsx:41-49 | one guarded `params.set` adds its pair exactly when its condition holds |
| RestaurantsPage.BuildParams | app/restaurants/page.tsx:39-49 | the nine guarded `set`s build the page's query, one row after another |
| RestaurantsPage.Url | app/restaurants/page.tsx:51-52 | the bare "/restaurants" exactly when no parameter is set, otherwise "/restaurants?" and the query |
| RestaurantsPage.ActiveFilterCountByField | app/restaurants/page.tsx:138 | the badge counts the non-empty cuisine and price filters and the ticked flags, at most 8 |
| RestaurantsPage.ActiveFilterCount | app/restaurants/page.tsx:138 | the badge number is at most 8, the number of filter values |
| RestaurantsPage.AnyActiveIffCount | app/restaurants/page.tsx:138 | some filter value is truthy exactly when the badge shows a number |
| RestaurantsPage.QueryLength | app/restaurants/page.tsx:39-51 | the URL carries one parameter per set text filter, ticked flag and non-empty search term |
| RestaurantsPage.QueryMatchesBadge | app/restaurants/page.tsx:51-57 | the URL is pushed exactly when it carries a query, so never as the bare page |
| RestaurantsPage.GetParamsUpTo | app/restaurants/page.tsx:39-49 | after the first k `set`s a name holds its value exactly when its row is among them and on |
| RestaurantsPage.ParamsLength | app/restaurants/page.tsx:39-49 | after k rows there is one parameter per row that was on |
| RestaurantsPage.GetQueryParams | app/restaurants/page.tsx:39-49 | every name is set at most once, to the value the page state gives it |
| RestaurantsPage.QueryRoundTrip | app/restaurants/page.tsx:21-49 | reading the pushed URL back gives the same search term and the same filters |
| RestaurantsPage.KeyTextInjective | app/restaurants/page.tsx:41-49 | no two parameters share a name in the URL |
| RestaurantsPage.NarrowStep | app/restaurants/page.tsx:68-110 | each filter step narrows the restaurants that passed the earlier steps to those that also pass this one, keeping their order |
| RestaurantsPage.PassesTextSteps | app/restaurants/page.tsx:68-86 | passing the three text steps is matching the lower-cased search term, the cuisine and the price range |
| RestaurantsPage.PassesFirstFlags | app/restaurants/page.tsx:88-98 | the first three flag steps keep only restaurants with the ticked features |
| RestaurantsPage.PassesLastFlags | app/restaurants/page.tsx:100-110 | the last three flag steps keep only restaurants with the ticked features |
| RestaurantsPage.PassesAllMatches | app/restaurants/page.tsx:65-110 | passing all nine steps is meeting every condition that is on |
| RestaurantsPage.PipelineMatches | app/restaurants/page.tsx:65-112 | what the nine steps leave is exactly the matching restaurants, in the fetched order |
| RestaurantsPage.Narrow | app/restaurants/page.tsx:68-110 | one step `if (on) results = results.filter(keep)` moves from k passed steps to k + 1 |
| RestaurantsPage.ApplyFilters | app/restaurants/page.tsx:61-113 | the filter effect lists exactly the fetched restaurants that meet every condition, in fetched order |
| RestaurantsPage.ClearedShowsAll | app/restaurants/page.tsx:119-132 | after clearFilters every fetched restaurant is listed, no badge is shown, and the URL is the bare page |
| RestaurantsPage.CuisinesSortedDistinct | app/restaurants/page.tsx:135 | the sorted distinct cuisines are in order, each once, and are exactly the cuisines of the list |
| RestaurantsPage.Cuisines | app/restaurants/page.tsx:135 | the cuisine menu lists each fetched cuisine once, sorted, and nothing else; none before the list arrives |
| Activity.ToActivity | components/real-time-activity.tsx:24-31 | an activity keeps the notification's id, type, title, data and time, with the message as its description |
| Activity.Activities | components/real-time-activity.tsx:23-34 | the card shows the first ten notifications, in order, each as its activity |
| Activity.ActivitiesAfterPrepend | components/real-time-activity.tsx:23-34 | a newly arrived notification becomes the first activity and pushes the others down one place |
| Activity.ActivityIcon | components/real-time-activity.tsx:36-47 | calendar for "reservation", star for "review", user for "message", clock for anything else |
| Activity.ActivityBadge | components/real-time-activity.tsx:49-76 | Reservation, Review or Message for those three types, System for anything else |
| Activity.IconMatchesBadge | components/real-time-activity.tsx:36-76 | the clock icon goes with the System badge and with nothing else |
| Avatar.FirstChar | components/user-avatar.tsx:14 | `n[0]` of a word: its first letter, or nothing for an empty word |
| Avatar.MapFirst | components/user-avatar.tsx:13-14 | one first letter per piece of the split name |
| Avatar.Words | components/user-avatar.tsx:13 | the non-empty pieces of the name, none holding a space |
| Avatar.JoinFirstChars | components/user-avatar.tsx:13-15 | joining the first letters skips the empty pieces, so it gives the first letter of each word |
| Avatar.InitialsAreFirstLetters | components/user-avatar.tsx:11-18 | at most two characters: the upper-cased first letters of the first two words, and "U" for a missing or empty name |
| Avatar.Initials | components/user-avatar.tsx:11-18 | at most two characters, and "U" for a missing or empty name |
| Avatar.BlankNameHasNoInitials | components/user-avatar.tsx:11-18 | a name of spaces only shows no initials at all, not "U" |
| Avatar.FirstAndLastName | components/user-avatar.tsx:11-18 | a first and a last name show their two upper-cased initials |
| Breadcrumb.DashesToSpaces | components/breadcrumb.tsx:48 | every dash becomes a space, every other character is kept |
| Breadcrumb.MapCapitalize | components/breadcrumb.tsx:50-53 | each word has its first character upper-cased |
| Breadcrumb.CapitalizePiecesIsTitleCase | components/breadcrumb.tsx:50-53 | split, capitalise and join is the same as upper-casing each letter at the start or after a space |
| Breadcrumb.CapitalizeWordsIsTitleCase | components/breadcrumb.tsx:50-53 | the same for the whole label |
| Breadcrumb.CapitalizeWords | components/breadcrumb.tsx:50-53 | the capitalised label is the segment text with each letter at the start or after a space upper-cased |
| Breadcrumb.Label | components/breadcrumb.tsx:48-54 | a label has the segment's length and shows every dash as a space, capitalised or not |
| Breadcrumb.LabelLetters | components/breadcrumb.tsx:48-54 | a label has the segment's length; dashes become spaces, and a letter at the start or after a dash or space is upper-cased |
| Breadcrumb.Segments | components/breadcrumb.tsx:27 | the segments are non-empty and hold no '/' |
| Breadcrumb.Crumbs | components/breadcrumb.tsx:43-72 | one crumb per segment: its label, the link to the path up to it, and only the last one is plain text |
| Breadcrumb.HrefExtends | components/breadcrumb.tsx:45 | each crumb's link continues the previous one's |
| Breadcrumb.Href | components/breadcrumb.tsx:45 | a crumb's link starts with "/" |
| Breadcrumb.HrefSplitsBack | components/breadcrumb.tsx:45 | the link of the i-th crumb names exactly the first i + 1 segments |
| Breadcrumb.SplitJoin | components/breadcrumb.tsx:27 | splitting a joined path gives back its segments |
| Breadcrumb.CleanPathname | components/breadcrumb.tsx:27-45 | a path without empty segments gives back its own segments, and the last crumb links to the path itself |
| Breadcrumb.DashedLabel | components/breadcrumb.tsx:48-54 | "new-item" shows as "New Item" |
| Notifications.MarkRead | context/socket-context.tsx:166-170 | the notifications with that id are marked read, every other one is unchanged, and the order is kept |
| Notifications.NotificationCenter.constructor | context/socket-context.tsx:38-40 | no notifications and not connected |
| Notifications.NotificationCenter.SetConnected | context/socket-context.tsx:66-79 | the connect, disconnect and connect_error listeners only set the connection flag |
| Notifications.NotificationCenter.OnNotification | context/socket-context.tsx:82-90 | the event becomes an unread notification put first, with the generated id and the current time |
| Notifications.NotificationCenter.OnNewReservation | context/socket-context.tsx:100-111 | an unread "New Reservation" for the guests and the date is put first |
| Notifications.NotificationCenter.OnReservationUpdated | context/socket-context.tsx:119-130 | an unread "Reservation Updated" naming the new status is put first |
| Notifications.NotificationCenter.OnNewReview | context/socket-context.tsx:138-149 | an unread "New Review" naming the rating is put first |
| Notifications.NotificationCenter.MarkNotificationAsRead | context/socket-context.tsx:166-170 | the list becomes the marked one and the connection flag stays |
| Notifications.NotificationCenter.ClearNotifications | context/socket-context.tsx:173-175 | the list becomes empty, so no unread badge is left, and the connection flag stays |
| Notifications.UnreadAfterPrepend | components/notifications.tsx:23 | a new notification adds one to the unread badge when it is unread, and the badge never exceeds the list |
| Notifications.UnreadAfterMark | components/notifications.tsx:23-26 | marking lowers the unread badge by the unread notifications with that id, which are read afterwards |
| Notifications.UnreadCount | components/notifications.tsx:23 | the badge number is at most the number of notifications, and 0 exactly when all are read |
| Notifications.MarkReadIdempotent | context/socket-context.tsx:166-170 | marking the same id twice is marking it once |
| Notifications.NavigationTarget | components/notifications.tsx:29-36 | a reservation with a restaurant opens that reservation, a review with a restaurant opens its reviews tab, a message opens the messages page, anything else goes nowhere |
| Notifications.NotificationsMenu.constructor | components/notifications.tsx:21 | the dropdown starts closed |
| Notifications.NotificationsMenu.SetOpen | components/notifications.tsx:21 | the dropdown is open exactly as set |
| Notifications.HandleNotificationClick | components/notifications.tsx:25-37 | a click marks the notification read, leaves the connection flag, closes the dropdown and navigates to its target |
| Notifications.Elapsed | components/notifications.tsx:39-61 | under a minute is "just now", under an hour whole minutes, under a day whole hours, else the date, each count rounded down |
| Notifications.FormatTime | components/notifications.tsx:39-62 | the text of each of those four cases |
| Notifications.FormatTimeMinutes | components/notifications.tsx:49-52 | "1 minute ago" from one minute to just under two, then "2 minutes ago" |
| DashboardLayout.NavLinks | app/dashboard/layout.tsx:51-75 | the three common links first, then the two customer links for a customer and the four restaurant links for anyone else, including a missing user |
| DashboardLayout.IsActive | app/dashboard/layout.tsx:43-48 | the dashboard home is highlighted only on its own path, every other link on its whole subtree |
| DashboardLayout.HomeLinkFirst | app/dashboard/layout.tsx:43-56 | every user gets the home link first, highlighted on the home page and not on a sub-page |
| DashboardLayout.NotActiveAt | app/dashboard/layout.tsx:47 | a link is not highlighted on a path that differs from it at a position both have |
| DashboardLayout.Apart | app/dashboard/layout.tsx:47 | two links that differ at a shared position are never highlighted together |
| DashboardLayout.HomeExcludesSubLinks | app/dashboard/layout.tsx:43-48 | the home link and a sub-link are never highlighted together |
| DashboardLayout.SubLinksApart | app/dashboard/layout.tsx:52-68 | no two sub-links of one list are highlighted together |
| DashboardLayout.AtMostOneActive | app/dashboard/layout.tsx:43-77 | whatever the page and the user type, at most one sidebar link is highlighted |
| DashboardLayout.MenuSubpageHighlight | app/dashboard/layout.tsx:43-68 | on a menu sub-page an owner sees Menu Management highlighted and neither neighbour |
| DashboardLayout.ReviewsLinkLabels | app/dashboard/layout.tsx:58-74 | the reviews link is "My Reviews" for customers and "Reviews" for everyone else |
| DashboardLayout.LoginRedirect | app/dashboard/layout.tsx:31-35 | the layout sends the visitor to /login only when both the user and the token are missing |
| DashboardLayout.LoginRedirectUnderAuthContext | app/dashboard/layout.tsx:19-35 | fed from the auth context, whose `token` is always undefined, the layout redirects exactly when there is no session |
| Navbar.IsActive | components/navbar.tsx:28-33 | "/" is highlighted only on the home page, any other link on its whole subtree |
| Navbar.AuthButtons | components/navbar.tsx:62-78 | a signed-in user gets Dashboard and Log Out, a visitor Log In and Sign Up; each link button is highlighted exactly on its subtree |
| Navbar.DashboardSubpage | components/navbar.tsx:65 | the Dashboard button stays highlighted on a dashboard sub-page |
| Navbar.NotActiveAt | components/navbar.tsx:28-33 | a link is not highlighted on a path that differs from it at a position both have |
| Navbar.AtMostOneNavLink | components/navbar.tsx:36-57 | no page highlights two of the three header links |
| Navbar.AtMostOneButton | components/navbar.tsx:62-78 | at most one button of the right-hand group is highlighted on any page |
| MenuPage.PageAccess | app/dashboard/menu/page.tsx:26-64 | /login without a user or token, /dashboard for a non-owner, a load failure when the fetch throws, the first owned restaurant when there is one, else the restaurant-profile page |
| MenuPage.OwnerManages | app/dashboard/menu/page.tsx:41-46 | an owner whose restaurant is in the fetched list manages it |
| MenuPage.SortedCategories | app/dashboard/menu/page.tsx:133 | the categories shown are a permutation of the menu's, in ascending order, and none without a menu |
| MenuPage.SortedMenuUnchanged | app/dashboard/menu/page.tsx:133 | a menu already in order is shown as it is |
| MenuPage.AddItemRoute | app/dashboard/menu/page.tsx:80-82 | the add-item route extends the category's edit route with "/items/new" |
| MenuPage.EditItemRoute | app/dashboard/menu/page.tsx:84-86 | the edit-item route extends the category's edit route with "/items/" and the item id |
| MenuPage.RoutesInjective | app/dashboard/menu/page.tsx:76-86 | different categories, or items, give different edit routes when category ids hold no '/' |
| MenuPage.SlashAt | app/dashboard/menu/page.tsx:84-86 | in an item route the first '/' after the prefix ends the category id |
| MenuPage.NewCategoryRouteClash | app/dashboard/menu/page.tsx:72-78 | a category whose id is "new" would get the add-category page as its edit route |
| MenuPage.DietaryBadges | app/dashboard/menu/page.tsx:88-108 | V, VG and GF appear exactly when the item is vegetarian, vegan and gluten-free, and nothing else appears |
| MenuPage.BadgesDistinct | app/dashboard/menu/page.tsx:88-108 | no badge is shown twice |
| ReviewList.TabView | components/review-list.tsx:84-109 | the four sort tabs re-sort, the three status tabs filter on their status, any other tab keeps the list |
| ReviewList.FilteredReviews | components/review-list.tsx:81-112 | the tab shows only fetched reviews; a sort tab shows all of them, each as often; any other tab shows the list as fetched |
| ReviewList.FilteredReviewsAsWritten | components/review-list.tsx:56-114 | as written, the tab's reviews throw exactly when the answer is null, because `= []` replaces only undefined; otherwise they are the tab's view |
| ReviewList.FirstRenderThrows | components/review-list.tsx:56-114 | on the first render every tab throws |
| ReviewList.ShownReviews | components/review-list.tsx:56-114 | corrected with `?? []`: no reviews before the answer; after it, only fetched reviews, and all of them on a sort tab |
| ReviewList.ShownAgreesOnceLoaded | components/review-list.tsx:56-114 | the as-written and corrected views differ only on the null before the answer |
| ReviewList.SortTabNames | components/review-list.tsx:85-96 | recent, highest, lowest and helpful name their orders |
| ReviewList.StatusTabNames | components/review-list.tsx:97-105 | pending, approved and rejected name their statuses |
| ReviewList.SortedShow | components/review-list.tsx:82-96 | a sort tab shows a permutation of the reviews sorted by its order |
| ReviewList.HighestTab | components/review-list.tsx:88-90 | the highest tab shows every review, by rating from high to low |
| ReviewList.LowestTab | components/review-list.tsx:91-93 | the lowest tab shows every review, by rating from low to high |
| ReviewList.HelpfulTab | components/review-list.tsx:94-96 | the helpful tab shows every review, most helpful first |
| ReviewList.RecentTab | components/review-list.tsx:85-87 | the recent tab shows every review, newest first |
| ReviewList.StatusTab | components/review-list.tsx:97-105 | a status tab shows exactly the reviews with that status, in fetched order |
| ReviewList.StatusCountsAddUp | components/review-list.tsx:97-105 | every review has exactly one of the three statuses |
| ReviewList.StatusTabsPartition | components/review-list.tsx:97-105 | the three status tabs together show each review exactly once |
| ReviewList.OtherTab | components/review-list.tsx:106-108 | any other tab, "all" included, shows the reviews as fetched |
| ReviewList.ToggleSortOrder | components/review-list.tsx:124-126 | "asc" becomes "desc" and anything else becomes "asc" |
| ReviewList.ToggleTwice | components/review-list.tsx:124-126 | toggling twice restores the order, and the order is always asc or desc afterwards |
| ReviewList.StatusParam | components/review-list.tsx:62 | the status parameter is empty for the owner and "approved" for everyone else |
| ReviewList.ReviewsUrl | components/review-list.tsx:62 | the fetch URL is the reviews API followed by the restaurant, the status, the sort key and the sort order parameters, in that order |
| ReviewList.StatusReachesServer | components/review-list.tsx:62 | whatever the component's owner flag, the server shows only approved reviews unless it recognises the owner itself |
| ReviewList.ReportSubmit | components/review-list.tsx:148-153 | a report is sent exactly when a review is selected and the reason is not blank, with the reason as typed |
| ReviewList.ReplyClick | components/review-list.tsx:164-167 | starting a reply targets the review and prefills its existing reply, or nothing |
| ReviewList.ReplySubmit | components/review-list.tsx:169-177 | a reply is sent exactly when there is a target and the text is not blank; then the draft is cleared, otherwise it is kept |
| ReviewList.ResubmitExistingReply | components/review-list.tsx:164-177 | submitting an existing reply unchanged sends it again, unless it is blank |
| UseApi.FailureMessage | hooks/use-api.ts:73-76 | a failed answer reports the body's error text, or "Request failed with status" and the status when there is none |
| UseApi.Initial | hooks/use-api.ts:25-26 | before the first fetch has settled, `data` and `error` are null |
| UseApi.Fetch | hooks/use-api.ts:25-101 | a fetch that needs authentication without a user or a token settles on null data and "Authentication required"; data is set exactly when the request is made and answered 2xx, and then to the raw answer with no error; a failed answer sets its failure message |
| UseApi.AuthRequiredNeverLoads | hooks/use-api.ts:28-39 | under the auth context, which has no `token`, every fetch that needs authentication settles on "Authentication required" with null data, and `onSuccess` never runs |
| DashboardPage.RestaurantNeverLoads | app/dashboard/page.tsx:24-42 | the restaurant fetch requires authentication and the auth context has no token, so `restaurant` stays null and the onSuccess redirect never runs |
| DashboardPage.ProfileRedirectAsWritten | app/dashboard/page.tsx:30-38 | as written, an owner is sent to /dashboard/restaurant-profile exactly when the answer it is given is null or empty, whichever restaurants the answer holds |
| DashboardPage.OwnedRestaurant | app/dashboard/page.tsx:28-40 | the restaurant shown is one of the fetched ones that the user owns, and there is none exactly when the user owns none of them |
| DashboardPage.ProfileRedirect | app/dashboard/page.tsx:30-38 | an owner is sent to /dashboard/restaurant-profile exactly when they own none of the fetched restaurants |
| DashboardPage.FirstListedIsNotOwned | app/dashboard/page.tsx:30-38 | when only another owner's restaurant is stored, the code as written sends no redirect; the corrected version sends it |
| DashboardPage.ReviewsUrlAsWritten | app/dashboard/page.tsx:51-57 | as written, any answer gives "/api/reviews?restaurantId=undefined", because the answer is an array without `_id`; a null answer gives the empty URL |
| DashboardPage.ReviewsUrlIgnoresAnswer | app/dashboard/page.tsx:52 | as written, every answer gives the same reviews URL |
| DashboardPage.ReviewsUrl | app/dashboard/page.tsx:51-57 | the corrected URL names the owner's restaurant by its id, and is empty while none is known |
| DashboardPage.ReviewsUrlDistinguishes | app/dashboard/page.tsx:52 | restaurants with different ids get different corrected reviews URLs |
| DashboardPage.PendingAndConfirmedBounded | app/dashboard/page.tsx:66-67 | the pending and confirmed cards add up to at most the total, and to the total exactly when nothing is cancelled |
| DashboardPage.CancelledComplement | app/dashboard/page.tsx:66-67 | pending, confirmed and cancelled reservations add up to the total |
| DashboardPage.PendingCount | app/dashboard/page.tsx:66 | the pending card is at most the total, and 0 exactly when no reservation is pending |
| DashboardPage.ConfirmedCount | app/dashboard/page.tsx:67 | the confirmed card is at most the total, and 0 exactly when none is confirmed |
| DashboardPage.CardsAsWritten | app/dashboard/page.tsx:45-67 | as written, the reservation cards throw exactly when the answer is null, because `= []` replaces only undefined; otherwise they are the pending and confirmed counts |
| DashboardPage.FirstRenderThrows | app/dashboard/page.tsx:45-67 | the first render sees the hook's initial null, so the cards throw |
| DashboardPage.CardsOf | app/dashboard/page.tsx:45-67 | corrected with `?? []`: zero and zero before the answer, and pending plus confirmed never exceeds the total |
| DashboardPage.CardsAgreeOnceLoaded | app/dashboard/page.tsx:45-67 | the as-written and corrected cards differ only on the null before the answer |
| DashboardPage.AverageRating | app/dashboard/page.tsx:69-71 | "N/A" (none) exactly when there are no reviews |
| DashboardPage.TimesIsProduct | app/dashboard/page.tsx:70 | adding up k copies of x gives k times x |
| DashboardPage.RatingSum | app/dashboard/page.tsx:70 | the sum of non-negative ratings is non-negative |
| DashboardPage.RatingSumBounds | app/dashboard/page.tsx:70 | if every rating lies between two bounds, the sum lies between the count times each bound |
| DashboardPage.MeanBounds | app/dashboard/page.tsx:70 | dividing by a positive count keeps both bounds |
| DashboardPage.AverageWithinBounds | app/dashboard/page.tsx:69-71 | the average lies within any bounds of the ratings, so ratings of 1 to 5 stars average 1 to 5 |
| DashboardPage.MyReviewCountAsWritten | app/dashboard/page.tsx:200 | as written, the card counts the reviews whose customerId equals the user's `_id` member |
| DashboardPage.MyReviewsAlwaysZero | app/dashboard/page.tsx:200 | as written, the card shows 0 for every signed-in user, because the context user has no `_id` member |
| DashboardPage.MyReviewCount | app/dashboard/page.tsx:200 | the count of the user's own reviews is at most the total, and 0 exactly when the user wrote none |
| DashboardPage.RecentReservations | app/dashboard/page.tsx:236 | the first five reservations, or all when there are fewer, in the order received |
| ProfilePage.EmptyPasswords | app/dashboard/profile/page.tsx:38-42 | the three password fields, all empty |
| ProfilePage.Reason | app/dashboard/profile/page.tsx:218 | the server's message when it has one, else the fallback |
| ProfilePage.Outcome | app/dashboard/profile/page.tsx:190-227 | a success gives the success text and no error; a failure gives the reason and no success text; with a non-empty fallback, the error is empty exactly on success |
| ProfilePage.PasswordGuard | app/dashboard/profile/page.tsx:235-243 | the mismatch message exactly when the confirmation differs, the length message exactly when it matches but is shorter than 8, and nothing when the request may be sent |
| ProfilePage.AsJson | app/dashboard/profile/page.tsx:203 | the JSON body has the members of the form, each as a string |
| ProfilePage.ProfileForm.constructor | app/dashboard/profile/page.tsx:30-75 | empty profile and password fields, the default settings and no messages |
| ProfilePage.ProfileForm.HandleProfileChange | app/dashboard/profile/page.tsx:146-149 | the named field takes the value; every other field and all other state are unchanged |
| ProfilePage.ProfileForm.HandlePasswordChange | app/dashboard/profile/page.tsx:151-154 | the named password field takes the value; nothing else changes |
| ProfilePage.ProfileForm.HandleProfileImageChange | app/dashboard/profile/page.tsx:156-158 | only the profile image changes |
| ProfilePage.ProfileForm.HandleNotificationChange | app/dashboard/profile/page.tsx:160-168 | one notification switch takes the value; the other switches and sections are unchanged |
| ProfilePage.ProfileForm.HandlePrivacyChange | app/dashboard/profile/page.tsx:170-178 | one privacy member takes the value; nothing else changes |
| ProfilePage.ProfileForm.HandlePersonalizationChange | app/dashboard/profile/page.tsx:180-188 | one personalization member takes the value; nothing else changes |
| ProfilePage.ProfileForm.SaveProfile | app/dashboard/profile/page.tsx:190-227 | the whole profile form is sent, and the profile messages become the outcome; the forms are unchanged |
| ProfilePage.ProfileForm.ChangePassword | app/dashboard/profile/page.tsx:229-286 | a failed guard shows its message and sends nothing; otherwise the current and new passwords are sent, a success empties the form and a failure keeps it |
| ProfilePage.ProfileForm.SaveSettings | app/dashboard/profile/page.tsx:288-326 | the settings are sent; a success replaces them with the server's settings and a failure keeps them |
| ProfilePage.SentPasswordLongEnough | app/dashboard/profile/page.tsx:240-260 | a request the page lets through never gets the route's "too short" answer |
| ProfilePage.SameMinimumLength | app/dashboard/profile/page.tsx:240 | a confirmed password passes the page exactly when it meets the route's minimum length |
| ProfilePage.EmptiedFormBlocked | app/dashboard/profile/page.tsx:265-270 | after a success, the emptied form fails the length check |
| ProfilePage.ProfileFieldsAllWritten | app/dashboard/profile/page.tsx:203 | every field the page sends is one the profile route writes, with the value sent |
| ProfilePage.InitialSettingsAreDefaults | app/dashboard/profile/page.tsx:44-66 | the starting settings are the route's restaurant defaults, which validation keeps unchanged |
| ReviewForm.SubmitGuard | components/review-form.tsx:42-58 | "Rating Required" exactly when there is no rating; "Comment Required" exactly when a rated comment is all whitespace; nothing exactly when the review may be posted |
| ReviewForm.WithoutIndex | components/review-form.tsx:35-37 | a valid index drops one photo; any other index keeps the list |
| ReviewForm.WithoutIndexKeepsOrder | components/review-form.tsx:36 | the photos before the index keep their places, the later ones move up one, and exactly the removed photo is missing |
| ReviewForm.UploadThenRemove | components/review-form.tsx:31-37 | removing the photo just uploaded restores the previous list |
| ReviewForm.UploadOffered | components/review-form.tsx:160 | the upload control is shown exactly while fewer than three photos are attached |
| ReviewForm.ReviewFormState.constructor | components/review-form.tsx:20-23 | no rating, an empty comment and no photos |
| ReviewForm.ReviewFormState.HandleRatingClick | components/review-form.tsx:27-29 | the rating takes the clicked star; nothing else changes |
| ReviewForm.ReviewFormState.HandleCommentChange | components/review-form.tsx:132 | the comment takes the typed text; nothing else changes |
| ReviewForm.ReviewFormState.HandleImageUpload | components/review-form.tsx:31-33 | the new URL is appended to the photos |
| ReviewForm.ReviewFormState.HandleImageRemove | components/review-form.tsx:35-37 | the photos become the list without the one at the index |
| ReviewForm.ReviewFormState.HandleSubmit | components/review-form.tsx:39-94 | a failed guard shows its toast and posts nothing; otherwise the review is posted, a success resets the form and calls the `onSuccess` callback when one is given, and a failure shows the reason, keeps the form and calls nothing |
| ReviewForm.PostedReviewPassesRouteChecks | components/review-form.tsx:42-68 | a review the form posts has every field the route requires and a rating from 1 to 5 |
| ReviewForm.RouteRejectionShown | components/review-form.tsx:63-90 | once the status is checked, every rejection the reviews route can give is shown as a failure |
| AuthContext.ContextUser | context/auth-context.tsx:8-47 | the user object has exactly the members id, name, email, userType and image, with the session's id, and the user type defaults to "customer" |
| AuthContext.UseAuth | context/auth-context.tsx:135-148 | the provided value has exactly the members user, isLoading, login, register, googleSignIn and logout; the user is present exactly with a session, and is the object built from it |
| AuthContext.TokenAndUnderscoreIdUndefined | context/auth-context.tsx:135-139 | reading `token` from the context, or `_id` from its user, gives undefined; the user's id is its `id` member |
| MenuPage.PageAccessAsWritten | app/dashboard/menu/page.tsx:19-55 | as written, the visitor is sent to /login exactly when the context has no user or no truthy `token`, and a managed restaurant's owner equals the user's `_id` |
| MenuPage.MenuAlwaysSendsToLogin | app/dashboard/menu/page.tsx:19-31 | as written, every visitor, a signed-in owner included, is sent to /login |
| MenuPage.UnderscoreIdMatchesNoOwner | app/dashboard/menu/page.tsx:43 | as written, a user without an `_id` member never manages a menu |
| MenuPage.SessionOf | context/auth-context.tsx:41-47 | the owner the corrected effect sees has the context user's `id` and `userType` |
| Notifications.SocketToken | context/socket-context.tsx:45-63 | a socket is opened, with the token as its credential, exactly for a signed-in user who has a token |
| Notifications.TextOf | context/socket-context.tsx:41 | a context member holds a non-empty token exactly when it is a truthy string |
| Notifications.SocketTokenAsWritten | context/socket-context.tsx:41-63 | as written, a socket is opened only when the context's `token` member is truthy |
| Notifications.SocketNeverOpens | context/socket-context.tsx:41-63 | as written, no socket is ever opened, whatever the session |


## Left out

- MongoDB access (`connectToDatabase`, its connection cache, ObjectId parsing) is I/O. The collections are sequences in `Store.Store`, and ids are opaque strings.
- bcrypt and JWT are uninterpreted functions. Nothing is assumed about them beyond what a lemma states as its precondition.
- The Socket.IO server and rooms, and the socket's connect, reconnect and disconnect lifecycle, are network plumbing. Only the emitted-event log and the client's notification list are modelled.
- Clocks, `uuidv4`, `Math.random` and `toLocaleDateString` are parameters. `formatTime` takes the elapsed milliseconds and the date text.
- Toast styling, JSX rendering, loading spinners and the `isSubmitting`, `isSaving` and `isLoading` flags are presentation only.
- The dashboard's average rating is computed as an exact real. Floating-point rounding and `toFixed(1)` are not modelled.
- URL encoding of query parameters is not modelled; parameters are kept as name and value pairs.
- Case mapping and trimming cover ASCII only; Unicode case folding is not modelled.
- `getCurrentUser` (lib/auth.ts:94-121) is a session lookup against the database and is not part of this model.
- hooks/use-api.ts is modelled only up to the `data` and `error` one fetch settles on and whether `onSuccess` runs (`UseApi`). The request headers and body, the toast, the `onError` call, the loading flag, `refetch` and re-fetching when the URL changes are not modelled.
- The network part of `fetchWithAuth` is not modelled: only its headers and its treatment of the answer are. The same holds for the localStorage token and the redirect on 401.
- The profile page's `fetchUserProfile` and `fetchUserSettings` effects and its theme effect are not modelled. The form starts from the initial state and takes the server's answers as parameters.
- The review form's hovered star only changes the display and is not modelled.
- ReviewForm.ReviewFormState.HandleRatingClick: requires a value from 1 to 5, because only the five star buttons call it.
- ReviewForm.ReviewFormState.HandleImageUpload: requires that the upload control is shown (fewer than three photos), because the control is the only caller.
- ReviewForm.ReviewFormState.HandleSubmit: uses the corrected `postWithAuth` (`ApiUtils.PostWithAuthChecked`), so a rejected review is shown as a failure; the code as written is covered by the findings.
- The dashboard's "Upcoming Reservations" card parses dates against the clock and is not modelled.
- ReviewsRoute.DecideCreateReview: takes `rating` as a JSON number. A rating sent as a string is truthy, is compared with 1 and 5 after JavaScript's conversion, and is stored as `Number(rating)` (app/api/reviews/route.ts:151). So "3" is stored as the number 3, "0" gets the 400 "Rating must be between 1 and 5", and "abc" passes both checks and is stored as NaN. These string cases are not modelled.
- ReservationsRoute.DecideCreateReservation: takes `guests` as a JSON number. A count sent as a string is truthy and passes the presence check, then `Number(guests)` converts it (possibly to NaN); those cases are not modelled. The route stores `new Date(date)` (app/api/reservations/route.ts:124), while the model stores the sent date text; so a date that does not parse, stored there as an Invalid Date, is not modelled.
- Every route that reads a body takes it as already parsed JSON. A body that is not JSON makes `request.json()` throw; the handler's catch then answers with the parse error's message and status 500. The direct catch does this in the reviews (app/api/reviews/route.ts:115), reservations (app/api/reservations/route.ts:101), favorites (app/api/favorites/route.ts:65) and restaurants (app/api/restaurants/route.ts:80) routes. The user routes do it through `handleApiError` (app/api/users/settings/route.ts:41, app/api/users/profile/route.ts:34, app/api/users/change-password/route.ts:10). None of these answers is modelled.
- Ids are opaque strings, so `toObjectId` (lib/db.ts:160-161) never fails in the model. In the code, `new ObjectId(id)` throws on text that is not a valid id: a review POST with restaurantId "xyz" answers 500 with the BSON message where `ReviewsRoute.DecideCreateReview` answers 404. This applies to every route that converts a request's id, and is not modelled.
- Strings are sequences of characters, while JavaScript's `.length` and `substring` count UTF-16 code units. For text with characters outside the Basic Multilingual Plane, the model therefore differs in three places: the 8-character password minimum (app/api/users/change-password/route.ts:17, app/dashboard/profile/page.tsx:240) and the avatar's `substring(0, 2)` (components/user-avatar.tsx:18). There the model counts characters and the code counts code units; this difference is not modelled.
- The first-render crash of the dashboard page and the review list is a finding. `useApi`'s data starts as null (hooks/use-api.ts:25), `= []` replaces only undefined, and `reservations.filter` (app/dashboard/page.tsx:66) and `[...reviews]` (components/review-list.tsx:82, called at :114) run before any early return. So the first render throws, and the fetch effect never runs. The other `DashboardPage` and `ReviewList` members take the lists as given, which assumes the `?? []` correction. So do the findings on app/dashboard/page.tsx lines 30-38, 52 and 200: that code is reached only once this crash is corrected. React's render and commit cycle itself is not modelled; that a throwing render runs no effects is stated in prose only.
- The review list's `onSuccess` converts the dates of each review, but `useApi` drops what `onSuccess` returns, so the conversion has no effect and is not modelled.
- Review moderation, helpful votes, reports, reply storage, reservation updates and deletion, and rating recomputation have no handlers among the modelled routes. The review list's report and reply submits are modelled only up to the request they send.
- The restaurants page's `handleFilterChange` and its rendering are not modelled; the filter state is an input of the pipeline.
- The other pages that read `user._id` or the context's `token` (the restaurant detail page, the restaurant-profile page and the menu category and item forms) are not part of this model; they share the problem of the second and third findings.
- Signing in, registering and signing out through the auth context (`login`, `register`, `googleSignIn`, `logout`) are next-auth calls and are not modelled. Only the user object and the value the provider gives the pages are modelled.
- The login and register API routes are thin wrappers over `loginUser` and `registerUser`, which are modelled.
- The upload route's disk write is I/O; its validation is `UploadUtils.ValidateFile`.

## Findings

| source | as written | input that shows it | evidently intended | confidence | as-written member | corrected member |
|---|---|---|---|---|---|---|
| lib/api-utils.ts:116-122 | `postWithAuth` returns the parsed body whatever the status; only a 401 rejects | the reviews route's answer 400 "You have already reviewed this restaurant" to a second review of the same restaurant | a non-2xx answer rejects with its error, so the review form shows "Submission Failed" | not executed | ApiUtils.PostWithAuth, ApiUtils.DuplicateReviewResolves | ApiUtils.PostWithAuthChecked, ApiUtils.CheckedDiffersOnRejections, ReviewForm.RouteRejectionShown |
| app/dashboard/menu/page.tsx:19-43 | the page reads `token` from the auth context and compares owners with `user._id`; the context has neither member | any signed-in restaurant owner opening the menu page | the owner's session counts as signed in, and the owned restaurant is found by the user's `id` | not executed | MenuPage.PageAccessAsWritten, MenuPage.MenuAlwaysSendsToLogin, MenuPage.UnderscoreIdMatchesNoOwner | MenuPage.PageAccess, MenuPage.OwnerManages |
| app/dashboard/page.tsx:200 | "My Reviews" counts reviews whose customerId equals `user._id`, which the context user lacks | a signed-in customer who has written one review | the count of reviews whose customerId is the user's `id` | not executed | DashboardPage.MyReviewCountAsWritten, DashboardPage.MyReviewsAlwaysZero | DashboardPage.MyReviewCount |
| context/socket-context.tsx:41-63 | the socket is opened only when the auth context's `token` member is truthy, and the context has no such member | any signed-in user | a socket is opened for a signed-in user with a token | not executed | Notifications.SocketTokenAsWritten, Notifications.SocketNeverOpens | Notifications.SocketToken |
| app/dashboard/page.tsx:30-38 | the redirect to create a profile fires when the answer (every stored restaurant) is null or empty, not when the user owns none of them; besides, under the auth context this `onSuccess` never runs (hooks/use-api.ts:37-39) | a restaurant owner with no restaurant, with the list [another owner's restaurant] | the owner is sent to /dashboard/restaurant-profile exactly when they own none of the fetched restaurants | not executed | DashboardPage.ProfileRedirectAsWritten, DashboardPage.FirstListedIsNotOwned, DashboardPage.RestaurantNeverLoads | DashboardPage.OwnedRestaurant, DashboardPage.ProfileRedirect |
| app/dashboard/page.tsx:52 | the reviews URL uses `restaurant._id`, but `restaurant` holds the raw answer, an array with no `_id` | any non-null answer, e.g. [a restaurant with id "r1"] | the reviews of the owner's restaurant, by its id | not executed | DashboardPage.ReviewsUrlAsWritten, DashboardPage.ReviewsUrlIgnoresAnswer | DashboardPage.ReviewsUrl, DashboardPage.ReviewsUrlDistinguishes |
| app/dashboard/page.tsx:45-67 | `data: reservations = []` leaves the hook's initial null in place, and `reservations.filter` throws on the first render; the review list's `[...reviews]` (components/review-list.tsx:56-114) does the same | the first render, whose data is null before any fetch | the lists default to [] when the data is null, so the page renders and its fetch starts | not executed | DashboardPage.CardsAsWritten, DashboardPage.FirstRenderThrows, ReviewList.FilteredReviewsAsWritten, ReviewList.FirstRenderThrows | DashboardPage.CardsOf, DashboardPage.CardsAgreeOnceLoaded, ReviewList.ShownReviews, ReviewList.ShownAgreesOnceLoaded |
