# AI Recipe Maker — a Dafny model

This project models the AI Recipe Maker application. It has two parts:

- a Next.js front end: its pages, its authentication context and its
  `/api/*` route handlers;
- a FastAPI back end: sign-up and login, JWT handling, the grouped
  inventory, recipe generation, YouTube search, and saving and listing
  recipes.

The model also covers two pieces that join the parts. One is the FastAPI
application's route table, which decides which back-end handler a front-end
request reaches. The other is the inventory seeding script.

All I/O becomes parameters:

- every `fetch` is a `Reply` (an answered status and JSON body, or a thrown
  error);
- every `request.json()` is a `RequestBody`;
- each database query is its rows or the text of the `SQLAlchemyError` it
  raises;
- the model's answer, the YouTube answer, the password hasher, the JWT
  encoder and decoder, the clock and the mail transport are functions or
  values the caller supplies.

JSON values keep their member order, because the inventory tabs and the
grouping depend on it. That order is the order of insertion; JavaScript's
rule that integer-like keys come first is not modelled (see "Left out").

Modules follow the source files. Shared pieces:

- `Wrappers`: `Option` and `Result`.
- `Text`: strings, splitting and joining, trimming, number rendering.
- `Json`: JSON values, with JavaScript property access and truthiness.
- `Http`: replies, headers and the shared `catch` that every route handler
  ends with.
- `Models`: database rows and response models.
- `Fastapi`: `HTTPException`, `str(e)` and the generic `except Exception`
  rewrap.

`EndToEnd` follows requests from a page through its route handler to the
back end and back.

## Model

| member | source | states |
|---|---|---|
| Fastapi.Describe | backend/app/routes/user.py:43-45 | `str(e)` of an `HTTPException` is its status, `": "` and its detail; any other exception gives its own text |
| Fastapi.StatusText | backend/app/routes/user.py:43-45 | a three-digit status renders as its three digits |
| Fastapi.Rewrap | backend/app/routes/user.py:43-45 | the generic handler always answers 500, with its prefix followed by `str(e)` |
| Fastapi.Respond | backend/app/main.py:7-10 | a handler's value is sent with status 200; an `HTTPException` is sent with its status and `{"detail": …}` |
| Models.Nullable | backend/app/models.py:20-24 | a missing nullable column is serialised as `null`, a present one as its text |
| Models.UserOutKeys | backend/app/schemas.py:11-18 | `UserOut` carries exactly `id`, `email`, `name`, `gender`, in that order, and never the password hash |
| Models.UserOutValues | backend/app/schemas.py:11-18 | each `UserOut` field reads back the user's column; a missing gender is `null` |
| BackendAuth.TokenClaims | backend/app/auth.py:14-20 | the payload has `exp` set to the expiry and every other claim unchanged; a new `exp` is appended last |
| BackendAuth.AssignNew | backend/app/auth.py:18 | assigning a key a dictionary lacks appends it at the end |
| BackendAuth.CreateAccessToken | backend/app/auth.py:14-22 | the token is the encoder's output for the claims plus `exp`; an encoder failure becomes 500 `Token creation failed: …` |
| BackendAuth.DecodeAccessToken | backend/app/auth.py:25-32 | the result is `None` exactly when decoding fails, and otherwise the decoded payload |
| BackendAuth.UserClaim | backend/app/auth.py:46 | the claim is present exactly when the payload exists and its `user_id` is present and not `null` |
| BackendAuth.FindById | backend/app/auth.py:51 | the result is absent exactly when no user has the id; otherwise it is the first user with that id |
| BackendAuth.ClaimedUser | backend/app/auth.py:49-51 | only an integer claim can match a user's id |
| BackendAuth.GetCurrentUser | backend/app/auth.py:43-63 | a token without a usable `user_id` gives 401, a query failure 500 `Database error: …`, an unknown id 404; on success the result is a table row whose id the token claims; no other status occurs |
| BackendAuth.ClaimResolvesUser | backend/app/auth.py:43-58 | with unique ids, a token claiming a user's id resolves to exactly that user |
| BackendUsers.FindByEmail | backend/app/routes/user.py:17 | the result is absent exactly when no row has the e-mail; a found row carries it |
| BackendUsers.EmailTakenRewrapped | backend/app/routes/user.py:18-45 | the 400 for a taken e-mail reaches the client as 500 `Unexpected error: 400: Email already registered` |
| BackendUsers.Signup | backend/app/routes/user.py:13-45 | sign-up succeeds exactly when there is no database fault and the e-mail is free. It then appends one row with the hashed password and returns its `UserOut`. Every failure is a 500 that leaves the table unchanged, the taken e-mail included |
| BackendUsers.InvalidCredentialsRewrapped | backend/app/routes/user.py:54-71 | the 401 for bad credentials reaches the client as 500 `Unexpected error: 401: Invalid credentials` |
| BackendUsers.Login | backend/app/routes/user.py:49-71 | an unknown e-mail and a wrong password give the same 500. Success needs a known e-mail, a matching password and an encodable token. It returns the token for `{"user_id": id}` plus `exp` and the user's `UserOut` |
| BackendUsers.LoginBody | backend/app/routes/user.py:64 | the login answer reads back the token as `access_token` and the user's public fields as `user` |
| BackendUsers.FindAppended | backend/app/routes/user.py:17-34 | an appended row with a new e-mail is found by that e-mail |
| BackendUsers.SignupThenLogin | backend/app/routes/user.py:13-64 | after a successful sign-up, logging in with the same e-mail and password returns a token for the new id and the new user |
| BackendUsers.LoginTokenResolvesUser | backend/app/routes/user.py:62 | the token a login returns resolves, through `get_current_user`, to the user who logged in, once the decoder inverts the encoder |
| BackendInventory.EntryKeys | backend/app/routes/inventory.py:29-35 | an inventory entry has exactly `id`, `name`, `description`, `image_url`, `unit` and no category |
| BackendInventory.EntryValues | backend/app/routes/inventory.py:29-35 | an entry reads back each of the row's five columns: `id`, `name`, and `description`, `image_url` and `unit` as `null` when missing |
| BackendInventory.Entries | backend/app/routes/inventory.py:28-36 | a category's list has at most one entry per row, none when no row is in the category, and one per row when every row is |
| BackendInventory.Append | backend/app/routes/inventory.py:30 | an existing category keeps its place; a new one is added last |
| BackendInventory.AppendLists | backend/app/routes/inventory.py:30 | appending grows only the list of its category, by one entry at the end |
| BackendInventory.AppendTotal | backend/app/routes/inventory.py:30 | appending adds exactly one entry in all |
| BackendInventory.Group | backend/app/routes/inventory.py:28-36 | each category appears once; the first row's category comes first |
| BackendInventory.GroupCategories | backend/app/routes/inventory.py:28-36 | the grouped categories are exactly the rows' categories |
| BackendInventory.GroupLists | backend/app/routes/inventory.py:28-36 | each category's list equals the reference list of its rows' entries, in query order |
| BackendInventory.GroupTotal | backend/app/routes/inventory.py:28-36 | no row is lost or counted twice: the lists hold as many entries as there are rows |
| BackendInventory.EmptyTableText | backend/app/routes/inventory.py:22-50 | the empty table's 404 reaches the client as 500 `Unexpected error: 404: No inventory items found` |
| BackendInventory.GetInventoryGrouped | backend/app/routes/inventory.py:14-50 | a failed user resolution passes through; a query failure gives 500 with the fixed database text; an empty table gives the rewrapped 500. Success happens exactly for a resolved user and a non-empty table, and returns the grouped rows |
| BackendRecipes.UnfenceTickFree | backend/app/routes/recipe.py:99 | text without backticks passes through the fence substitution unchanged, and so does everything after it |
| BackendRecipes.Unfence | backend/app/routes/recipe.py:99 | removing fences never makes the text longer |
| BackendRecipes.StripFences | backend/app/routes/recipe.py:99 | text without backticks is only stripped of surrounding white space |
| BackendRecipes.FencedJson | backend/app/routes/recipe.py:99 | a reply fenced as a `json` code block is cleaned to exactly its content |
| BackendRecipes.PlainFence | backend/app/routes/recipe.py:99 | an untagged code fence is removed as well |
| BackendRecipes.NoFence | backend/app/routes/recipe.py:99 | a reply without backticks is only stripped of surrounding white space |
| BackendRecipes.ParseFailureRewrapped | backend/app/routes/recipe.py:105-115 | a parse failure's 500 is rewrapped by the outer handler into a 500 whose detail carries both prefixes and the parser's message |
| BackendRecipes.GenerateRecipes | backend/app/routes/recipe.py:23-115 | the parser sees the cleaned reply. Success happens exactly for a resolved user, a generated reply and a successful parse, and returns the parsed value. A generation or parse failure gives 500 under `Error generating recipes: ` |
| BackendRecipes.Index | backend/app/routes/recipe.py:148-153 | `v[key]` succeeds exactly on an object holding the key; a missing key fails with the quoted key, as `KeyError` prints it |
| BackendRecipes.ReadAll | backend/app/routes/recipe.py:147-154 | every path of the video literal is read in order; the reads succeed only when each path does |
| BackendRecipes.VideosFrom | backend/app/routes/recipe.py:145-155 | one video per item, in order, exactly when every item can be read; otherwise the first failure wins |
| BackendRecipes.ItemsOf | backend/app/routes/recipe.py:142 | an object answer with missing or falsy `items` counts as no items; truthy `items` are handed on, and whatever is handed on is truthy |
| BackendRecipes.Elements | backend/app/routes/recipe.py:146 | iterating a list gives its elements; iterating any other truthy value gives strings (a dictionary's keys, a string's characters), at least one of them, or fails |
| BackendRecipes.VideoOf | backend/app/routes/recipe.py:147-154 | an item that is not an object cannot be read as a video |
| BackendRecipes.VideoOfItemOf | backend/app/routes/recipe.py:147-154 | reading the item YouTube sends for a video gives that video back |
| BackendRecipes.KeyMissingRewrapped | backend/app/routes/recipe.py:123-168 | an unset `YOUTUBE_API_KEY` raises 500 `YouTube API key not configured`, which the generic handler turns into 500 `Error searching YouTube videos: 500: YouTube API key not configured` |
| BackendRecipes.SearchYoutube | backend/app/routes/recipe.py:117-168 | a request is made exactly for a resolved user and a configured key, with the five fixed parameters. A request failure gives 503. No items gives no videos. A list of items gives one video per item, or the first item's read error. A non-object answer that cannot be searched for `items`, and truthy `items` that are not a list, always fail. After a successful request every failure is 500, with the search prefix |
| BackendRecipes.NoItemsNoVideos | backend/app/routes/recipe.py:142-143 | an answer without `items`, or with an empty list, returns no videos |
| BackendRecipes.SearchFindsListedVideos | backend/app/routes/recipe.py:139-156 | an answer listing the items of some videos returns exactly those videos, in order |
| BackendRecipes.SaveRecipeAsWritten | backend/app/routes/recipe.py:170-234 | as written: a recipe-commit failure leaves the store as it was, but a video-commit failure keeps the recipe row without its videos; both answer 500 |
| BackendRecipes.PartialSaveOnVideoFailure | backend/app/routes/recipe.py:191-234 | a save that answers 500 can leave its recipe stored |
| BackendRecipes.SaveRecipe | backend/app/routes/recipe.py:170-234 | any failure leaves the store unchanged. Success happens exactly for a resolved user and no fault, stores the recipe under the current user with one row per video, and echoes it |
| BackendRecipes.Owned | backend/app/routes/recipe.py:243-245 | the listing holds exactly the rows of the current user, no more rows than the table, and no repeated id when the table has none |
| BackendRecipes.GetSavedRecipes | backend/app/routes/recipe.py:237-284 | only the current user's recipes are listed, every one of them, each with its own videos, at most one per stored row, and with distinct ids whenever the stored ids are distinct; a query failure gives 500 |
| BackendRecipes.VideosOfAppend | backend/app/routes/recipe.py:196-258 | video rows added for a recipe extend only that recipe's list |
| BackendRecipes.RowsOfOthers | backend/app/routes/recipe.py:258 | rows added for another recipe leave a recipe's videos unchanged |
| BackendRecipes.NoVideosForFreshId | backend/app/routes/recipe.py:258 | a recipe id no video row carries has no videos |
| BackendRecipes.SaveThenList | backend/app/routes/recipe.py:170-278 | after a save under a fresh id, the owner's listing contains the saved recipe exactly as the save echoed it, with the sent videos and no others |
| BackendRecipes.SaveKeepsOthers | backend/app/routes/recipe.py:170-278 | a save leaves every other user's listing unchanged |
| BackendApp.IncludedRoutes | backend/app/main.py:9-10 | a route is in the application exactly when one of the included routers declares it |
| BackendApp.RouteTable | backend/app/main.py:7-14 | the schema and documentation routes `FastAPI()` registers come first, then the included routers' routes in inclusion order, and `GET /` last, since it is declared after the routers are included |
| BackendApp.TableRoutes | backend/app/main.py:7-14 | the table holds exactly the documentation routes, the root route and the routes some included router declares |
| BackendApp.UserRoutes | backend/app/routes/user.py:7-49 | the user router serves `POST /users/signup` and `POST /users/login` |
| BackendApp.InventoryRoutes | backend/app/routes/inventory.py:9-14 | the inventory router serves `GET /inventory/`, with a trailing slash |
| BackendApp.RecipeRoutes | backend/app/routes/recipe.py:14-237 | the recipe router serves generate, youtube-search and save by POST, and `saved` by GET, under `/recipes` |
| BackendApp.TableAsWritten | backend/app/main.py:3-14 | the application `main.py` builds has the four documentation routes, sign-up, login, the inventory and `GET /`, in that order, and no recipe route |
| BackendApp.TableMounted | backend/app/main.py:9-14 | including the recipe router puts its four routes after the inventory route and before `GET /` |
| BackendApp.Match | backend/app/main.py:7-14 | a handled request's method, path and endpoint form a route of the table |
| BackendApp.MatchSpec | backend/app/main.py:7-14 | a request is handled exactly when some route has its method and path, and then by the first such route; it is not found exactly when no route has its path |
| BackendApp.ToggleSlash | backend/app/routes/inventory.py:14 | the redirect target has the same segments and the other trailing-slash state |
| BackendApp.Dispatched | backend/app/main.py:7-14 | a path that is known keeps its match; an unknown path other than `/` is retried with the trailing slash toggled |
| BackendApp.Unhandled | backend/app/main.py:7 | an unknown path answers 404 and a wrong method 405; neither is OK |
| BackendApp.RenderPair | backend/app/routes/user.py:7-13 | a two-segment path reads as `/a/b` |
| BackendApp.SignupText | recipe-frontend/src/app/api/register/route.js:7 | the sign-up path is the text the front end sends to |
| BackendApp.LoginText | recipe-frontend/src/app/api/login/route.js:7 | the login path is the text the front end sends to |
| BackendApp.InventoryText | recipe-frontend/src/app/api/inventory/route.js:16 | the inventory path is `/inventory`, without a trailing slash |
| BackendApp.GenerateText | recipe-frontend/src/app/api/recipe/route.js:15 | the generate path is the text the front end sends to |
| BackendApp.SaveText | recipe-frontend/src/app/api/save-recipe/route.js:20 | the save path is the text the front end sends to |
| BackendApp.SavedText | recipe-frontend/src/app/api/get-saved-recipes/route.js:14 | the listing path is the text the front end sends to |
| BackendApp.MatchFirst | backend/app/main.py:7-14 | the first route matching a request handles it |
| BackendApp.Unknown | backend/app/main.py:7-14 | a path no route knows, with or without its trailing slash, is not found |
| BackendApp.RecipeCallsNotFound | backend/app/main.py:3-10 | as written, the front end's calls to generate, save and list recipes all end in 404 |
| BackendApp.InventoryRedirect | backend/app/routes/inventory.py:14 | `GET /inventory` reaches the grouped inventory through the trailing-slash redirect, in any table without a route for `/inventory` whose first route for `/inventory/` is the inventory router's |
| BackendApp.DocsPaths | backend/app/main.py:7 | no documentation route `FastAPI()` adds shares a first path segment with the user, inventory or recipe routes |
| BackendApp.UserAndInventoryHandled | backend/app/main.py:9-10 | in any table that starts with the documentation routes and then the user and inventory routes, sign-up, login and `GET /inventory` reach their handlers |
| BackendApp.OtherCallsHandled | backend/app/main.py:9-10 | as written, sign-up, login and the inventory reach their handlers |
| BackendApp.MountedOtherCallsHandled | backend/app/main.py:9-10 | with the recipe router included, sign-up, login and the inventory still reach their handlers |
| BackendApp.RecipeCallsHandled | backend/app/routes/recipe.py:23-237 | with the recipe router included, generate, save and list reach their handlers |
| BackendApp.RecipeRoutesHandled | backend/app/routes/recipe.py:23-237 | in any table whose recipe routes follow the documentation, user and inventory routes, generate, save and list reach their handlers |
| Seed.PendingAsWritten | backend/app/seed_inventory.py:18-22 | as written, every queued listing comes from the file and names an item the table lacks. Names already queued are not skipped |
| Seed.SeedAsWritten | backend/app/seed_inventory.py:14-26 | as written, the seed's commit fails, adding nothing, exactly when the names queued for insertion repeat |
| Seed.RepeatedNameBreaksSeed | backend/app/seed_inventory.py:18-24 | a file listing `Tomato` under two categories makes the seed's single commit fail |
| Seed.Pending | backend/app/seed_inventory.py:18-22 | the names to add are distinct and listed, none is in the table already, and each takes the category of its first listing |
| Seed.PendingCovers | backend/app/seed_inventory.py:18-22 | every listed name that is not in the table is queued |
| Seed.SeedOnce | backend/app/seed_inventory.py:14-26 | seeding keeps the existing rows, unchanged and in order, as a prefix |
| Seed.NamesAppend | backend/app/seed_inventory.py:22 | the names after adding rows are the old names plus the new ones |
| Seed.SeedCoversListed | backend/app/seed_inventory.py:18-24 | after seeding, every listed name is in the table |
| Seed.SeedKeepsExisting | backend/app/seed_inventory.py:20-21 | every added row names an item the table lacked, under the category of that item's first listing |
| Seed.SeedKeepsNamesUnique | backend/app/seed_inventory.py:20-22 | seeding a table with unique names leaves the names unique |
| Seed.NothingPending | backend/app/seed_inventory.py:20-21 | once every listed name is present, nothing is queued |
| Seed.SeedIdempotent | backend/app/seed_inventory.py:14-26 | seeding twice gives the same table as seeding once |
| Seed.AsWrittenIgnoresUnlisted | backend/app/seed_inventory.py:20-21 | adding a name the file does not list to the table leaves the as-written queue unchanged |
| Seed.PendingAgree | backend/app/seed_inventory.py:18-22 | when no name repeats, the as-written queue and the corrected one are the same |
| Seed.AsWrittenAgreesWithoutRepeats | backend/app/seed_inventory.py:14-26 | when no name repeats in the file, the as-written seed and the corrected one give the same table |
| Text.OrElse | recipe-frontend/src/app/dashboard/saved-recipes/page.js:68 | a logical or of two strings gives one of the two, and is empty only when both are |
| Text.SplitWithoutSeparator | recipe-frontend/src/app/dashboard/recipe-maker/page.js:9 | a string without the separator splits into itself alone |
| Text.SplitAfterField | recipe-frontend/src/app/dashboard/recipe-maker/page.js:9 | splitting stops the first field at the first separator |
| Text.SplitJoin | recipe-frontend/src/app/dashboard/inventory/page.js:70 | splitting a join of fields that do not contain the separator gives back the fields |
| Text.JoinSplit | recipe-frontend/src/app/dashboard/recipe-maker/page.js:9 | joining a split with the same separator gives back the string |
| Text.JoinConsHead | recipe-frontend/src/app/dashboard/inventory/page.js:70 | extending the first field extends the joined text at its front |
| Text.Repeat | recipe-frontend/src/app/api/send-feedback/route.js:35 | `c.repeat(n)` is `n` copies of `c` |
| Text.NewlinesToBreaks | recipe-frontend/src/app/api/send-feedback/route.js:38 | the result has no newline, and text without newlines is unchanged |
| Text.NewlinesToBreaksIsSplitJoin | recipe-frontend/src/app/api/send-feedback/route.js:38 | replacing every newline with `<br>` is the same as splitting at newlines and joining with `<br>` |
| Text.TrimLeftEmpty | recipe-frontend/src/app/dashboard/feedback/page.js:27 | trimming the left leaves nothing exactly when every character is white space, and otherwise starts at a non-space |
| Text.TrimRightKeepsNonSpaceHead | recipe-frontend/src/app/dashboard/feedback/page.js:27 | trimming the right keeps a text whose first character is not a space non-empty |
| Text.TrimEmptyIffAllSpace | recipe-frontend/src/app/dashboard/feedback/page.js:27 | `trim()` gives the empty string exactly when the text is all white space |
| Text.TrimWrapped | backend/app/routes/recipe.py:99 | trimming removes one white-space character on each side of a text that has no spaces at its ends |
| Text.StringToInteger | recipe-frontend/src/app/api/send-feedback/route.js:35 | integer-only `Number(s)` on a string: all white space is 0, and a number results exactly when the trimmed text is an optionally signed run of decimal digits |
| Text.NatToStringDigits | recipe-frontend/src/app/api/send-feedback/route.js:35 | the decimal rendering of a natural number is all digits and reads back as that number |
| Text.IntegerRoundTrip | recipe-frontend/src/app/api/send-feedback/route.js:35 | reading back the decimal rendering of any integer gives that integer |
| Json.Lookup | recipe-frontend/src/app/dashboard/inventory/page.js:41 | a property is absent exactly when no member has its name; a found value belongs to a member of that name |
| Json.JsTruthy | recipe-frontend/src/app/dashboard/feedback/page.js:42-44 | `undefined` is falsy and every array and object is truthy; any other value is truthy exactly as Python would judge it: `false`, `null`, 0 and the empty string are falsy |
| Json.ToJsString | recipe-frontend/src/app/api/send-feedback/route.js:20-26 | `String(v)`: a number's text reads back as the number, a string is itself, a boolean is `true` or `false`, an empty array or one holding `null` is empty, and a one-string array is that string |
| Json.Show | recipe-frontend/src/app/api/send-feedback/route.js:20-26 | interpolating `undefined` gives `undefined`; a string interpolates as itself and a number as text that reads back as the number |
| Json.Get | recipe-frontend/src/app/dashboard/inventory/page.js:41 | reading a property of `null` throws; on anything else it gives the member, if any |
| Json.Destructure | recipe-frontend/src/app/api/send-feedback/route.js:5 | destructuring `null` throws; on anything else it reads the member, if any |
| Json.ErrorMessage | recipe-frontend/src/app/dashboard/inventory/page.js:41 | reading `data.error` with a fallback gives the fallback for a falsy error and a non-empty string error as itself |
| Json.Present | recipe-frontend/src/app/api/login/route.js:22-25 | `JSON.stringify` drops the undefined fields and keeps the value of every other one |
| Json.Assign | recipe-frontend/src/app/api/save-recipe/route.js:15-18 | assigning a key sets it and leaves every other key; an existing key keeps its place |
| Json.Spread | recipe-frontend/src/app/api/save-recipe/route.js:16 | `{...v}` copies an object's members unchanged, an array's or string's elements under keys that read back as their indices, and nothing from other values |
| Json.FirstKey | recipe-frontend/src/app/dashboard/inventory/page.js:38 | `Object.keys(data)[0]` throws on `null`, is the first member's name on a non-empty object and undefined on an empty one |
| Http.ReadField | recipe-frontend/src/app/api/auth/set-token/route.js:5 | destructuring the request body succeeds exactly when it parsed to something other than `null`, and reads that value |
| Http.FailureText | recipe-frontend/src/app/api/inventory/route.js:26-37 | the caught message is never empty. It is the fallback when the answer has no truthy `message`, the answer's message when it has one, and a thrown error's own message otherwise |
| Http.Settle | recipe-frontend/src/app/api/inventory/route.js:24-37 | only 200 or 400 is answered. 200 comes exactly for an OK back-end reply and forwards its body; anything else becomes 400 `{error}` with the caught message |
| Http.FastApiErrorsShowFallback | recipe-frontend/src/app/api/inventory/route.js:26-28 | an error answer shaped `{"detail": …}` always reaches the browser as the fixed fallback text |
| Http.StatusNotPropagated | recipe-frontend/src/app/api/inventory/route.js:26-37 | two back-end statuses on the same side of `response.ok` give the same answer |
| Gateway.InventoryRoute | recipe-frontend/src/app/api/inventory/route.js:3-38 | without a cookie token the handler answers 401 and sends nothing. With a token it sends `GET /inventory` with the bearer header. 200 comes exactly for an OK reply and forwards its body; otherwise 400 with the caught message |
| Gateway.SavedRecipesRoute | recipe-frontend/src/app/api/get-saved-recipes/route.js:3-36 | as for the inventory: 401 without a token and nothing sent, a bearer request to `/recipes/saved`, 200 exactly for an OK reply |
| Gateway.RecipeRoute | recipe-frontend/src/app/api/recipe/route.js:3-38 | the body is read before the cookie: a broken body gives 400 and `null` gives 400 without a request, then a missing token gives 401. A request is sent exactly for a usable body and a token, and the reply is settled |
| Gateway.SavePayload | recipe-frontend/src/app/api/save-recipe/route.js:15-18 | the payload is always an object. It has the body's members, with `youtube_videos` kept when truthy and `[]` otherwise |
| Gateway.SaveRecipeRoute | recipe-frontend/src/app/api/save-recipe/route.js:3-43 | a broken body gives 400 and a missing token 401; a request is sent exactly for a non-null body and a token, carrying the save payload |
| Gateway.NoTokenIgnoresBackend | recipe-frontend/src/app/api/inventory/route.js:9-14 | without a token no protected handler's answer depends on the back end |
| Gateway.SavePayloadKeepsObject | recipe-frontend/src/app/api/save-recipe/route.js:15-18 | an object that already carries truthy videos is forwarded unchanged |
| Gateway.AssignExisting | recipe-frontend/src/app/api/save-recipe/route.js:17 | assigning a member its current value changes nothing |
| AuthRoutes.VerifyRoute | recipe-frontend/src/app/api/auth/verify/route.js:3-25 | no token gives 401 `verified: false`; any token gives 200 `verified: true` with an empty user |
| AuthRoutes.VerifyIgnoresTokenValue | recipe-frontend/src/app/api/auth/verify/route.js:14-18 | any two tokens verify alike and successfully: the token is never checked |
| AuthRoutes.TokenCookieOptions | recipe-frontend/src/app/api/auth/set-token/route.js:13-19 | the cookie is HTTP-only, `strict`, on `/` for one day, and secure exactly in production |
| AuthRoutes.SetTokenRoute | recipe-frontend/src/app/api/auth/set-token/route.js:3-28 | a cookie is set exactly when the body parsed to a non-null value, and it holds that value's `token`; otherwise the answer is 400 |
| AuthRoutes.PickFieldsLookup | recipe-frontend/src/app/api/login/route.js:22-25 | a picked field reads back the source member for a picked key and nothing for any other key |
| AuthRoutes.Pick | recipe-frontend/src/app/api/login/route.js:22-25 | the answer object holds only the picked keys, each with the source's value if defined |
| AuthRoutes.Project | recipe-frontend/src/app/api/register/route.js:21-33 | an OK reply is answered with its status and the picked fields; any failure becomes 400 with the caught message |
| AuthRoutes.PickWhole | recipe-frontend/src/app/api/login/route.js:22-25 | picking every key of an object with distinct keys, in their own order, gives the object back |
| AuthRoutes.SignupBody | recipe-frontend/src/app/api/register/route.js:5-12 | the sign-up request carries the body's four sign-up fields and no other key |
| AuthRoutes.RegisterAnswer | recipe-frontend/src/app/api/register/route.js:15-33 | an OK answer with a body becomes 201 with the four public profile fields and no password; any failure becomes 400 |
| AuthRoutes.LoginRoute | recipe-frontend/src/app/api/login/route.js:3-33 | a request is sent exactly for a usable body, carrying only its `email` and `password`. An OK back-end answer with a body is answered 200 with only its `access_token` and `user`; an OK `null` body is 400 with the `null`-read message; a failed one is 400 with its `message` or "Login failed" |
| AuthRoutes.RegisterRoute | recipe-frontend/src/app/api/register/route.js:3-34 | a request is sent exactly for a usable body, carrying its `email`, `password`, `name` and `gender` and nothing else. An OK back-end answer with a body is answered 201 with only its `id`, `email`, `name` and `gender`, never a password; an OK `null` body is 400; a failed one is 400 with its `message` or "Registration failed" |
| Session.ParseMirror | recipe-frontend/src/app/context/AuthContext.js:17-20 | a mirror cookie written by `JSON.stringify` parses back to its value; the text `undefined` does not parse |
| Session.Mounted | recipe-frontend/src/app/context/AuthContext.js:9-10 | the provider starts loading with no user |
| Session.CheckAuth | recipe-frontend/src/app/context/AuthContext.js:13-43 | loading always ends. A set mirror cookie is trusted without asking the server: it is restored when it parses, and otherwise the check fails with the user unchanged. Without it the server is asked, and success stores and mirrors `data.user` |
| Session.Login | recipe-frontend/src/app/context/AuthContext.js:56-80 | the set-token request carries the token. Login succeeds exactly when it is OK, and then stores and mirrors the user data; otherwise nothing changes |
| Session.Logout | recipe-frontend/src/app/context/AuthContext.js:81-96 | once the request is answered, whatever its status, the user and the mirror are cleared and the app goes to `/login`; a thrown request changes nothing |
| Session.Initialize | recipe-frontend/src/app/context/AuthContext.js:45-54 | the app goes to `/login` exactly when the first check fails |
| Session.LoginThenCheck | recipe-frontend/src/app/context/AuthContext.js:13-80 | after a successful login the next check restores the same user without asking the server |
| Session.LoginWithoutUserDataFailsNextCheck | recipe-frontend/src/app/context/AuthContext.js:17-71 | a login without user data writes `undefined`, and the next check fails without asking the server |
| Session.VerifiedUserRestored | recipe-frontend/src/app/context/AuthContext.js:17-33 | what the server path mirrors, the cookie path restores unchanged on the next check |
| Session.LogoutForcesVerify | recipe-frontend/src/app/context/AuthContext.js:19-90 | after an answered logout the next check has to ask the server |
| Session.CheckAgainstVerifyRoute | recipe-frontend/src/app/context/AuthContext.js:26-35 | against the real verify handler the check succeeds exactly when the HTTP-only cookie is present, and then the user is the empty object |
| Session.LoginRequestSetsCookie | recipe-frontend/src/app/context/AuthContext.js:60-67 | the request login sends makes the set-token handler store exactly the given token and answer OK |
| Session.SetTokenRequest | recipe-frontend/src/app/context/AuthContext.js:60-67 | login posts JSON to `/api/auth/set-token` whose `token` reads back as the token given; an undefined token leaves the body `{}` |
| DashboardLayout.Render | recipe-frontend/src/app/dashboard/layout.js:22-46 | the spinner shows exactly while either check runs; the dashboard shows exactly once both are done and a user is set; otherwise nothing is rendered and `/login` is requested |
| DashboardLayout.Mount | recipe-frontend/src/app/dashboard/layout.js:11-30 | the layout mounts checking and shows the spinner |
| DashboardLayout.CheckCompleted | recipe-frontend/src/app/dashboard/layout.js:13-20 | once the layout's own check completes, neither flag is set and the session is the check's |
| DashboardLayout.SettledGate | recipe-frontend/src/app/dashboard/layout.js:13-46 | once settled, the dashboard shows exactly when a user is set, whatever the check returned |
| DashboardLayout.StaleUserShown | recipe-frontend/src/app/dashboard/layout.js:13-46 | a check that fails on an unparsable cookie still shows the dashboard to the user set earlier |
| InventoryPage.LoadInventory | recipe-frontend/src/app/dashboard/inventory/page.js:28-51 | loading always ends. An OK object is stored and its first key opens. An OK `null` fails on `Object.keys`. An error answer shows its `error` or the fallback, and a thrown fetch shows its message. No error is set exactly for an OK non-null body |
| InventoryPage.View | recipe-frontend/src/app/dashboard/inventory/page.js:76-100 | the spinner shows while loading, then a banner exactly when the error is truthy, then the browser exactly when the inventory is truthy |
| InventoryPage.PageWithoutToken | recipe-frontend/src/app/dashboard/inventory/page.js:31-44 | without a token the page shows the 401 handler's text |
| InventoryPage.PageShowsFallbackForBackendErrors | recipe-frontend/src/app/dashboard/inventory/page.js:41 | every back-end error reaches the page as the handler's fixed fallback text |
| InventoryPage.Remove | recipe-frontend/src/app/dashboard/inventory/page.js:56 | `filter(item => item !== x)` removes every `x`, keeps every other name, and keeps a list without repeats free of repeats |
| InventoryPage.RemoveAppend | recipe-frontend/src/app/dashboard/inventory/page.js:56 | filtering distributes over concatenation |
| InventoryPage.Toggle | recipe-frontend/src/app/dashboard/inventory/page.js:53-59 | a selected name is removed and an unselected one appended; only its membership flips, and a list without repeats stays so |
| InventoryPage.ToggleTwice | recipe-frontend/src/app/dashboard/inventory/page.js:53-59 | toggling an unselected name twice restores the selection; toggling a selected one twice moves it to the end |
| InventoryPage.OpenModal | recipe-frontend/src/app/dashboard/inventory/page.js:61-65 | the modal opens when something is selected and otherwise stays as it was |
| InventoryPage.ItemNames | recipe-frontend/src/app/dashboard/inventory/page.js:153-203 | the shelf's names are exactly the string `name`s of its items |
| InventoryPage.Shelves | recipe-frontend/src/app/dashboard/inventory/page.js:118-153 | one tab per inventory key, in key order, each holding its items' names |
| InventoryPage.Keep | recipe-frontend/src/app/dashboard/inventory/page.js:202-204 | the kept names are the selected names the shelf holds, in selection order |
| InventoryPage.KeepAppend | recipe-frontend/src/app/dashboard/inventory/page.js:202-204 | filtering distributes over concatenation |
| InventoryPage.ModalGroups | recipe-frontend/src/app/dashboard/inventory/page.js:201-230 | every group is some shelf's category with that shelf's selected names, and no group is empty; every shelf holding a selected name has its group |
| InventoryPage.ModalGroupsOne | recipe-frontend/src/app/dashboard/inventory/page.js:201-230 | one shelf gives one group holding its selected names in selection order, or no group when none of its names is selected |
| InventoryPage.ModalGroupsAppend | recipe-frontend/src/app/dashboard/inventory/page.js:201-230 | the groups follow the shelf order: the groups of two runs of shelves are the first run's groups followed by the second's |
| InventoryPage.ModalShowsSelected | recipe-frontend/src/app/dashboard/inventory/page.js:201-230 | every selected name that some shelf holds appears in the modal |
| InventoryPage.ModalShowsOnlySelected | recipe-frontend/src/app/dashboard/inventory/page.js:201-230 | every name in the modal is selected and belongs to a category of the inventory |
| InventoryPage.GenerateClicked | recipe-frontend/src/app/dashboard/inventory/page.js:67-68 | clicking generate sets the generating flag and leaves the modal open |
| InventoryPage.GenerateFired | recipe-frontend/src/app/dashboard/inventory/page.js:69-73 | after the delay the app goes to the recipe maker with the selection joined by commas, and the modal closes |
| RecipeMaker.SelectedItems | recipe-frontend/src/app/dashboard/recipe-maker/page.js:8-9 | a missing or empty `items` parameter selects nothing; any other value is split at commas |
| RecipeMaker.SelectionRoundTrip | recipe-frontend/src/app/dashboard/recipe-maker/page.js:9 | a selection of non-empty names without commas reaches the recipe maker unchanged |
| RecipeMaker.EmptyNameLost | recipe-frontend/src/app/dashboard/recipe-maker/page.js:9 | a selection holding only the empty name arrives as no selection |
| RecipeMaker.MockRecipes | recipe-frontend/src/app/dashboard/recipe-maker/page.js:25-53 | two recipes, ids 1 and 2. The first uses every selected item and is titled with them joined by "and"; the second uses the first item only. Neither uses an item that was not selected |
| RecipeMaker.GenerateRecipes | recipe-frontend/src/app/dashboard/recipe-maker/page.js:14-61 | nothing happens without a selection; otherwise loading ends with the two mock recipes and no error |
| RecipeMaker.PickedIngredientsReachRecipe | recipe-frontend/src/app/dashboard/recipe-maker/page.js:9-30 | the ingredients picked on the inventory page are exactly the first mock recipe's ingredients |
| SavedRecipesPage.LoadSaved | recipe-frontend/src/app/dashboard/saved-recipes/page.js:55-75 | loading always ends. An OK answer replaces the list. Any failure keeps the list and sets a non-empty error: the answer's `error` or the fallback, or a thrown error's message |
| SavedRecipesPage.LoadWithoutToken | recipe-frontend/src/app/dashboard/saved-recipes/page.js:59-68 | without a token the page shows the 401 handler's text |
| SavedRecipesPage.ToggleExpand | recipe-frontend/src/app/dashboard/saved-recipes/page.js:77-79 | clicking a recipe expands it unless it is the expanded one, which collapses; at most that recipe is expanded |
| SavedRecipesPage.ToggleExpandTwice | recipe-frontend/src/app/dashboard/saved-recipes/page.js:77-79 | clicking twice restores the state when nothing or that recipe was open, and otherwise collapses all |
| SavedRecipesPage.ToggleSection | recipe-frontend/src/app/dashboard/saved-recipes/page.js:99-156 | only the clicked section of the clicked recipe flips; every other section and recipe keeps its state |
| SavedRecipesPage.ToggleSectionTwice | recipe-frontend/src/app/dashboard/saved-recipes/page.js:99-156 | toggling a section twice restores every section's state |
| SavedRecipesPage.FlagsAt | recipe-frontend/src/app/dashboard/saved-recipes/page.js:92-93 | the left arrow is due exactly when scrolled right of the start, the right arrow exactly while content lies past the view |
| SavedRecipesPage.FlagsOf | recipe-frontend/src/app/dashboard/saved-recipes/page.js:151 | a recipe never scrolled has the default flags: left off, right on |
| SavedRecipesPage.Scrolled | recipe-frontend/src/app/dashboard/saved-recipes/page.js:88-96 | a scroll updates only its own recipe's flags |
| SavedRecipesPage.Arrows | recipe-frontend/src/app/dashboard/saved-recipes/page.js:202-212 | arrows appear only for more than three videos, and then as the flags say |
| SavedRecipesPage.UnscrolledArrows | recipe-frontend/src/app/dashboard/saved-recipes/page.js:151-212 | a fresh recipe with more than three videos shows only the right arrow, and after scrolling back to the start no left arrow |
| RegisterPage.Change | recipe-frontend/src/app/register/page.js:28-34 | an edit sets its field and leaves the others |
| RegisterPage.KeysDistinct | recipe-frontend/src/app/register/page.js:10-15 | the four form fields have distinct names |
| RegisterPage.Validate | recipe-frontend/src/app/register/page.js:36-44 | a field has an error exactly when it is empty, with its own message; there are no errors exactly when all four are filled |
| RegisterPage.Valid | recipe-frontend/src/app/register/page.js:43 | the form is valid exactly when no field is empty |
| RegisterPage.InitialFormErrors | recipe-frontend/src/app/register/page.js:10-44 | the initial form, with gender `male`, lacks exactly the e-mail, password and name |
| RegisterPage.Submit | recipe-frontend/src/app/register/page.js:46-85 | an invalid form sends nothing. A valid one posts the form to `/api/register`. Success shows the success alert and goes to `/login`; a failure shows the answer's `error`, a thrown error's message or the fallback |
| RegisterPage.Gate | recipe-frontend/src/app/register/page.js:22-96 | the form shows exactly once the check is done with no user; a signed-in user is sent to the inventory |
| RegisterPage.FormJsonMembers | recipe-frontend/src/app/register/page.js:57 | the posted JSON carries each form field as a string |
| RegisterPage.FormForwarded | recipe-frontend/src/app/register/page.js:52-58 | a valid form reaches the back end as the four sign-up fields, unchanged |
| FeedbackMail.NumberValue | recipe-frontend/src/app/api/send-feedback/route.js:35 | a missing rating counts as `NaN`; a present one as `FeedbackMail.NumberOf` reads it |
| FeedbackMail.NumberOf | recipe-frontend/src/app/api/send-feedback/route.js:35 | `Number(v)` as JavaScript coerces a JSON value: `null`, `false` and `[]` are 0, `true` is 1, a number is itself, a string is read as an integer literal, an object and an array of two or more elements are `NaN` |
| FeedbackMail.SingletonNumber | recipe-frontend/src/app/api/send-feedback/route.js:35 | a one-element array counts as its element, except that `[null]` is 0 and `[true]` and `[false]` are `NaN` |
| FeedbackMail.NumericStringNumber | recipe-frontend/src/app/api/send-feedback/route.js:35 | a rating sent as the decimal string of an integer counts as that integer |
| FeedbackMail.RepeatChecked | recipe-frontend/src/app/api/send-feedback/route.js:35 | `repeat` with a negative count throws; a non-negative count gives that many copies |
| FeedbackMail.Stars | recipe-frontend/src/app/api/send-feedback/route.js:35 | a rating that counts as `n` renders exactly when `n` is between 0 and 5, as `n` filled and `5 - n` empty stars; a rating that counts as `NaN` renders no stars at all |
| FeedbackMail.StarsShape | recipe-frontend/src/app/api/send-feedback/route.js:35 | a rating of `n` in 0..5 gives five symbols: `n` filled stars, then empty ones |
| FeedbackMail.Subject | recipe-frontend/src/app/api/send-feedback/route.js:20 | the subject names the user; a missing or `null` `userData` throws |
| FeedbackMail.MessageHtml | recipe-frontend/src/app/api/send-feedback/route.js:38 | only a string message renders, with its newlines as `<br>` |
| FeedbackMail.Compose | recipe-frontend/src/app/api/send-feedback/route.js:17-46 | a mail is built exactly when the subject, the stars and the message all render |
| FeedbackMail.SendFeedback | recipe-frontend/src/app/api/send-feedback/route.js:3-61 | the answer is 200 `{success: true}` exactly when a mail is built and delivered. Anything else is 500 with the error's message. A broken body never builds a mail |
| FeedbackMail.RatingAboveFiveFails | recipe-frontend/src/app/api/send-feedback/route.js:35-60 | any rating that counts as a number above five, such as `9` or `"9"`, makes the mail fail with 500 before anything is sent |
| FeedbackPage.CookieUser | recipe-frontend/src/app/dashboard/feedback/page.js:16-17 | no mirror cookie gives `null`; a set one is parsed as the session parses it |
| FeedbackPage.UndefinedCookieBreaksPage | recipe-frontend/src/app/dashboard/feedback/page.js:16-17 | the `undefined` mirror a login without user data leaves makes the feedback page throw |
| FeedbackPage.Or | recipe-frontend/src/app/dashboard/feedback/page.js:42-44 | a truthy value is kept and anything else becomes the fallback string |
| FeedbackPage.UserData | recipe-frontend/src/app/dashboard/feedback/page.js:41-45 | the sent `userData` has exactly `id`, `email` and `name`: each is the user's own value when that is truthy, and otherwise `anonymous`, `no-email@example.com` or `Anonymous User` |
| FeedbackPage.HighlightFollowsHover | recipe-frontend/src/app/dashboard/feedback/page.js:99 | while hovering the highlight ignores the rating; otherwise the stars up to the rating are lit |
| FeedbackPage.RatingLabel | recipe-frontend/src/app/dashboard/feedback/page.js:109 | no rating reads `Select rating`; any other label is non-empty and ends in `s` exactly when the rating is not 1 |
| FeedbackPage.RatingLabels | recipe-frontend/src/app/dashboard/feedback/page.js:109 | for every rating other than 0, the label is two words: the first reads back as the rating, the second is `star` for 1 and `stars` otherwise |
| FeedbackPage.Submit | recipe-frontend/src/app/dashboard/feedback/page.js:19-72 | no rating is blocked first, then a blank message; otherwise the feedback is posted. Success resets the form; a failure alerts the answer's `error`, a thrown error's message or the fallback |
| FeedbackPage.SuccessTimerFired | recipe-frontend/src/app/dashboard/feedback/page.js:61-64 | after the delay the notice clears and the app goes to the inventory |
| FeedbackPage.PageRequestAccepted | recipe-frontend/src/app/dashboard/feedback/page.js:40-48 | the page's request, with a rating from 1 to 5, builds a mail the handler accepts once delivery succeeds |
| EndToEnd.InventoryErrorsShowFallback | recipe-frontend/src/app/dashboard/inventory/page.js:28-90 | every back-end failure of the inventory, whatever its status and detail, shows the handler's fixed fallback on the page |
| EndToEnd.EntriesOfCategory | backend/app/routes/inventory.py:28-36 | an entry is in a category's list exactly when some row of that category produces it |
| EndToEnd.ShelfNames | backend/app/routes/inventory.py:28-36 | a name shows on a category's shelf exactly when some row has that category and name |
| EndToEnd.GroupedLists | backend/app/routes/inventory.py:28-36 | each group holds exactly its category's rows, in query order |
| EndToEnd.GroupedListAt | backend/app/routes/inventory.py:28-36 | the `i`-th group holds exactly its category's rows, in query order |
| EndToEnd.EntriesAreObjects | backend/app/routes/inventory.py:28-36 | every entry listed under a category is an object |
| EndToEnd.GroupedRenderable | backend/app/routes/inventory.py:28-36 | the grouped inventory is an object of lists of objects, as the page expects |
| EndToEnd.InventoryShelves | backend/app/routes/inventory.py:28-36 | the page builds one shelf per group, in group order, holding the group's item names |
| EndToEnd.ShelfCategories | backend/app/routes/inventory.py:28-36 | the tabs are exactly the rows' categories |
| EndToEnd.ShelvesDistinct | backend/app/routes/inventory.py:28-36 | no two tabs share a category, as the React keys require |
| EndToEnd.ShelfContents | backend/app/routes/inventory.py:28-36 | a name is in a group's list exactly when some row has that group's category and that name |
| EndToEnd.ShelfHolds | recipe-frontend/src/app/dashboard/inventory/page.js:145-157 | a name is on a tab exactly when some row has that tab's category and that name |
| EndToEnd.LoadsObject | recipe-frontend/src/app/dashboard/inventory/page.js:28-51 | a non-empty object from the back end is shown with its first key open |
| EndToEnd.InventoryOpensOnFirstCategory | recipe-frontend/src/app/dashboard/inventory/page.js:36-39 | with rows present the page opens on the first row's category |
| EndToEnd.FirstGroup | backend/app/routes/inventory.py:28-36 | the first key of the grouped inventory is the first row's category |
| EndToEnd.HandlerReturnsGroups | backend/app/routes/inventory.py:14-38 | with rows present the handler answers the grouped inventory |
| EndToEnd.ListOfAt | backend/app/routes/inventory.py:28-36 | with distinct categories, a category's list is the one stored beside it |
| EndToEnd.SavedRecipesNeverLoad | recipe-frontend/src/app/api/get-saved-recipes/route.js:14-35 | as the back end is written, the saved-recipes request hits 404 and the page shows the fallback error |
| EndToEnd.GenerationNeverSucceeds | recipe-frontend/src/app/api/recipe/route.js:15-37 | as the back end is written, recipe generation always answers 400 |
| EndToEnd.LoginRelaysToken | recipe-frontend/src/app/api/login/route.js:15-25 | a successful back-end login reaches the page unchanged: the `LoginResponse` body with status 200 |
| EndToEnd.RegisterRelaysProfile | recipe-frontend/src/app/api/register/route.js:15-26 | a successful back-end sign-up reaches the page as the same `UserOut` body, now with status 201 |
| EndToEnd.LoginRefusalHidden | recipe-frontend/src/app/api/login/route.js:17-32 | a refused back-end login always reaches the page as 400 "Login failed": FastAPI's `detail` is never shown |
| EndToEnd.RegisterRefusalHidden | recipe-frontend/src/app/api/register/route.js:17-33 | a refused back-end sign-up always reaches the page as 400 "Registration failed" |

## Left out

- The model's reply (Gemini), the YouTube API, SMTP delivery, JWT signing and verification, password hashing and the clock are parameters. Their inner workings are not modelled.
- The SQLAlchemy session is not modelled beyond the rows a query returns and the text of the `SQLAlchemyError` a query or commit raises. `get_db` in backend/app/database.py and the engine setup are not part of this model.
- Request-body validation by Pydantic, and its 422 answers, are not modelled. The handlers receive well-typed `UserCreate`, `UserLogin` and recipe bodies.
- The prompt text `generate_recipes` builds is not modelled; only the cleaning and parsing of the reply are.
- React rendering and CSS are left out, and so are icons, the sidebar, the landing page and the login page. Each page is modelled through the state it keeps and the requests it sends.
- Timers are left out: `setTimeout` delays become explicit "fired" steps.
- `/api/auth/logout` does not exist among the route handlers. `Session.Logout` therefore takes the reply as a parameter.
- The feedback page's `user` comes from a cookie that `JSON.parse` reads; the mail's `Sent at:` date text and the transport's credentials are not modelled.
- JavaScript string conversion of non-string JSON values inside template literals is modelled only for the values these handlers use.
- BackendApp.RouteTable: the documentation routes are those `FastAPI()` registers with its default URLs. They also answer `HEAD`, which no front-end call uses, so only their `GET` is modelled; their pages are not.
- AuthRoutes.VerifyRoute: the `catch` branch, a 400 with `verified: false` and the error's message, is not modelled. Nothing in the `try` block can throw: `request.cookies` always exists, and `get` gives a cookie or `undefined`.
- BackendRecipes.Unfence: its own contract states only that the text does not grow. What the substitution removes is stated by `UnfenceTickFree`, `FencedJson` and `PlainFence`.
- BackendInventory.Entries: its own contract states only counts. Which entries a category lists is stated by `EndToEnd.EntriesOfCategory`.
- BackendApp.Dispatched: the 307 redirect that FastAPI sends for a slash mismatch, and that `fetch` follows, is folded into one dispatch step. Its status and `Location` header are not modelled.
- BackendApp.Match: only route paths without parameters are modelled, as every route here has none.
- EndToEnd.InventoryOpensOnFirstCategory: starts from a user `get_current_user` has already resolved, rather than from a token.
- The code has no cap on the number of selected ingredients, no recipe-generation orchestrator, no cache of generated results and no timed notifications, so none is modelled.
- Json.FirstKey: takes the first member in insertion order. JavaScript's `Object.keys` lists integer-like keys such as `"2"` first, in numeric order, so an inventory with a category named `"2"` would open on it; category names are assumed not to be integer-like.
- InventoryPage.Shelves: the tabs follow insertion order; JavaScript's `Object.entries` would put integer-like category names first.
- InventoryPage.LoadInventory: the category that opens is the first in insertion order, not JavaScript's integer-keys-first order.
- EndToEnd.LoadsObject: relies on `Json.FirstKey`, so it holds only for objects without integer-like keys as JavaScript orders them.
- EndToEnd.InventoryShelves: the shelf order equals the group order only when no category name is integer-like.
- EndToEnd.InventoryOpensOnFirstCategory: the first row's category opens only when no category name is integer-like.
- Text.StringToInteger: reads only optionally signed decimal integers, and all-space text as 0. JavaScript's `Number` also reads fractions, exponents, `0x`/`0o`/`0b` literals and `Infinity`; those read as no number here, as the model's numbers are integers.
- FeedbackMail.NumberOf: JSON numbers are integers throughout the model, so non-integer ratings such as `4.5` (four filled stars, no empty ones) are not represented. Among strings only the integer literals are read; `"5.0"`, `"1e0"`, `"0x5"` and `"Infinity"` are taken as `NaN`, though JavaScript reads them as numbers.
- FeedbackMail.RatingAboveFiveFails: covers integer ratings only; a non-integer rating such as `5.5` is not represented.
- FeedbackMail.Stars: states the star string for integer counts only, for the same reason.
- BackendAuth.ClaimedUser: a `user_id` claim matches an id only when it is a number. SQL's coercion of a numeric string claim is not modelled; tokens this server signs always carry the integer id.
- Session.CheckAuth: the provider's and the dashboard layout's checks run concurrently in the browser; the model runs them one after the other.
- The recipe router imports `SavedRecipe` and `RecipeYouTubeVideo` from backend/app/models.py and `RecipeResponse`, `SavedRecipeOut` and other schemas from backend/app/schemas.py, none of which those files define, so the module raises `ImportError` when imported. The model takes those tables and schemas as they are used. Validation against `response_model` and the `YouTubeVideo(**…)` construction are not modelled either.

## Findings

| source | as written | input that shows it | evidently intended | confidence | as-written member | corrected member |
|---|---|---|---|---|---|---|
| backend/app/seed_inventory.py:18-24 | each listed name is queued when the table lacks it, but names already queued are not skipped and nothing is flushed before the next query, so a name listed under two categories is added twice and the single commit violates the unique `name` column of backend/app/models.py:20 | seed data `[("Vegetables", ["Tomato"]), ("Fruits", ["Tomato"])]` into an empty table | each name is added once, under its first category, and seeding twice changes nothing | not executed | Seed.SeedAsWritten, Seed.RepeatedNameBreaksSeed | Seed.SeedOnce, Seed.SeedKeepsNamesUnique, Seed.SeedIdempotent |
| backend/app/routes/recipe.py:191-208 | the recipe row is committed on its own before the video rows are added and committed; when the second commit fails the client gets 500, but the recipe stays stored without its videos | a save whose video commit raises `SQLAlchemyError` | a failed save stores nothing | not executed | BackendRecipes.SaveRecipeAsWritten, BackendRecipes.PartialSaveOnVideoFailure | BackendRecipes.SaveRecipe, BackendRecipes.SaveThenList |
| backend/app/main.py:3-10 | only the user and inventory routers are imported and included, so `/recipes/generate`, `/recipes/save` and `/recipes/saved` answer 404 and the front end's generate, save and saved-recipes calls all fail | `POST /recipes/generate` with any body and token | the recipe router is included alongside the others, and the tables and schemas it imports exist; as written the router module itself raises `ImportError` (see "Left out") | not executed | BackendApp.RecipeCallsNotFound, EndToEnd.SavedRecipesNeverLoad, EndToEnd.GenerationNeverSucceeds | BackendApp.RecipeCallsHandled, BackendApp.MountedOtherCallsHandled |
