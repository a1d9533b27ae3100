# Velora storefront: cart and wishlist engines, in Dafny

This project models the client-side state engines of the Velora e-commerce storefront and
the small decision functions around them. It then proves what they promise.

- **Cart engine** (`src/context/cart-context.tsx`). An ordered list of cart lines. The
  intents keep at most one line per product id when the loaded lines have distinct ids
  (a loaded snapshot may repeat one). It has four intents: add, remove, set quantity and clear.
  Count and total are derived from the lines. There are two persistence modes:
  - An anonymous visitor's cart is written through to the browser's local store.
  - A signed-in user's cart is mirrored to the remote `cart_items` table, one operation per
    intent, keyed on the (cart, product) pair.
  - Changing identity swaps the lines on show. Signing out reloads the local store.
    Signing in finds or creates the user's remote cart and loads its rows.
- **Wishlist engine** (`src/context/wishlist-context.tsx`). A set of saved product ids.
  `toggle` flips membership optimistically and sends one delete or insert.
- **Route guard** (`src/lib/supabase/middleware.ts`). Sends anonymous requests for
  `/admin`, `/profile` and `/checkout` to `/login`.
- **Admin navigation** (`src/app/admin/AdminShell.tsx`). The link table and the test that
  highlights the current link.
- **Environment check** (`src/lib/supabase/config.ts`). Validates the backend URL and key.
- **Wishlist page** (`src/app/wishlist/page.tsx`). Normalises the joined category and
  guards the load.

## Layout

| file | module | contents |
|---|---|---|
| `common.dfy` | `Common` | `Option`, id types, the `startsWith` test |
| `cart_lines.dfy` | `CartLines` | lines, the four next-list steps, count and total, their lemmas |
| `local_cart.dfy` | `LocalCart` | the local store and `loadLocalCart` / `saveLocalCart` |
| `remote_cart.dfy` | `RemoteCart` | row projection, mirrored operations, the remote table and the agreement lemmas |
| `cart_engine.dfy` | `CartEngine` | `class Cart`, its intents and its identity transitions |
| `wishlist.dfy` | `Wishlist` | the flip, the remote wishlist table, `class WishlistEngine` |
| `route_guard.dfy` | `RouteGuard` | `updateSession`'s redirect decision |
| `admin_nav.dfy` | `AdminNav` | `links` and `isActive` |
| `supabase_env.dfy` | `SupabaseEnv` | `getSupabaseEnv` |
| `wishlist_page.dfy` | `WishlistPage` | `normalizeProduct` and the page's load effect |

Modelling choices:

- Prices are integer cents, so totals are exact.
- Quantities are unbounded integers. Nothing in the source forces them to be positive: a
  stored snapshot or a remote row may hold any number. `AllPositive` states the invariant
  the intents keep when it holds.
- The remote gateway does not exist in the model.
  - Its answers (the cart found, the cart created, the rows) are method parameters.
  - What would be sent to it is appended to `Cart.mirrorLog` or `WishlistEngine.remoteLog`.
  - `RemoteCart.Table` and `Wishlist.WishlistTable` model what the tables hold once those
    operations land, so that agreement between memory and the table can be stated.
- The local store is the field `localSnapshot` of type `LocalStore`. It can be missing, unparsable,
  not an array, or stored lines, so the fail-soft cases of `loadLocalCart` are explicit.
- Each asynchronous function is split at its first `await`.
  - `BeginFetch` covers the part up to the await: the loading flag goes up.
  - `CompleteFetch` covers the part after it: the answer is applied and the flag comes down.
  - `SignIn` runs the two in sequence.

Two behaviours of the code are easy to misread. The model follows the code in both:

- When the user has no remote cart and creating one fails, `fetchCart` throws before
  `setCartId` and `setItems`. The engine therefore keeps its previous lines and cart id;
  it does not empty the cart. In the model this is `CompleteFetch` with
  `found.None? && created.None?`.
- An error on the `cart_items` query is not checked. Its null data projects to an empty
  list.

## Model

| member | source | states |
|---|---|---|
| CartLines.Find | src/context/cart-context.tsx:114 | `find` by id gives nothing exactly when no line carries the id; a line found carries the id and is in the list |
| CartLines.FindFirst | src/context/cart-context.tsx:114 | `find` returns the first line carrying the id, also when a loaded cart repeats an id |
| CartLines.FindDistinct | src/context/cart-context.tsx:114 | in a list with distinct ids, `find` of a line's id returns that very line |
| CartLines.AddLineSpec | src/context/cart-context.tsx:114-117 | adding a present id raises only that line's quantity by 1, with length and order kept; an absent id is appended at the end with quantity 1 |
| CartLines.Bump | src/context/cart-context.tsx:116 | the map step keeps the length and every line's id in place (its effect per line is `BumpAt`) |
| CartLines.WithQuantity | src/context/cart-context.tsx:161 | the map step keeps the length and every line's id in place (its effect per line is `WithQuantityAt`) |
| CartLines.RemoveLine | src/context/cart-context.tsx:138 | the filter never lengthens the list and no line left carries the id |
| CartLines.AddLine | src/context/cart-context.tsx:114-117 | after an add some line carries the product's id; the length grows by one exactly when the id was absent |
| CartLines.UpdateLines | src/context/cart-context.tsx:156-161 | never lengthens the list; afterwards a line carries the id exactly when q ≥ 1 and one did before, so no line is inserted |
| CartLines.BumpAt | src/context/cart-context.tsx:116 | the map step changes exactly the line with the id, to quantity + 1 |
| CartLines.RemoveLineMembers | src/context/cart-context.tsx:138 | a line survives `removeItem(id)` exactly when it was present and carries another id |
| CartLines.RemoveLineAt | src/context/cart-context.tsx:138 | with distinct ids, removing line i's id gives the list with line i cut out, the rest in their original order |
| CartLines.RemoveLineAbsent | src/context/cart-context.tsx:138 | removing an absent id leaves the list as it was |
| CartLines.UpdateLinesSpec | src/context/cart-context.tsx:156-161 | a quantity below 1 acts exactly as `removeItem`; otherwise only the matching line's quantity is set, and an absent id inserts nothing |
| CartLines.WithQuantityAt | src/context/cart-context.tsx:161 | the map step sets exactly the matching line's quantity |
| CartLines.BumpKeepsDistinct | src/context/cart-context.tsx:116 | the add-existing step keeps ids pairwise distinct |
| CartLines.WithQuantityKeepsDistinct | src/context/cart-context.tsx:161 | the set-quantity step keeps ids pairwise distinct |
| CartLines.RemoveLineKeepsDistinct | src/context/cart-context.tsx:138 | the filter step keeps ids pairwise distinct |
| CartLines.NextKeepsDistinct | src/context/cart-context.tsx:111-187 | every intent keeps ids pairwise distinct |
| CartLines.RunKeepsDistinct | src/context/cart-context.tsx:111-187 | any sequence of intents keeps ids pairwise distinct |
| CartLines.AddRepeated | src/context/cart-context.tsx:114-117 | n adds of one product to an empty cart give exactly one line with quantity n |
| CartLines.CountAppend | src/context/cart-context.tsx:189-190 | count and total of two lists joined are the sums of their counts and totals |
| CartLines.AddLineAggregates | src/context/cart-context.tsx:114-117 | on distinct ids, an add raises the count by 1 and the total by the unit price of the line it lands on |
| CartLines.BumpAggregates | src/context/cart-context.tsx:116 | on distinct ids, bumping a present line raises count by 1 and total by its price |
| CartLines.RemoveLineAggregates | src/context/cart-context.tsx:138 | on distinct ids, a removal lowers count by the removed line's quantity and total by its price × quantity, and by nothing when the id is absent |
| CartLines.WithQuantityAggregates | src/context/cart-context.tsx:161 | on distinct ids, setting quantity q replaces that line's share of count and total by q and price × q |
| CartLines.Count | src/context/cart-context.tsx:189 | the sum of quantities; with positive quantities it is at least the number of lines |
| CartLines.Total | src/context/cart-context.tsx:190 | the sum of price × quantity; never negative when no price or quantity is |
| CartLines.NextKeepsPositive | src/context/cart-context.tsx:111-187 | if all quantities are positive, they stay positive after any intent; `updateQuantity` drops a line rather than store a quantity below 1 |
| CartLines.ScenarioTwoAThenB | src/context/cart-context.tsx:111-133 | adding A (10.00), A, then B (5.00) gives two lines with quantities 2 and 1, count 3 and total 25.00 |
| LocalCart.LoadLocalCart | src/context/cart-context.tsx:39-49 | a stored array loads as itself; a missing, unparsable or non-array entry loads as the empty list |
| LocalCart.SaveLocalCart | src/context/cart-context.tsx:51-56 | saving always leaves a stored array |
| LocalCart.SaveThenLoad | src/context/cart-context.tsx:39-56 | loading what was saved gives back the same lines |
| RemoteCart.FirstImage | src/context/cart-context.tsx:91 | `images?.[0]`: an image exactly when the list is present and non-empty, and then its first entry |
| RemoteCart.ProjectRows | src/context/cart-context.tsx:85-93 | the contract gives only a length bound: no more lines than rows (the lemmas below state the rest) |
| RemoteCart.ProjectRowsMembers | src/context/cart-context.tsx:85-93 | a line is in the projection exactly when some row carries a product and maps to it |
| RemoteCart.ProjectRowsAppend | src/context/cart-context.tsx:85-93 | the projection distributes over joined row lists, so it keeps row order |
| RemoteCart.ProjectRowsAllCarry | src/context/cart-context.tsx:85-93 | when every row carries a product, the projection maps row k to line k |
| RemoteCart.ApplyOp | src/context/cart-context.tsx:118-127 | a remote operation only touches rows of its own cart |
| RemoteCart.MirrorOp | src/context/cart-context.tsx:118-183 | the operation is for the engine's cart: an upsert exactly for an add, a delete exactly for a remove or a quantity below 1, a delete-all exactly for a clear, keyed on the intent's product |
| RemoteCart.MirrorOps | src/context/cart-context.tsx:111-187 | exactly one remote operation per intent |
| RemoteCart.QtyMapFind | src/context/cart-context.tsx:114 | the quantity view holds an id exactly when a line does, with the quantity `find` sees |
| RemoteCart.QtyMapBump | src/context/cart-context.tsx:116 | bumping raises the id's quantity in the view by 1 and nothing else |
| RemoteCart.QtyMapWithQuantity | src/context/cart-context.tsx:161 | setting a quantity changes only that id's entry in the view |
| RemoteCart.QtyMapRemove | src/context/cart-context.tsx:138 | removing drops exactly that id from the view |
| RemoteCart.QtyMapAppend | src/context/cart-context.tsx:117 | appending a new line adds exactly its id and quantity to the view |
| RemoteCart.AddUpsertMatchesLine | src/context/cart-context.tsx:118-125 | the upsert `addItem` sends is for (cart, product), and its quantity equals the line's new in-memory quantity |
| RemoteCart.MirrorKeepsAgreement | src/context/cart-context.tsx:111-187 | if the remote rows of the cart matched the lines before an intent, the mirrored operation makes them match the new lines |
| RemoteCart.RunKeepsAgreement | src/context/cart-context.tsx:111-187 | the same for any sequence of intents, and no other cart's rows change |
| RemoteCart.TwoAddsOneRow | src/context/cart-context.tsx:118-125 | two adds of a new product leave one remote row for it, with quantity 2 |
| RemoteCart.LostDeleteDiverges | src/context/cart-context.tsx:139-146 | if the delete a removal sends never lands, the table still holds the product the lines no longer do |
| RemoteCart.FetchedRows | src/context/cart-context.tsx:81-84 | every row the query returns for a cart carries a joined product the cart holds |
| RemoteCart.FetchedRowsProject | src/context/cart-context.tsx:81-93 | projecting the fetched rows gives back the table's quantity for every catalogued product of the cart |
| RemoteCart.FetchReadsTableBack | src/context/cart-context.tsx:81-93 | when every product of the cart is catalogued, the fetched lines agree exactly with the table's rows |
| CartEngine.Cart.CartCount | src/context/cart-context.tsx:189 | zero for an empty cart; with positive quantities at least the number of lines |
| CartEngine.Cart.CartTotal | src/context/cart-context.tsx:190 | zero for an empty cart; never negative when no price or quantity is |
| CartEngine.Cart.constructor | src/context/cart-context.tsx:59-61 | mount: no user, no cart id, not syncing, and the lines the local store loads as |
| CartEngine.Cart.AddItem | src/context/cart-context.tsx:111-133 | the lines become the add step's result; anonymous: snapshot = new lines, nothing sent; user with cart id: one mirrored upsert, snapshot kept; no cart id: memory only |
| CartEngine.Cart.RemoveItem | src/context/cart-context.tsx:135-152 | the lines become the filter step's result, with the same three-way persistence routing and one delete when mirrored |
| CartEngine.Cart.UpdateQuantity | src/context/cart-context.tsx:154-175 | a quantity below 1 goes through `RemoveItem`; otherwise the map step, with one update when mirrored; the same routing |
| CartEngine.Cart.ClearCart | src/context/cart-context.tsx:177-187 | the lines become empty, with one delete-all when mirrored and an empty snapshot when anonymous |
| CartEngine.Cart.SignOut | src/context/cart-context.tsx:102-108 | identity gone: cart id cleared, lines replaced by what the local store loads as |
| CartEngine.Cart.BeginFetch | src/context/cart-context.tsx:69-71 | with a user the syncing flag goes up; with none nothing happens |
| CartEngine.Cart.CompleteFetch | src/context/cart-context.tsx:72-99 | the found or created cart id is recorded and the lines become the projection of its rows, with no merge; if no cart could be had, lines and id stay; syncing ends false either way |
| CartEngine.Cart.SignIn | src/context/cart-context.tsx:69-104 | identity set, then the fetch: syncing is raised during the load and false after it; when a cart is found or created the remote lines replace the local ones, and if no cart could be had the lines and cart id stay |
| CartEngine.SignInDiscardsAnonymousCart | src/context/cart-context.tsx:69-133 | anonymous count 3 and total 25.00 for A, A, B; signing in to a new empty cart shows no lines |
| CartEngine.RemoveWhileSignedIn | src/context/cart-context.tsx:69-152 | a signed-in removal empties the lines and sends one delete for (cart, A); a lost delete leaves A remote, and the next fetch for the same user shows A again with quantity 2 |
| CartEngine.RefetchAgrees | src/context/cart-context.tsx:69-109 | a fetch for a signed-in user whose cart row is found, with every product of the cart in the catalogue, leaves the lines agreeing with the table's rows for the cart, the starting point `RunKeepsAgreement` needs |
| Wishlist.IdsOf | src/context/wishlist-context.tsx:35 | the id set has no more members than there are rows |
| Wishlist.IdsOfMembers | src/context/wishlist-context.tsx:35 | an id is in the set exactly when some row carries it, so duplicates collapse |
| Wishlist.Flip | src/context/wishlist-context.tsx:52-57 | the toggled id's membership is negated, every other id's membership kept |
| Wishlist.ToggleOp | src/context/wishlist-context.tsx:58-62 | the call is for (user, product), and it is a delete exactly when the product was saved |
| Wishlist.FlipTwice | src/context/wishlist-context.tsx:51-57 | two toggles of the same id restore the set |
| Wishlist.ToggleMirrors | src/context/wishlist-context.tsx:51-62 | if the table held the user's set, the call sent makes it hold the toggled set, and no other user's ids change |
| Wishlist.WishlistEngine.constructor | src/context/wishlist-context.tsx:22-23 | mount: no user, empty set, not loading, nothing sent; the invariant `Valid` (no user means an empty set) holds, and every method keeps it |
| Wishlist.WishlistEngine.IsInWishlist | src/context/wishlist-context.tsx:67 | membership of the product in the saved ids; under `Valid`, never true without a user |
| Wishlist.WishlistEngine.BeginFetch | src/context/wishlist-context.tsx:26-31 | with no user the set is emptied and loading left alone; with a user loading goes up |
| Wishlist.WishlistEngine.CompleteFetch | src/context/wishlist-context.tsx:32-40 | an answer replaces the set by the rows' ids (null data: empty); a thrown error keeps the set; loading ends false |
| Wishlist.WishlistEngine.SignIn | src/context/wishlist-context.tsx:26-45 | a new user refetches: when the query answers the set becomes the rows' ids, on a thrown error the set is kept; loading is false afterwards |
| Wishlist.WishlistEngine.SignOut | src/context/wishlist-context.tsx:26-29 | no user: the set is empty |
| Wishlist.WishlistEngine.Toggle | src/context/wishlist-context.tsx:47-65 | with no user nothing changes and nothing is sent; otherwise the set becomes the flip, `isInWishlist(p)` negates, and exactly one delete-or-insert is sent |
| RouteGuard.UpdateSession | src/lib/supabase/middleware.ts:38-65 | a redirect only ever goes to `/login` and only without a user; with a user every path passes, `/admin` included, no role checked |
| RouteGuard.Guarded | src/lib/supabase/middleware.ts:49-61 | the three guarded prefixes; every guarded path starts with `/` |
| RouteGuard.AnonymousRedirectedExactlyWhenGuarded | src/lib/supabase/middleware.ts:49-63 | without a user, a request is redirected to `/login` exactly when its path starts with `/admin`, `/profile` or `/checkout` |
| RouteGuard.CatchAllNeverApplies | src/lib/supabase/middleware.ts:38-46 | the catch-all condition is false for every pathname starting with `/` |
| RouteGuard.GuardIsPlainPrefix | src/lib/supabase/middleware.ts:49-63 | any path extending a guarded prefix is guarded too |
| RouteGuard.GuardExamples | src/lib/supabase/middleware.ts:49-65 | `/administrator` and `/checkout-x` redirect; `/products/lamp` and `/` pass; a user reaches `/admin` |
| AdminNav.IsActive | src/app/admin/AdminShell.tsx:27 | `isActive`; an active path always begins with the link's href |
| AdminNav.LinkTable | src/app/admin/AdminShell.tsx:11-16 | exactly four links: Dashboard, Products, Orders, Categories, with their hrefs |
| AdminNav.ActiveOnItself | src/app/admin/AdminShell.tsx:27 | a link is active on its own href |
| AdminNav.DashboardOnlyExact | src/app/admin/AdminShell.tsx:27 | the dashboard link is active exactly for `/admin` |
| AdminNav.ActiveBelow | src/app/admin/AdminShell.tsx:27 | any other link is active on every path below `href + '/'` |
| AdminNav.NoSeparatorNotActive | src/app/admin/AdminShell.tsx:27 | a path extending `href` without a `/` is not active for it |
| AdminNav.AtMostOneActive | src/app/admin/AdminShell.tsx:11-27 | on any path, at most one link of the table is highlighted |
| SupabaseEnv.GetSupabaseEnv | src/lib/supabase/config.ts:4-22 | URL error exactly when the URL is missing, empty or not `http`-prefixed; key error exactly when the URL is good and the key missing, empty or the placeholder; otherwise both returned unchanged |
| SupabaseEnv.EnvExamples | src/lib/supabase/config.ts:8-21 | a bad URL is reported even with a bad key; the placeholder and empty keys are refused; a good pair comes back as given |
| WishlistPage.NormalizeProduct | src/app/wishlist/page.tsx:22-33 | an array gives its first category or none when empty, a single category is kept, null or undefined gives none; every other field is copied |
| WishlistPage.NormalizeAll | src/app/wishlist/page.tsx:53 | the list keeps its length and row k is the normalisation of data row k |
| WishlistPage.LoadSavedProducts | src/app/wishlist/page.tsx:41-57 | no user or no saved id: empty list, not loading, no query; otherwise a query, the normalised rows when the data is an array and none otherwise, and loading ends |

## Left out

- Calls to the backend client and `createClient`. Their answers are parameters, and what they would send is an entry in a log.
- `localStorage` and JSON encoding. The store is an abstract value. Parse failures are the `Unparsable` and `NotAnArray` cases.
- LocalCart.SaveLocalCart: assumes every write lands. The source swallows a throwing `setItem` (storage full or disabled), after which the old entry stays. The write-through clause of `Cart.Valid`, the anonymous case of `Cart.PersistedOnce` and `SaveThenLoad` rest on this assumption. `Stored` also holds only well-typed lines, while the source's cast of the parsed JSON lets any array through.
- The server-side `typeof window === 'undefined'` early returns in `loadLocalCart` and `saveLocalCart`. The engine is modelled in the browser only.
- Ordering and races of the un-awaited mirror calls, and React's batching of state updates. Each intent is one atomic step on the current state.
- The same for `toggle`: `inList` is read from the rendered set while the update applies to the latest one. The model has one state, so it does not show a stale read.
- An identity change while a fetch is pending, and a rejection of `toggle`'s await. Neither is modelled.
- `persistLocal`. It is defined but never called.
- The mode effect re-running with an unchanged identity has no method of its own. It is `SignIn` called again with the same user, or `SignOut` called again. A refetch reads the table back (`RefetchAgrees`), and after a lost write that can differ from the lines in memory (`RemoveWhileSignedIn`).
- Floating-point prices and `toFixed` formatting. Prices are integer cents.
- The database's own filtering (`eq('user_id', …)`, `in('id', …)`). What comes back is a parameter and is not constrained to the requested keys.
- The `{ ...row }` spread in `normalizeProduct` copies any extra fields. Only the declared fields are modelled. A null first array element (`categories[0] ?? null`) is not modelled: the array holds categories only.
- Cookie handling in the middleware. It is framework plumbing.
- Rendering, the admin CRUD pages and server actions. They are UI and thin database wrappers.
- The checkout's projection of cart lines to order items. Order placement is network work.
