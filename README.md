# my-private-shopify: decision logic of the admin pages and API routes

This project models the decision logic of the my-private-shopify Next.js storefront/admin app and proves properties about it. It covers:

- **the client-side role gate** (`withRoleAuth`): it wraps every admin page and chooses between a loading screen, the page itself, and a "Checking permissions..." placeholder plus a redirect to `/unauthorized`. The per-page table of required roles is included.
- **the onboarding checklist of the store page**: six steps, a completed count and a rounded percentage. It also covers the page state that derives the six flags from the list endpoints' answers.
- **the store branding endpoint**: file-name validation, extension extraction, the storage path, the conditional update record, the status codes and the GET/405 dispatch.
- **the request handlers**: admin user management, review moderation, custom pages, order creation, and team create / invite / members / list. Each handler's method dispatch, required fields, defaults, the rows it writes, and its status codes are modelled.

JavaScript values are modelled as a `Value` datatype with JavaScript truthiness (module `Values`). The database, file storage, identity provider and mailer are not modelled. Each call to one of them becomes a parameter that holds the outcome it returned: `Db<T>` is data or an error, and `Outcome` is ok or an error. A handler returns a `Reply` that carries:

- the status code;
- the JSON body;
- the writes it issued (`Effect`: inserts, updates, deletions, uploads, auth-user creation and deletion, emails), in order.

A few parts change state step by step in the source, and these are imperative Dafny:

- the store page's React state is the class `AdminStores.StoresPage`, with one method per fetch callback;
- the branding POST branch reassigns `logoUrl` and fills `updates` field by field (`StoreBranding.Post`);
- the users PUT branch builds `updates` field by field (`AdminUsers.ProfileUpdates`);
- review moderation reassigns `update` through three `if`s (`ReviewModerate.Moderate`).

Everything else is pure functions and lemmas.

Files:

- `values.dfy`: JavaScript values, truthiness, `||` and destructuring defaults.
- `http.dfy`: requests, replies, collaborator outcomes and effects.
- `role_gate.dfy`, `admin_stores.dfy`, `store_branding.dfy`, `admin_users.dfy`, `review_moderate.dfy`, `custom_pages.dfy`, `order_create.dfy`: one module per core file.
- `teams.dfy`: the four team endpoints (`TeamCreate`, `TeamInvite`, `TeamMembers`, `TeamList`).

## Model

| member | source | states |
|---|---|---|
| RoleGate.UserRole | my-private-shopify/lib/useRole.ts:8 | the role is null exactly when nobody is signed in; otherwise it is the signed-in user's role |
| RoleGate.Redirect | my-private-shopify/lib/withRoleAuth.tsx:16-23 | the effect navigates exactly when the session has loaded and the role is not admitted (`Admits`, stated directly on the one-role-or-list argument), and always to `/unauthorized` |
| RoleGate.Render | my-private-shopify/lib/withRoleAuth.tsx:25-43 | the loading screen exactly while loading; the wrapped page exactly when loaded and admitted; the "Checking permissions..." placeholder exactly when loaded and not admitted |
| RoleGate.LoadingShowsNothing | my-private-shopify/lib/withRoleAuth.tsx:25-31 | while loading, the page is not rendered and no redirect is issued |
| RoleGate.RedirectIffPlaceholder | my-private-shopify/lib/withRoleAuth.tsx:16-41 | the redirect and the placeholder always agree: a redirect exactly when the placeholder is shown, none when the loading screen or the page is shown |
| RoleGate.NoRoleNeverRendered | my-private-shopify/lib/withRoleAuth.tsx:35-41 | without a role the page is never rendered, and once loaded the user is always sent to `/unauthorized`, whatever roles are required |
| RoleGate.SingleRoleIsOneElementList | my-private-shopify/lib/withRoleAuth.tsx:33 | a single required role renders and redirects exactly as the one-element list of that role |
| RoleGate.AdminPageAccess | my-private-shopify/pages/admin/users.tsx:323 | with the roles each admin page passes (`super_admin` alone for users; `super_admin` or `store_admin` for the dashboard, stores, orders, products, customers, teams and analytics pages), a loaded user sees a page exactly when a super admin, or a store admin on any page but users |
| AdminStores.Steps | my-private-shopify/pages/admin/stores.tsx:7-50 | exactly six steps, in the order products, customers, team, branding, payments, orders, each done exactly when its flag is raised |
| AdminStores.CountDone | my-private-shopify/pages/admin/stores.tsx:51 | the count of done steps is at most the number of steps, equals it exactly when every step is done, and is zero exactly when none is |
| AdminStores.CompletedCountsFlags | my-private-shopify/pages/admin/stores.tsx:51 | the completed count is the number of raised flags |
| AdminStores.Percent | my-private-shopify/pages/admin/stores.tsx:52 | the percentage is the whole number nearest to 100 · completed / 6 (within half a unit) |
| AdminStores.PercentRange | my-private-shopify/pages/admin/stores.tsx:52 | for 0..6 completed steps the percentage is at most 100; it is 100 exactly at six and 0 exactly at zero |
| AdminStores.PercentMonotone | my-private-shopify/pages/admin/stores.tsx:52 | more completed steps never give a lower percentage |
| AdminStores.ProgressExtremes | my-private-shopify/pages/admin/stores.tsx:51-52 | progress is 100% exactly when all six flags are raised, and 0% exactly when none is |
| AdminStores.PaymentPendingCapsProgress | my-private-shopify/pages/admin/stores.tsx:149 | without payments, at most five steps are completed and the percentage is at most 83 |
| AdminStores.PageProgressCapped | my-private-shopify/pages/admin/stores.tsx:124 | on the page, whose payment flag is never raised, the checklist never passes five steps and 83% |
| AdminStores.StoresPage.constructor | my-private-shopify/pages/admin/stores.tsx:109-129 | no stores, all six flags lowered, an empty logo and the default brand colour |
| AdminStores.StoresPage.ReceiveStores | my-private-shopify/pages/admin/stores.tsx:116 | the store list becomes the answer's list, or empty when it is absent |
| AdminStores.StoresPage.RefreshOnboarding | my-private-shopify/pages/admin/stores.tsx:131-158 | requests are sent exactly when the checklist is shown (a store exists) and a user is signed in; without them nothing changes; otherwise the products, customers, orders and branding requests go for the first store, the teams request goes for the user, and payments stay unset |
| AdminStores.StoresPage.ReceiveProducts | my-private-shopify/pages/admin/stores.tsx:136 | the products step is done exactly when the list is non-empty |
| AdminStores.StoresPage.ReceiveCustomers | my-private-shopify/pages/admin/stores.tsx:139 | the customers step is done exactly when the list is non-empty |
| AdminStores.StoresPage.ReceiveTeams | my-private-shopify/pages/admin/stores.tsx:143 | the team step is done exactly when the user is in more than one team |
| AdminStores.StoresPage.ReceiveOrders | my-private-shopify/pages/admin/stores.tsx:147 | the orders step is done exactly when the list is non-empty |
| AdminStores.StoresPage.ReceiveBranding | my-private-shopify/pages/admin/stores.tsx:153-157 | the branding step is done exactly when a logo URL is present, whatever the colour; a present logo and colour replace the preview, absent ones leave it |
| AdminStores.StoresPage.ReceiveBrandingSaved | my-private-shopify/pages/admin/stores.tsx:217-223 | a failed save changes nothing; a successful one decides the branding step by the returned logo URL and shows that URL when present |
| StoreBranding.FieldValue | my-private-shopify/pages/api/stores/branding.ts:24 | a form field is truthy exactly when it is a non-empty string or a list of strings |
| StoreBranding.Join | my-private-shopify/pages/api/stores/branding.ts:33 | a one-element list converts to its element and an empty list to the empty string; the text is empty only for no value or a single empty one, so a multi-valued field always passes the non-empty check |
| StoreBranding.SelectedLogo | my-private-shopify/pages/api/stores/branding.ts:26-28 | without a logo, none; a single file is used exactly when its file path is truthy; for a list, its first file is used exactly when that file's path is truthy, and an empty list gives none |
| StoreBranding.FileExtension | my-private-shopify/pages/api/stores/branding.ts:37 | the extension holds no dot, is no longer than the name, and is shorter than the name whenever the name has a dot |
| StoreBranding.FileExtensionIsLastSegment | my-private-shopify/pages/api/stores/branding.ts:37 | the extension is a suffix of the name, preceded by a dot when shorter, so it is the segment after the last dot (or the whole name without a dot) |
| StoreBranding.ExtensionAfterLastDot | my-private-shopify/pages/api/stores/branding.ts:37 | a name with a dot is exactly its stem, a dot and its extension |
| StoreBranding.LogoPath | my-private-shopify/pages/api/stores/branding.ts:38 | the path lies in `store-logos/` and is longer than the folder, the store id and the dot together |
| StoreBranding.TrailingDotGetsPng | my-private-shopify/pages/api/stores/branding.ts:38 | a name ending in a dot is stored as `store-logos/<storeId>.png` |
| StoreBranding.LogoPathIdentifiesStore | my-private-shopify/pages/api/stores/branding.ts:37-38 | two stores never share a logo path, whatever their extensions, so an upsert only ever replaces the store's own logo |
| StoreBranding.Post | my-private-shopify/pages/api/stores/branding.ts:19-65 | each check, in order, answers 400 with nothing written: unparsable form, missing store id, invalid file name, empty store id text, non-string file path; a logo that passes them is uploaded first, with upsert, to the derived path; a failed upload gives 500 and no store update; otherwise the store record is updated, filtered by its id, with `logo_url` exactly when a logo was uploaded and its public URL is non-empty, `brand_color` exactly when a colour was sent, and nothing else; a failed update gives 500 "Failed to update store branding"; a successful one gives 200 and echoes both values (`logoUrl` null without a logo) |
| StoreBranding.Get | my-private-shopify/pages/api/stores/branding.ts:66-75 | 400 without a store id; 200 with the stored branding exactly when the read succeeds; a failed read gives 500 "Failed to fetch branding"; nothing is written |
| StoreBranding.Handle | my-private-shopify/pages/api/stores/branding.ts:18-79 | GET is the read above, methods other than GET and POST give 405; POST answers 200 exactly when the store update is reached and succeeds, writes nothing on 400, uploads the logo first when it passes the checks, and answers 500 on a failed upload or update |
| AdminUsers.Thrown | my-private-shopify/pages/api/admin/users.ts:99-101 | a thrown error becomes 500 with its message, or "Internal server error" when the message is empty; writes already issued stand |
| AdminUsers.ListUsers | my-private-shopify/pages/api/admin/users.ts:7-16 | the profiles with 200; a failed read is thrown, so 500 carries its message (or the generic one); nothing is written |
| AdminUsers.ProfileRow | my-private-shopify/pages/api/admin/users.ts:40-47 | the profile row has exactly id, email, full name, role and both timestamps; the full name defaults to `''` and the role to `'user'` |
| AdminUsers.CreateUser | my-private-shopify/pages/api/admin/users.ts:19-54 | a missing email or password gives 400 and creates nothing; otherwise the identity-provider user (email, password, confirmed, full name as metadata) is created first; its error is thrown as 500, a missing user gives 500 "User creation failed"; for a returned user the profile row is inserted, its error is thrown as 500, and its success gives 201 with the profile |
| AdminUsers.ProfileUpdates | my-private-shopify/pages/api/admin/users.ts:64-67 | the updates hold the timestamp `now`; they hold the email and role exactly when non-empty and the full name whenever it is supplied, even as `''`; each holds the value sent, and there is nothing else |
| AdminUsers.UpdateUser | my-private-shopify/pages/api/admin/users.ts:57-79 | a missing user id gives 400 with nothing written; otherwise one update of the profile with that id, carrying exactly the updates above; its error is thrown as 500, its success gives 200 with the updated row |
| AdminUsers.DeleteUser | my-private-shopify/pages/api/admin/users.ts:82-95 | a user id that is absent, empty or not a single string gives 400 with nothing deleted; otherwise the identity-provider user with that id is deleted; its error is thrown as 500, its success gives 200 "User deleted successfully" |
| AdminUsers.Handle | my-private-shopify/pages/api/admin/users.ts:4-103 | GET, POST and DELETE answer exactly as the branches above, PUT satisfies the same update contract as `UpdateUser`, any other method gives 405, and every 500 carries a non-empty message |
| ReviewModerate.Moderate | my-private-shopify/pages/api/review-moderate.ts:9-22 | a missing id or action gives 400 and no update; otherwise there is one update of `reviews` filtered by the id; `approve`, `hide` and `delete` set `status` to `approved`, `hidden` and `deleted`; any other action sets nothing; only `status` can be written, and no row is removed; 200 exactly when the update succeeds, and a failed update gives 500 "Failed to update review"; there is no method check |
| CustomPages.StoreSubdomain | my-private-shopify/pages/api/custom-pages.ts:12 | the body's subdomain when it is truthy, otherwise the query's |
| CustomPages.Handle | my-private-shopify/pages/api/custom-pages.ts:9-70 | a missing subdomain gives 400 for every method, before dispatch; unknown methods give 405; GET answers the bare rows, or 500 with the read's error; POST with title, slug and content inserts exactly the page row; PUT with an id and those fields updates exactly their changes; DELETE with an id removes; edits and deletions are filtered by the id and the subdomain; missing fields give 400 with nothing written; each write is followed by its answer as below |
| CustomPages.PageRow | my-private-shopify/pages/api/custom-pages.ts:29 | the inserted row is exactly the body's title, slug and content plus the store's subdomain |
| CustomPages.PageChanges | my-private-shopify/pages/api/custom-pages.ts:43 | the changes are exactly the body's title, slug and content; the store is never changed |
| CustomPages.AfterWrite | my-private-shopify/pages/api/custom-pages.ts:30-36 | the write is recorded; a failed write gives 500 with its error message; a successful one gives 200 with the re-read `{pages}` |
| CustomPages.WritesScopedToStore | my-private-shopify/pages/api/custom-pages.ts:44-60 | every edit or deletion is filtered by the requesting store's non-empty subdomain |
| OrderCreate.OrderRow | my-private-shopify/pages/api/orders/create.ts:23 | the order row has exactly store id, user id, total and status; the customer's email is not stored; a falsy status is stored as `pending` |
| OrderCreate.Notifications | my-private-shopify/pages/api/orders/create.ts:39-56 | the customer is always mailed first; the owner is mailed second, exactly when the store has an owner email |
| OrderCreate.Handle | my-private-shopify/pages/api/orders/create.ts:11-59 | non-POST gives 405; a falsy store id, user id, total or customer email gives 400, with nothing written; a valid request inserts the order row; an insert error or missing row gives exactly 500 with only that insert and no email; otherwise 200 with the order, whatever becomes of the emails, after the insert and the notifications |
| OrderCreate.AdminOrderForm | my-private-shopify/pages/admin/orders.tsx:48 | the body the admin order form posts carries no customer email |
| OrderCreate.AdminOrderFormAlwaysRejected | my-private-shopify/pages/api/orders/create.ts:17 | every order the admin order form submits is answered 400 "Missing required fields", with nothing written |
| OrderCreate.ZeroTotalRejected | my-private-shopify/pages/api/orders/create.ts:17 | a total of 0 is rejected with 400 |
| TeamCreate.CreatorMembership | my-private-shopify/pages/api/teams/create.ts:31-38 | the creator joins the new team (its id) as `admin`, invited by themself, and the row holds nothing else |
| TeamCreate.Handle | my-private-shopify/pages/api/teams/create.ts:9-45 | non-POST gives 405; a missing name or user id gives 400; a valid request always inserts the team row first, with `created_by` set to the user; a failed team insert gives exactly 500 "Failed to create team" and no membership insert; a created team is followed by the creator's membership insert; its failure gives 500 with its own message, and the team row is not removed; 200 with the team exactly when the request is valid and both inserts succeed |
| TeamInvite.InviteRole | my-private-shopify/pages/api/teams/invite.ts:14 | the role defaults to `member` only when absent |
| TeamInvite.Handle | my-private-shopify/pages/api/teams/invite.ts:9-45 | non-POST gives 405; a missing team id, email or inviter gives 400; an email with no profile gives 404 and no insert; a found user is always inserted with the membership row below; an insert error gives 500 "Failed to add user to team.", success gives 200 |
| TeamInvite.InviteMembership | my-private-shopify/pages/api/teams/invite.ts:31-38 | the row is exactly the team id, the found user's id, the role (defaulted) and the inviter |
| TeamMembers.ProfileEmail | my-private-shopify/pages/api/teams/members.ts:32 | the profile's email when it is truthy; `''` without a linked profile or without a truthy email |
| TeamMembers.Flatten | my-private-shopify/pages/api/teams/members.ts:30-34 | one member per row, in row order, each being the row's id, its profile email and its role |
| TeamMembers.Handle | my-private-shopify/pages/api/teams/members.ts:9-36 | non-GET gives 405, a missing team id gives 400, and a query error gives 500; otherwise 200 with the flattened rows, and no members for null data; nothing is written |
| TeamList.PresentTeams | my-private-shopify/pages/api/teams/list.ts:31 | the result is no longer than the memberships, every entry is truthy, and the result holds exactly the memberships' truthy teams |
| TeamList.PresentTeamsAppend | my-private-shopify/pages/api/teams/list.ts:31 | the teams keep the memberships' order (the filter distributes over concatenation) |
| TeamList.NoNullTeamKeepsAll | my-private-shopify/pages/api/teams/list.ts:31 | when no team is null, nothing is dropped |
| TeamList.TwoTeamsNeedTwoMemberships | my-private-shopify/pages/admin/stores.tsx:143 | the store page's "more than one team" needs two memberships with a present team |
| TeamList.Handle | my-private-shopify/pages/api/teams/list.ts:9-33 | non-GET gives 405, a missing user id gives 400, and a query error gives 500; otherwise 200 with the memberships' present teams, and an empty list for null data; nothing is written |

## Left out

- Rendering, styles, forms and the `fetch` chains of the React pages are not modelled. The store page's state is modelled through its fetch callbacks. Each callback is a method, and they may be called in any order, which stands for the asynchronous arrival of answers.
- The asynchronous session subscription (`lib/AuthContext.tsx`) is not modelled. The role gate takes `loading` and the user as inputs.
- Supabase queries, storage uploads, `formidable` parsing, the file stream and nodemailer are not modelled. Each is a parameter that holds its outcome. Reads are not recorded as effects; only writes, uploads, auth-user changes and emails are.
- Email subjects and bodies are not modelled, nor is the upload's content type (the file's MIME type) or the uploaded bytes. None affects any status or stored value.
- Email send outcomes are not parameters: the order handler swallows both send errors.
- `new Date().toISOString()` is one `now` parameter. The two timestamps of a new profile are therefore equal in the model, while the source reads the clock twice.
- The public URL of an uploaded logo is a parameter (`publicUrl`). Storage derives it from the path.
- JavaScript numbers are reals. `NaN` and floating-point rounding are not represented. The checklist percentage uses exact integer rounding, which matches `Math.round` for the seven possible values.
- Role values outside the three-role enum (`super_admin`, `store_admin`, `user`) are not represented.
- A request whose body is absent is not modelled: the handlers destructure `req.body`, and an absent body would throw.
- No server-side authorization is modelled, because none exists. The user-management endpoint checks no role, and the users page's self-protection is UI only.
- The pass-through handlers are not modelled. They hold one presence check and one database call, the same pattern as the modelled handlers: product, customer and store creation; the order, customer and store lists; store products and store branding reads; reviews; email sending; signup.
- Pricing, discounts and order-status transitions are not modelled. No calculation or state machine for them exists in the code.
- StoreBranding.Handle: its POST case repeats only the status, upload and failure clauses of `StoreBranding.Post`, which it calls; the written store record is stated on `StoreBranding.Post` alone.
