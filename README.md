# Dashboard core, modelled in Dafny

This project models the logic behind the category and product admin
dashboard, without its markup. It covers:

- **Helpers** (`helpers.dfy`): the string and image-file validators, the
  category list filter (search term plus status filter) and the category
  statistics.
- **Config** (`config.dfy`): the API URL builder and the image-URL
  normaliser.
- **Api** (`api.dfy`): the HTTP wrapper that turns failed responses into
  `ApiError`s, and the login token check. It also covers the three response
  envelopes of the category list, the multipart parts sent by category
  create and update, the delete URL, and the two error classifiers. The
  network is an input: each call receives an `HttpOutcome`, which is either
  a response (status, body text, parsed JSON if the text is JSON) or a
  transport failure.
- **Toast** (`toast.dfy`): the notification queue, as a class holding the
  list of toasts and the id counter. The clock is a `now` parameter.
- **Subcategories** (`subcategories.dfy`): the subcategory store, as a class
  holding the list, `loading`, `error` and the last-fetch stamp. It covers
  the 30-second freshness guard, validation before any service call, the
  forced re-fetch after a successful mutation, and the mapping of a delete
  failure to a message. It also covers the category-scoped variant. Service
  calls are inputs, and the toasts a hook shows are kept in a `notices` log.
- **ProductsPage** (`products_page.dfy`): what a product row derives (name,
  active status, price, discount) and the ingredient and tag lists of the
  product form, to which an add never brings a duplicate. It also covers the form's submit guard chain
  and payload, and the table's empty-state text.
- **SubcategoryManager** (`subcategory_manager.dfy`): the subcategory
  modal's submit, the selection toggle, delete confirmation and the
  `useSubcategoryManager` hook. The hook resets the selection on a category
  change, clears it on delete and refreshes after mutations. The file also
  covers the `SubcategoryDisplay` lookup.

`wrappers.dfy` (Option and Result), `seqs.dfy` (an order-preserving filter,
subsequences, first match) and `text.dfy` (JavaScript `trim`, ASCII
`toLowerCase`, `includes`, decimal rendering) hold the shared building
blocks.

Modelling conventions:

- JavaScript `null`/`undefined` is `None`.
- A thrown error is a `Failure` of a `Result`.
- A string is truthy when present and non-empty.
- An id or number is truthy when present and non-zero.
- Prices are integer cents.

## Model

| member | source | states |
|---|---|---|
| Helpers.IsEmpty | src/utils/helpers.js:7-9 | true exactly when the string is absent or consists only of white space |
| Helpers.ValidateImageFile | src/utils/helpers.js:25-42 | valid iff a file is given, its type is one of the four image types and its size is at most 10 MiB; an absent file gets the no-file error; the type is checked before the size |
| Helpers.FilterCategories | src/utils/helpers.js:68-82 | the result is an order-preserving subsequence of the input; it holds exactly the categories matching both the case-insensitive name search and the status filter; 'active' keeps only `ativo == true`, 'inactive' only `ativo == false`; every copy of a matching category is kept and no copy of another |
| Helpers.FilterCategoriesEmptySearch | src/utils/helpers.js:70-78 | an empty search with a filter that is neither 'active' nor 'inactive' returns the list unchanged |
| Helpers.MissingStatusMatchesNoStatusFilter | src/utils/helpers.js:73-78 | a category without `ativo` appears under neither the 'active' nor the 'inactive' filter |
| Helpers.FilterCategoriesIgnoresCase | src/utils/helpers.js:71 | lower-casing the search term first gives the same result |
| Helpers.RoundedPercentage | src/utils/helpers.js:94 | (exact arithmetic; see ## Left out) the percentage is 0 for an empty list and never above 100; otherwise it is the nearest integer to 100·part/whole with halves rounded up, and 100 when every category is active |
| Helpers.CalculateCategoryStats | src/utils/helpers.js:90-102 | total is the length, active is the number with `ativo == true`, active + inactive = total, and the percentage has the rounding bounds above; 100 when all are active |
| Helpers.StatsAgreeWithActiveFilter | src/utils/helpers.js:91-93 | the active count equals the number of rows the 'active' filter shows for an empty search |
| Config.BuildApiUrl | src/utils/config.js:36-38 | the URL is `http://localhost:8080/api/v1` followed by the endpoint: it starts with that root and what follows is exactly the endpoint |
| Config.BuildApiUrlInjective | src/utils/config.js:36-38 | distinct endpoints give distinct URLs |
| Config.GetImageUrl | src/utils/config.js:41-51 | null exactly for an absent or empty input; an input already starting with `http://` or `https://` is returned unchanged; any other input gets `http://` prepended; every result has a scheme |
| Config.GetImageUrlIdempotent | src/utils/config.js:41-51 | normalising twice equals normalising once |
| Api.ErrorFromResponse | src/services/api.js:32-45 | (intended; see ## Findings) the error carries the response status and a non-empty message; a JSON body supplies `message` (else `Erro <status>`) and `errorCode` (else none); a body that is not JSON supplies its text, or `Erro <status>` when empty |
| Api.MakeRequest | src/services/api.js:24-56 | (intended; see ## Findings) success exactly for a 2xx response, which is returned unchanged; any other response fails with its own status, and exactly with `ErrorFromResponse` of it; a transport failure becomes the `NETWORK_ERROR` error with status 0 |
| Api.MakeRequestAsWritten | src/services/api.js:36-55 | as written, a failed response whose body is not JSON, or is JSON `null`, ends as the network error |
| Api.TextErrorBodyLostAsWritten | src/services/api.js:36-43 | a 500 with a plain-text body: the code as written reports status 0 and the connection message, the intended wrapper reports 500 and the text |
| Api.MakeRequestAgreesAsWritten | src/services/api.js:24-56 | both versions agree on every outcome except a failed response without a readable JSON body |
| Api.ReadJson | src/services/api.js:76 | reading the body succeeds exactly when it is JSON, and yields that value |
| Api.Login | src/services/api.js:65-84 | success only for a 2xx JSON body with a truthy `accessToken`; a 2xx JSON body with one is returned as the result; a 2xx body without one fails with status 200 and code `NO_TOKEN`; a 2xx body that is not JSON fails with the JSON syntax error, and a JSON `null` body with the null-property error; request failures pass through |
| Api.UnwrapCategories | src/services/api.js:104-112 | the paged `success`/`data.content` array takes priority, then a top-level `content` array, then a bare array, else the empty list; only a `null` body fails |
| Api.EnvelopeShapesAgree | src/services/api.js:105-112 | the same list wrapped in each of the three envelopes comes out the same |
| Api.UnknownEnvelopeIsEmpty | src/services/api.js:105-112 | a body of no known shape yields the empty list |
| Api.FetchCategories | src/services/api.js:94-116 | request failures pass through as `ApiError`s; a 2xx JSON body gives exactly what the envelope chain makes of it, and only such a body succeeds; a 2xx body that is not JSON fails with the JSON syntax error |
| Api.FormData.constructor | src/services/api.js:124 | a new form has no parts |
| Api.FormData.Append | src/services/api.js:129-130 | one part is added at the end and the earlier parts are kept |
| Api.CreateCategory | src/services/api.js:121-145 | a POST to the categories URL with the bearer token and exactly the parts `dados` (the JSON payload) and `imagem`, in that order; the `imagem` part is the file when given, else the text `undefined`; the result is the response's JSON or the request's failure; a `null` payload fails with the null-property error before any request is built |
| Api.UpdateCategory | src/services/api.js:150-178 | a PUT with part `dados`, plus `imagem` only when a file is given; success exactly when the request succeeds, reported as `true`; a `null` payload fails with the null-property error before any request is built |
| Api.DeleteCategoryUrl | src/services/api.js:186-188 | the URL starts with the API root, the rest is the delete endpoint, `/` and the id, and it ends with the id |
| Api.DeleteCategory | src/services/api.js:183-198 | succeeds, with `true`, exactly when the request succeeds |
| Api.IsCategoryWithProductsError | src/services/api.js:204-206 | true exactly when the error's code is `C.ITDx0001`, which only an `ApiError` can carry |
| Api.IsAuthError | src/services/api.js:211-214 | true for an `ApiError` with status 401 or 403 and false for every other status and for errors that are not `ApiError`s, so never for a 2xx status or the network error |
| Api.AuthErrorIffAuthStatus | src/services/api.js:211-214 | (intended; see ## Findings) a failed request is an authentication error exactly when the server answered 401 or 403 |
| Api.AuthErrorLostAsWritten | src/services/api.js:36-55 | as written, a 401 or 403 whose body is not JSON ends as the network error, which `isAuthError` rejects, while the intended wrapper reports it as an authentication error |
| Api.CategoryWithProductsRecognised | src/services/api.js:204-206 | a failed response whose JSON `errorCode` is `C.ITDx0001` is recognised as the category-with-products error, whatever its status |
| Api.NetworkErrorIsNotClassified | src/services/api.js:204-214 | the network error is neither an authentication nor a category-with-products error |
| Toast.IncreasingSerialsAreDistinct | src/hooks/useToast.js:15-18 | toasts whose counter values increase along the list have pairwise distinct ids |
| Toast.RemoveId | src/hooks/useToast.js:47-50 | removal keeps an order-preserving subsequence that has no toast with the id and keeps every other toast |
| Toast.RemoveAbsentIdIsNoOp | src/hooks/useToast.js:47-50 | removing an id that is not listed changes nothing |
| Toast.RemoveIdIdempotent | src/hooks/useToast.js:47-50 | removing the same id twice equals removing it once |
| Toast.RemoveIdDeletesOne | src/hooks/useToast.js:47-50 | with distinct ids, removing the id of the toast at position k deletes exactly that toast and keeps the rest in order |
| Toast.Sweep | src/hooks/useToast.js:79-84 | the sweep keeps an order-preserving subsequence: every permanent toast (duration ≤ 0) and every toast younger than its duration, and nothing else |
| Toast.ExpiredToastIsSwept | src/hooks/useToast.js:80-83 | a timed toast is gone after a sweep at or after `createdAt + duration` |
| Toast.SweepsCompose | src/hooks/useToast.js:76-88 | a sweep at an earlier time followed by one at a later time equals the later sweep alone |
| Toast.ToastQueue.constructor | src/hooks/useToast.js:11-12 | the queue starts empty with the counter at 0 |
| Toast.ToastQueue.GenerateId | src/hooks/useToast.js:15-18 | the counter grows by exactly one and the new id is that of no listed toast |
| Toast.ToastQueue.AddToast | src/hooks/useToast.js:21-44 | exactly one toast is appended with the given message, type (default info), duration (default 4000) and time; earlier toasts are kept; the new id is the time with the incremented counter; ids stay distinct; a removal timer is scheduled exactly when the duration is positive |
| Toast.ToastQueue.Show | src/hooks/useToast.js:59-73 | the typed shortcuts append one toast of their type, with the default duration when none is given, under the id of the time and the incremented counter; a timer is scheduled exactly when that duration is positive |
| Toast.ToastQueue.RemoveToast | src/hooks/useToast.js:47-50 | the list becomes `RemoveId` of the old list and the queue invariant is kept |
| Toast.ToastQueue.ClearAllToasts | src/hooks/useToast.js:53-56 | the list becomes empty |
| Toast.ToastQueue.SweepExpired | src/hooks/useToast.js:76-88 | the list becomes `Sweep` of the old list at the given time and the queue invariant is kept |
| Toast.ToastQueue.HasToasts | src/hooks/useToast.js:93 | true exactly when the list is non-empty |
| Subcategories.ShouldFetch | src/hooks/useSubcategories.js:24-28 | true without a previous fetch stamp; otherwise true exactly when more than 30000 ms have passed |
| Subcategories.FreshWithinWindow | src/hooks/useSubcategories.js:24-28 | at most 30000 ms after a fetch, exactly 30 s included, the cache counts as fresh |
| Subcategories.ErrorText | src/hooks/useSubcategories.js:51 | the error's own message when it has one, else the given fallback |
| Subcategories.ValidateSubcategory | src/hooks/useSubcategories.js:84-89 | passes exactly when the name is present and not blank and the category id is truthy; a blank or missing name is reported first, a missing category second |
| Subcategories.DeleteErrorMessage | src/hooks/useSubcategories.js:158-165 | the dependent-products message exactly for code `S.ITDx0001`; otherwise the error's message when non-empty; otherwise the generic delete error |
| Subcategories.FindById | src/hooks/useSubcategories.js:174 | none exactly when no element has the id; otherwise the first element with that id |
| Subcategories.ByCategory | src/hooks/useSubcategories.js:179-181 | an order-preserving subsequence holding exactly the elements whose `categoryId` or `categoria_id` equals the argument, each with all its copies |
| Subcategories.SubcategoryStore.constructor | src/hooks/useSubcategories.js:14-17 | an empty list, not loading, no error, no fetch stamp |
| Subcategories.SubcategoryStore.FetchSubcategories | src/hooks/useSubcategories.js:31-57 | the service is called exactly when forced or the cache is stale, and otherwise nothing changes; success replaces the list and stamps the time; failure keeps list and stamp, sets the error and shows it; loading is false after both |
| Subcategories.SubcategoryStore.FetchSubcategoriesByCategory | src/hooks/useSubcategories.js:60-76 | without a category id nothing is called and the result is empty; a failure yields the empty list and an error toast |
| Subcategories.SubcategoryStore.CreateSubcategory | src/hooks/useSubcategories.js:79-107 | the service is called exactly when validation passes; a validation failure returns its message, adds an error toast and changes nothing else; a service failure returns the error text (else the create-error message), adds one error toast and changes nothing else; a success returns success, leaves the store not loading and adds the create-success toast, then the forced re-fetch decides the rest: on success the new list, stamp and no error; on failure the old list and stamp, its error, and one more error toast |
| Subcategories.SubcategoryStore.UpdateSubcategory | src/hooks/useSubcategories.js:110-138 | as create, with the update-success and update-error messages: a validation or service failure adds one error toast and changes nothing else; a success adds the success toast, and the re-fetch sets list, stamp, error and any further toast |
| Subcategories.SubcategoryStore.DeleteSubcategory | src/hooks/useSubcategories.js:141-170 | a failure returns and shows `DeleteErrorMessage` of the error and changes nothing else; a success adds the delete-success toast, and the forced re-fetch sets list, stamp, error and any further toast as in create |
| Subcategories.SubcategoryStore.GetSubcategoryById | src/hooks/useSubcategories.js:173-175 | the first listed subcategory with that id, or none exactly when no listed one has it |
| Subcategories.SubcategoryStore.GetSubcategoriesByCategory | src/hooks/useSubcategories.js:178-182 | an order-preserving subsequence of the list holding exactly the subcategories of that category, each with all its copies |
| Subcategories.SubcategoryStore.IsEmpty | src/hooks/useSubcategories.js:223 | true exactly when not loading and the list is empty |
| Subcategories.CategorySubcategories.constructor | src/hooks/useSubcategories.js:244-246 | an empty list, not loading, no error |
| Subcategories.CategorySubcategories.Fetch | src/hooks/useSubcategories.js:251-272 | without a category id the list is emptied and nothing is called; success replaces the list; failure keeps it, sets the error (message or fallback) and shows it; loading is false after a call |
| Subcategories.CategorySubcategories.IsEmpty | src/hooks/useSubcategories.js:283 | true exactly when not loading and the list is empty |
| ProductsPage.DisplayName | src/pages/ProductsPage.js:110 | `nome`, else `name`, else `Sem nome`; never empty |
| ProductsPage.RowIsActive | src/pages/ProductsPage.js:111 | inactive exactly when `ativo` is false; a missing `ativo` counts as active |
| ProductsPage.RowPrice | src/pages/ProductsPage.js:112 | `preco`, else `price`, else 0 |
| ProductsPage.RowDiscount | src/pages/ProductsPage.js:113 | `precoDesconto`, else `discountPrice` |
| ProductsPage.HasDiscount | src/pages/ProductsPage.js:114 | a discount is shown exactly when the discount price is present, positive and strictly below the price |
| ProductsPage.DiscountNeedsHigherPrice | src/pages/ProductsPage.js:112-114 | a shown discount implies a price above it and above 1; no discount field means no discount |
| ProductsPage.AddEntry | src/pages/ProductsPage.js:306-314 | the trimmed input is appended when it is non-blank and not yet listed; otherwise the list is unchanged |
| ProductsPage.AddEntryKeepsNoDuplicates | src/pages/ProductsPage.js:325-333 | adding keeps a duplicate-free list duplicate-free |
| ProductsPage.RemoveAt | src/pages/ProductsPage.js:317-322 | exactly the entry at the index is deleted and the rest keep their order; an index outside the list changes nothing |
| ProductsPage.RemoveAtKeepsNoDuplicates | src/pages/ProductsPage.js:336-341 | removing keeps a duplicate-free list duplicate-free, and the removed entry no longer occurs |
| ProductsPage.ValidateProductForm | src/pages/ProductsPage.js:347-367 | only the first failing check is reported, in the order name, description, category, price > 0, then image (only when creating); none exactly when all pass |
| ProductsPage.BuildPayload | src/pages/ProductsPage.js:369-375 | the payload carries the parsed price and category, the discount as given (null when empty), the name, both descriptions, the usage mode, ingredients, tags and active flag unchanged, and an id only when editing |
| ProductsPage.ValidFormHasPositivePrice | src/pages/ProductsPage.js:360-375 | a form that passes validation has a price and a category, and its payload's price is positive |
| ProductsPage.ProductModal.constructor | src/pages/ProductsPage.js:225-245 | the form starts from the given fields, duplicates included, with empty inputs and no image or error |
| ProductsPage.ProductModal.AddIngredient | src/pages/ProductsPage.js:306-314 | the ingredients become `AddEntry` of the old list and input; the input is cleared only when something was added; a duplicate-free list stays duplicate-free |
| ProductsPage.ProductModal.RemoveIngredient | src/pages/ProductsPage.js:317-322 | the ingredients become `RemoveAt` of the old list; a duplicate-free list stays duplicate-free |
| ProductsPage.ProductModal.AddTag | src/pages/ProductsPage.js:325-333 | the tags become `AddEntry` of the old list and input; the input is cleared only when something was added; a duplicate-free list stays duplicate-free |
| ProductsPage.ProductModal.RemoveTag | src/pages/ProductsPage.js:336-341 | the tags become `RemoveAt` of the old list; a duplicate-free list stays duplicate-free |
| ProductsPage.ProductModal.HandleSubmit | src/pages/ProductsPage.js:343-383 | a failing check sets its message and saves nothing; otherwise the payload is saved; the modal closes exactly when the save succeeds; a failed save shows its message or `Erro ao salvar produto` |
| ProductsPage.EmptyStateText | src/pages/ProductsPage.js:914-918 | shown exactly when nothing is listed and nothing is loading; the no-results text exactly when the search term is non-empty, otherwise `Nenhum produto cadastrado` |
| SubcategoryManager.ValidateModal | src/components/common/SubcategoryManager.js:119-127 | a blank name is reported first, a missing category second; passes exactly when neither |
| SubcategoryManager.ModalPayload | src/components/common/SubcategoryManager.js:129-133 | the saved name is the trimmed name, the category is kept, and the id is present only when editing |
| SubcategoryManager.ModalPayloadPassesStoreValidation | src/components/common/SubcategoryManager.js:129-133 | a payload built from a form that passed the modal's checks also passes the store's checks |
| SubcategoryManager.SubcategoryModal.constructor | src/components/common/SubcategoryManager.js:95-113 | the form starts from the given fields with no error |
| SubcategoryManager.SubcategoryModal.HandleSubmit | src/components/common/SubcategoryManager.js:115-141 | `onSave` is called only when the checks pass; a failed check sets its message; the modal closes exactly when `onSave` succeeds; a failed save shows its message or `Erro ao salvar subcategoria` |
| SubcategoryManager.HandleSelect | src/components/common/SubcategoryManager.js:352-361 | clicking the selected id yields no selection; clicking any other id selects it |
| SubcategoryManager.HandleSelectTwice | src/components/common/SubcategoryManager.js:352-361 | two clicks on the same subcategory restore no selection or that subcategory, and clear any other selection |
| SubcategoryManager.ManagerView.constructor | src/components/common/SubcategoryManager.js:296-300 | nothing awaits deletion, no dialog, not saving |
| SubcategoryManager.ManagerView.Select | src/components/common/SubcategoryManager.js:352-361 | the selection becomes `HandleSelect` of the old one, and is unchanged when the parent gave no selection callback |
| SubcategoryManager.ManagerView.AskDelete | src/components/common/SubcategoryManager.js:314-317 | the subcategory awaits confirmation and the dialog opens |
| SubcategoryManager.ManagerView.HandleConfirmDelete | src/components/common/SubcategoryManager.js:333-350 | with nothing awaiting deletion nothing changes; otherwise that id is deleted, the dialog closes whatever the result, and the selection is cleared exactly when it is the deleted id |
| SubcategoryManager.SubcategoryDisplay | src/components/common/SubcategoryManager.js:520-546 | a chip exactly when some listed subcategory has the id, showing the first such one's `name` if non-empty, else its `nome` if non-empty, else nothing; otherwise the `Nenhuma subcategoria` notice exactly when `showEmpty` is set |
| SubcategoryManager.ManagerHook.constructor | src/components/common/SubcategoryManager.js:549-553 | the hook starts with no selection |
| SubcategoryManager.ManagerHook.ChangeCategory | src/components/common/SubcategoryManager.js:556-558 | the selection resets to none exactly when the category id changes |
| SubcategoryManager.ManagerHook.SetSelected | src/components/common/SubcategoryManager.js:605 | the selection becomes the given id |
| SubcategoryManager.ManagerHook.GetSelectedSubcategory | src/components/common/SubcategoryManager.js:560-562 | the first listed subcategory with the selected id, or none exactly when there is no selection or no listed match |
| SubcategoryManager.ManagerHook.HandleCreate | src/components/common/SubcategoryManager.js:564-575 | the hook's category id is forced into the payload, so without a category nothing is refreshed; success exactly when that payload validates and the service succeeds; a failure returns the validation message or else the service's error text, adds one error toast and leaves the store otherwise unchanged; a success leaves the store as the store's create does; the category list is refreshed exactly on success (new list and no error, or the old list, its error and an error toast) and untouched otherwise |
| SubcategoryManager.ManagerHook.HandleUpdate | src/components/common/SubcategoryManager.js:577-585 | success exactly when the payload validates and the service succeeds; a failure returns the validation message or else the service's error text and leaves the store as its update does; the category list is refreshed exactly on success: emptied without a category, otherwise the new list, or the old list with its error and an error toast |
| SubcategoryManager.ManagerHook.HandleDelete | src/components/common/SubcategoryManager.js:587-599 | success exactly when the service succeeds; the failure text is `DeleteErrorMessage`; the store's state is that of its delete; the selection is cleared only on success with a matching id; the category list is refreshed exactly on success: emptied without a category, otherwise the new list, or the old list with its error and an error toast |

## Left out

- Rendering (all JSX, class strings and icons), and the pages and components
  with no logic beyond it (`Sidebar.js`, `DashboardPage.js`, `StatsCards.js`)
  are not modelled. `SystemStatus.js` is health-check polling over the
  network and a timer, and is not part of this model.
- The clock and timers are not modelled: `Date.now` is a `now` parameter,
  and the toast auto-removal timer is reported as a flag (`timerScheduled`)
  rather than run. The one-second sweep interval is one `SweepExpired` call
  per tick.
- `debounce`, `createImagePreview` (a `FileReader`), `generateTempId`
  (randomness) and `formatDateTime` (`Intl`) are left out: they are I/O,
  timers, randomness or locale formatting.
- Floating point is not modelled. Prices are integer cents and are taken as
  already parsed, so the `NaN` that `parseFloat` gives for non-numeric text
  (which passes the `<= 0` check) is not represented.
- Helpers.RoundedPercentage: the percentage is modelled as exact
  round-half-up of 100·active/total. The source computes
  `Math.round((active / total) * 100)` in doubles, where the product can
  land just below an exact half and round down: 23 of 40 active gives 57
  in the source and 58 here (likewise 29, 57 or 113 of 200). The model does
  not promise the source's value on such inputs; CalculateCategoryStats
  inherits the same difference.
- `toLowerCase` is modelled on ASCII letters only, and `trim` on the
  ECMAScript white-space characters; Unicode case mapping is left out.
- JSON numbers are integers. A `message` or `errorCode` field that is not a
  string is treated as absent.
- The browser's own error texts (`SyntaxError`, `TypeError`) are represented
  by fixed placeholder messages.
- React lifecycle is not modelled: effect dependency semantics, the
  `isMounted` guard, the fetch on mount, and overlapping in-flight fetches
  whose last answer wins. Each operation runs to completion before the next.
- The subcategory messages (`MESSAGES.SUBCATEGORY.*`) are not defined in
  `src/utils/constants.js`. They are abstract message values here, and the
  `TypeError` reading them would raise is not modelled.
- `subcategoryService`: src/hooks/useSubcategories.js:7 imports it from
  src/services/api.js, which does not export it. That file exports only
  `ApiError`, `authService`, `categoryService`,
  `isCategoryWithProductsError` and `isAuthError`. As written, every
  subcategory service call (useSubcategories.js:43, 66, 92, 123, 146, 262)
  throws a `TypeError` inside the hook's `try`, and the hook reports it as a
  failure. The model takes each service call's outcome as an input. A
  `Failure(OtherErr(..))` input is that `TypeError`; a `Success` input
  stands for a service module that exists. That module's own requests are
  therefore not modelled.
- `useProducts`, `useCategories` and the authentication context are not
  part of this model. Their calls are outcome inputs, and the token is a
  parameter.
- `clearError`, `hasSubcategories` and `hasError` of `useSubcategories` are
  one-line state readers and are not modelled. So are the component's
  `handleCreate`/`handleEdit`/`handleSave`, which only open the modal or
  forward to the hooks, and the forms' reset effects.
- `null` entries in the category list are not represented: a category is
  always a record. The source's optional chaining (`category?.nome`,
  `category?.ativo`) lets such an entry through without throwing, and an
  empty search with no status filter keeps it.
- The subcategory modal is modelled over an arbitrary `onSave` outcome. The
  component's own `handleSave` (SubcategoryManager.js:319-331) never
  rejects, because the store reports a failure as `{success: false}` and
  does not throw. So, wired as in the source, the modal closes even after a
  failed save.
- Api.CreateCategory: when no file is given, the `imagem` part holds the
  text `undefined`; a `null` file, which would send the text `null`, is not
  distinguished from a missing one.

## Findings

`Login`, `FetchCategories`, `CreateCategory`, `UpdateCategory` and
`DeleteCategory` are built on the corrected `Api.MakeRequest`, so their
error cases describe the intended wrapper.

| source | as written | input that shows it | evidently intended | confidence | as-written member | corrected member |
|---|---|---|---|---|---|---|
| src/services/api.js:36-43 | after `response.json()` fails on a non-JSON error body, `response.text()` reads a body that is already consumed and rejects; the outer handler turns that into `ApiError("Erro de conexão com o servidor", 0, "NETWORK_ERROR")` | a 500 response with body `Internal Server Error` | an `ApiError` with status 500 and the body text as message | high (not executed) | Api.MakeRequestAsWritten, Api.TextErrorBodyLostAsWritten, Api.AuthErrorLostAsWritten | Api.MakeRequest |
