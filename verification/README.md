# Buskoo storefront core in Dafny

Buskoo is a small electronics storefront built with Next.js. Customers
browse products by category and narrow the list with filters. They
simulate card installments and send purchase requests, which are also
kept in a local history. Administrators log in with a shared password.
They add products one at a time or import a spreadsheet into the
category's table. A service worker caches pages, assets and API answers
so that the site works offline.

This project models the logic behind those features and proves
properties of it:

- `installment.dfy`: the installment simulator. This is the gateway rate
  table and the three branches of the computation (nothing financed, even
  division, and the fixed-payment formula), computed over exact reals.
- `categories.dfy`: the map from category slug to database table used by
  both admin routes. The slug is lower-cased before the lookup.
- `product_insert.dfy`: `POST /api/admin/produtos`. These are its ordered
  checks, the normalisation of `image_url`, and the record it inserts.
- `xlsx_import.dfy`: `POST /api/admin/upload-xlsx`. These are the checks
  on the inputs, the per-row check (an incomplete row throws, so the
  whole import fails), and the record built from each row.
- `solicitacoes.dfy` and `admin_auth.dfy`: `POST /api/solicitacoes` and
  `POST /api/admin/auth`.
- `filters.dfy`: the filter panel's preferences. This covers the
  "active filters" test, clearing, toggling a brand, and the four input
  handlers.
- `storage.dfy`: `lib/storage.ts` as a class over the `localStorage`
  key/value map. It holds the request history, the per-category filter
  preferences and the timestamped data cache.
- `service_worker.dfy`: `public/sw.js` as a class over the browser's
  cache storage. This covers install (all-or-nothing precaching), activate
  (deleting every cache but the two current ones), and the four fetch
  strategies.
- `add_product_form.dfy`, `upload_form.dfy` and `request_modal.dfy`: the
  three forms as classes over their component state. The product form's
  body and the request dialog's body are fed to the routes they post to;
  the upload form's gate is matched with the import route's input check.
- `product_card.dfy`: the product card's name, description and image
  choice.
- `text.dfy`: the JavaScript string operations the core relies on
  (`trim`, `split`, `toLowerCase`, `toUpperCase`), JSON values with
  JavaScript truthiness, and an `Option` type.

Parsed JSON bodies are `Js.Value` trees. A field read from a non-object
gives `undefined`. A destructuring or property read of `null` throws, and
the routes answer that with their generic 500. Number-to-text conversion
and `parseFloat` are not modelled. They are parameters: `Js.NumberText`,
or a `string -> Option<real>` where `None` stands for `NaN`.

## Model

| member | source | states |
|---|---|---|
| Installment.GatewayRate | components/installment-simulator.tsx:16-29 | a rate of 5.99% to 18.79% for 1 to 12 installments, 0 for any other count |
| Installment.GatewayRateIncreasing | components/installment-simulator.tsx:16-29 | the table is strictly increasing in the number of installments |
| Installment.MonthlyRate | components/installment-simulator.tsx:40-41 | `i` is positive exactly for counts 1 to 12, zero otherwise |
| Installment.Financed | components/installment-simulator.tsx:37 | the financed amount is never negative; it is either 0 or price minus down payment, and at least the latter |
| Installment.BranchOf | components/installment-simulator.tsx:47-60 | nothing is financed exactly when the down payment covers the price; the annuity formula applies exactly when something is financed and the count is 2 to 12 |
| Installment.Calculate | components/installment-simulator.tsx:35-69 | the result reports the financed amount and the table rate of the count |
| Installment.PowAboveOne | components/installment-simulator.tsx:56-57 | `(1 + i)^n` is above 1 for a positive rate and n >= 1, so the divisor `fator - 1` is never zero |
| Installment.NothingFinancedResult | components/installment-simulator.tsx:47-50 | with nothing financed: no installment, the down payment is the total, and there is no interest |
| Installment.SimpleDivisionResult | components/installment-simulator.tsx:51-54 | with one installment or a count outside the table: the installments add up to the financed amount, the total is the price, and there is no interest |
| Installment.SingleInstallmentIgnoresRate | components/installment-simulator.tsx:51-54 | a single installment shows the 5.99% rate yet charges no interest |
| Installment.AnnuityInstallment | components/installment-simulator.tsx:56-57 | `f = (1+i)^n > 1`, and the installment `v` solves the annuity equation `v × (f - 1) = financed × f × i` |
| Installment.AnnuityFactors | components/installment-simulator.tsx:56 | at a positive rate, `f - 1 = i × s` for the geometric sum `s = 1 + (1+i) + … + (1+i)^(n-1)`, and `0 < s < n × f` |
| Installment.AnnuityRepaysMore | components/installment-simulator.tsx:56-58 | at a positive rate, n annuity installments repay strictly more than the amount financed |
| Installment.AnnuityResult | components/installment-simulator.tsx:55-60 | in the annuity branch the installment is the annuity of the financed amount at the table's monthly rate; total = down payment + n installments, interest = total - price |
| Installment.AnnuityChargesInterest | components/installment-simulator.tsx:55-60 | in the annuity branch the installments repay strictly more than the amount financed, and the interest is positive |
| Installment.TotalsIdentity | components/installment-simulator.tsx:47-60 | in every branch total = down payment + n × installment; with the down payment within the price, interest = total - price |
| Installment.ClampEntry | components/installment-simulator.tsx:111 | the down-payment input never exceeds the price and keeps a value within it as typed |
| Installment.ClampedTotals | components/installment-simulator.tsx:111 | with the clamped input, total paid minus interest is the price in every branch |
| Categories.TableFor | app/api/admin/produtos/route.ts:4-13 | a table exists exactly for the eight slugs after lower-casing, and it is "buskoo_" + slug |
| Categories.TableForIgnoresCase | app/api/admin/upload-xlsx/route.ts:29 | the lookup gives the same table for a category in any letter case |
| Categories.SlugsLowerAscii | app/api/admin/produtos/route.ts:4-13 | every slug is written in lower-case ASCII letters |
| Categories.EverySlugHasTable | components/admin/add-product-form.tsx:12-21 | every category the admin forms offer has its table |
| Text.Trim | components/request-modal.tsx:43 | `trim` gives an infix of the string: what it cuts from either end is whitespace, and what remains starts and ends with a non-whitespace character |
| Text.TrimDropsWhitespace | components/request-modal.tsx:43 | trimming the start and then the end keeps the slice of the string between the two whitespace runs it cuts |
| Text.TrimEmptyIff | components/request-modal.tsx:43 | a string trims to empty exactly when it is all whitespace |
| Text.TrimIdempotent | app/api/admin/upload-xlsx/route.ts:69 | trimming twice is trimming once |
| Text.Split | app/api/admin/upload-xlsx/route.ts:69 | `split` gives at least one piece, and no piece holds the separator |
| Text.JoinSplit | app/api/admin/upload-xlsx/route.ts:69 | joining the pieces of a split with the separator gives back the string |
| Text.SplitWithoutSeparator | app/api/admin/upload-xlsx/route.ts:69 | a string without the separator splits into itself alone |
| Text.TrimNonEmptyMembers | app/api/admin/upload-xlsx/route.ts:69 | `map(trim).filter(Boolean)` keeps exactly the non-empty trimmed pieces |
| Text.SplitTrimmed | app/api/admin/upload-xlsx/route.ts:69 | every URL kept is non-empty and has no surrounding whitespace |
| Text.SplitTrimmedMembers | app/api/admin/upload-xlsx/route.ts:69 | a string is kept ⟺ it is non-empty and is the trim of some piece of the split |
| Text.SplitTrimmedBlank | app/api/admin/upload-xlsx/route.ts:69 | pieces that are all blank give an empty list |
| Text.LowerChar | app/api/admin/upload-xlsx/route.ts:29 | `toLowerCase` adds 32 to A-Z and to À-Þ except ×, landing in a-z and à-þ; every other character is left alone |
| Text.ToLower | app/api/admin/upload-xlsx/route.ts:29 | `toLowerCase` keeps the length and lower-cases each character |
| Text.ToLowerIdempotent | app/api/admin/upload-xlsx/route.ts:29 | lower-casing twice is lower-casing once |
| Text.UpperChar | components/product-card.tsx:20 | `toUpperCase` of one character subtracts 32 from a-z and from à-þ except ÷; ß becomes "SS", µ becomes Μ and ÿ becomes Ÿ; every other character is left alone |
| Js.OrNull | app/api/solicitacoes/route.ts:47 | JavaScript `or null`: a truthy value is kept, and anything falsy becomes `null` |
| Js.Field | app/api/admin/produtos/route.ts:18 | a property read gives the field's value, or `undefined` when the field is absent or the value is not an object |
| ProductInsert.NormalizeImages | app/api/admin/produtos/route.ts:46-50 | a falsy `image_url` becomes `[]`, a string becomes its trimmed non-empty comma-separated pieces, and anything else is kept |
| ProductInsert.StoredImages | app/api/admin/produtos/route.ts:65 | the stored value is `null` or the non-empty list itself |
| ProductInsert.BuildRecord | app/api/admin/produtos/route.ts:55-66 | each optional text is `null` or a truthy value, and `image_url` is `null` or a non-empty list |
| ProductInsert.Insert | app/api/admin/produtos/route.ts:15-89 | a rejection is a 400 or a 500; a row is inserted ⟺ the body is an object with a truthy string category whose lower case is a known slug, a truthy product, and every required field truthy |
| ProductInsert.InsertChecks | app/api/admin/produtos/route.ts:20-43 | the ordered checks: missing category or product → 400; a category that is not a string → 500; unknown category → 400; a falsy required field → 400; otherwise an insert into the category's table |
| ProductInsert.InsertedRecord | app/api/admin/produtos/route.ts:55-66 | the inserted row copies the required fields, gives `null` for falsy optional text and the value otherwise, and stores exactly the normalised image list, or `null` when it is empty |
| ProductInsert.StringImagesStored | app/api/admin/produtos/route.ts:46-65 | a string of URLs is stored as its non-blank trimmed pieces, or `null` when none remains |
| ProductInsert.ArrayImagesStored | app/api/admin/produtos/route.ts:46-65 | a non-empty list is stored as sent; an empty list or a falsy value is stored as `null` |
| XlsxImport.RowCompleteIff | app/api/admin/upload-xlsx/route.ts:60-61 | a row passes exactly when each of the six required columns is truthy |
| XlsxImport.IncompleteMessage | app/api/admin/upload-xlsx/route.ts:62 | the error message is the fixed prefix followed by the row's `modelo` as text, or by "produto sem nome" when the model is falsy |
| XlsxImport.ImageUrls | app/api/admin/upload-xlsx/route.ts:66-70 | `image_url` is `null` exactly when the cell is falsy; otherwise every URL is non-empty and trimmed |
| XlsxImport.ImageUrlsMembers | app/api/admin/upload-xlsx/route.ts:66-70 | for a truthy cell, a URL is kept ⟺ it is non-empty and is the trim of some comma-separated piece of the cell's text |
| XlsxImport.OptionalText | app/api/admin/upload-xlsx/route.ts:75-77 | an optional column is `null` exactly when falsy, and otherwise its text |
| XlsxImport.BuildRecord | app/api/admin/upload-xlsx/route.ts:72-83 | the record of one complete row; what each field holds is stated by XlsxImport.BuildRecordFields |
| XlsxImport.BuildRecordFields | app/api/admin/upload-xlsx/route.ts:72-83 | the record built from a complete row: required columns as text or number, each optional column `null` exactly when falsy and otherwise its text, and `image_url` `null` exactly when the cell is falsy |
| XlsxImport.ImportRows | app/api/admin/upload-xlsx/route.ts:58-84 | every row complete ⟺ success, with one record per row in order |
| XlsxImport.ImportRowsFirstError | app/api/admin/upload-xlsx/route.ts:58-64 | a failed import carries the message of the first incomplete row: every row before it is complete |
| XlsxImport.UploadChecksInputsFirst | app/api/admin/upload-xlsx/route.ts:22-27 | a missing file or category is answered 400 before anything else |
| XlsxImport.UploadRejectsUnknownCategory | app/api/admin/upload-xlsx/route.ts:29-36 | an unknown category is answered 400 before the sheet is read |
| XlsxImport.UploadRejectsEmptySheet | app/api/admin/upload-xlsx/route.ts:50-55 | an empty sheet is answered 400 |
| XlsxImport.UploadAllOrNothing | app/api/admin/upload-xlsx/route.ts:22-110 | a batch is inserted exactly when inputs are valid and every row is complete; one bad row makes the whole import a 500 with the row's message |
| XlsxImport.Upload | app/api/admin/upload-xlsx/route.ts:22-110 | a rejection is a 400 or a 500; a batch goes to `buskoo_` + the lower-cased category and holds one record per row, at least one |
| XlsxImport.CommaGivesEmptyList | app/api/admin/upload-xlsx/route.ts:66-70 | a cell holding only "," gives an empty list, not `null` |
| Solicitacoes.Post | app/api/solicitacoes/route.ts:30-48 | a `null` body → 500; otherwise accepted ⟺ `nome`, `produto` and `pagamento` are truthy, else 400; the row copies them and `obs` or `null` |
| Solicitacoes.NotesNeverReject | app/api/solicitacoes/route.ts:35-47 | the notes never decide acceptance and are stored as `obs` or `null` |
| AdminAuth.Authenticate | app/api/admin/auth/route.ts:3-42 | 200 ⟺ the body carries a password strictly equal to a configured, non-empty `ADMIN_PASSWORD`; otherwise 400, 401 or 500 |
| AdminAuth.MissingPasswordFirst | app/api/admin/auth/route.ts:7-12 | a missing or empty password is 400 whatever the configuration |
| AdminAuth.UnconfiguredIsServerError | app/api/admin/auth/route.ts:14-22 | an unset or empty configured password is 500 for any password sent |
| AdminAuth.ComparisonIsStrict | app/api/admin/auth/route.ts:24-29 | the comparison is exact: a different case, or a number equal to a numeric password, is 401 |
| AdminAuth.DifferentPasswordRejected | app/api/admin/auth/route.ts:24-29 | with a non-empty configured password, any sent password that is not that exact string is 401 |
| Filters.Effective | components/filters.tsx:58-63 | an entry is kept ⟺ it is set and not falsy, and a kept entry is the preference's own value |
| Filters.ActiveIffSomeEffect | components/filters.tsx:58-63 | `hasActiveFilters` ⟺ some entry is not falsy (a 0 price or an empty brand list counts as inactive) |
| Filters.HasActiveFilters | components/filters.tsx:58-63 | the five tests of `hasActiveFilters`; its meaning is stated by Filters.ActiveIffSomeEffect |
| Filters.ClearFilters | components/filters.tsx:51-56 | clearing leaves no entry and no active filter |
| Filters.RemoveAll | components/filters.tsx:67 | `filter(m => m !== marca)` drops every copy of the brand and keeps every other brand with its count |
| Filters.RemoveAllConcat | components/filters.tsx:67 | filtering a concatenation is the concatenation of the filtered parts, so the order of the kept brands is preserved |
| Filters.RemoveAllAppended | components/filters.tsx:67 | removing a brand that was just appended gives back the list before |
| Filters.ToggleMarca | components/filters.tsx:65-69 | the brand's membership flips, other brands and entries stay; an absent brand is appended; a present one is filtered out, and an empty result becomes unset |
| Filters.ToggleTwice | components/filters.tsx:65-69 | toggling an absent brand twice restores the preferences |
| Filters.ToggleActivity | components/filters.tsx:58-69 | adding a brand makes a filter active; removing the only brand unsets the list |
| Filters.PriceInput | components/filters.tsx:104 | an empty price input unsets the bound; otherwise the bound is the number typed |
| Filters.SelectInput | components/filters.tsx:153 | value-or-undefined for a select |
| Filters.SetPrecoMin | components/filters.tsx:101-106 | the minimum price follows the input, and the other entries are unchanged |
| Filters.SetPrecoMax | components/filters.tsx:114-119 | the maximum price follows the input, and the other entries are unchanged |
| Filters.SetRegiao | components/filters.tsx:150-155 | the region follows the select, and the other entries are unchanged |
| Filters.SetOrdenacao | components/filters.tsx:176-181 | the ordering follows the select, and the other entries are unchanged |
| Filters.AllRegionsIsActive | components/filters.tsx:150-161 | choosing "Todas as regiões" stores "todas", which counts as an active filter |
| Filters.ClearingPriceDeactivates | components/filters.tsx:101-106 | emptying the only price input, or a price of 0, leaves no active filter |
| Storage.PrefsKey | lib/storage.ts:54 | the preferences key is `buscaaqui_filters_` followed by the slug |
| Storage.PrefsKeysDistinct | lib/storage.ts:21-23 | different slugs use different keys, and none collides with the history or cache keys |
| Storage.CachedItem | lib/storage.ts:76-82 | an item is returned ⟺ present and no older than `maxAge`, and it is the stored data |
| Storage.CacheThenRead | lib/storage.ts:63-82 | data just cached is read back at once, and other keys are unaffected |
| Storage.CacheExpiryMonotone | lib/storage.ts:80 | an expired or missing item stays unavailable later |
| Storage.DefaultMaxAgeIsOneHour | lib/storage.ts:76-80 | the default `maxAge` is one hour: an item is still read back exactly one hour after it was stored and is gone one millisecond later |
| Storage.NewRecord | lib/storage.ts:38-42 | the new history entry carries the given fields, id and creation time |
| Storage.LocalStorage.GetSolicitacoes | lib/storage.ts:25-34 | the stored history, or `[]` when absent or unreadable |
| Storage.LocalStorage.AddSolicitacao | lib/storage.ts:36-50 | the history grows by exactly the new entry, which is returned; only the history key changes |
| Storage.LocalStorage.GetFilterPreferences | lib/storage.ts:52-56 | the slug's saved preferences, none when absent, and a throw when unreadable |
| Storage.LocalStorage.SaveFilterPreferences | lib/storage.ts:58-61 | the slug's preferences read back as saved; other slugs, the history and the cache are unchanged |
| Storage.LocalStorage.GetCachedData | lib/storage.ts:70-74 | the cache map, empty when absent, and a throw when unreadable |
| Storage.LocalStorage.CacheData | lib/storage.ts:63-68 | the entry is stored with its time and the rest of the cache kept; an unreadable cache throws before anything changes |
| Storage.LocalStorage.GetCachedItem | lib/storage.ts:76-82 | the item lookup over the stored cache; it throws exactly when the cache is unreadable |
| ServiceWorker.Classify | public/sw.js:31-76 | non-GET is not intercepted; `/api/` is network-first; a static extension or `/icons/` is cache-first; everything else is a page |
| ServiceWorker.IsStaticAsset | public/sw.js:57 | the static-asset test: one of the ten extensions at the end, or the `/icons/` prefix; ServiceWorker.Classify states its place in the routing |
| ServiceWorker.ApiScriptIsNetworkFirst | public/sw.js:39-57 | the `/api/` test wins over the extension test |
| ServiceWorker.PrecachedPagesAreNetworkFirst | public/sw.js:5-76 | "/", "/offline" and "/manifest.json" are precached but served network-first; non-GET is never intercepted |
| ServiceWorker.Obsolete | public/sw.js:23 | the caches to delete are exactly those other than the static and dynamic ones |
| ServiceWorker.Retained | public/sw.js:23 | the caches kept are exactly the static and dynamic ones present |
| ServiceWorker.ObsoleteRetainedPartition | public/sw.js:17-28 | deleted and kept caches partition the keys; the legacy `buscaaqui-v1` cache is deleted |
| ServiceWorker.MatchIn | public/sw.js:50 | `caches.match` finds a response ⟺ some cache holds the path, and returns the first one in cache order |
| ServiceWorker.OfflineFallback | public/sw.js:85-88 | once install has precached "/offline", the offline fallback is always found |
| ServiceWorker.CacheStorage.Match | public/sw.js:50 | a match over the whole storage succeeds ⟺ some cache holds the path |
| ServiceWorker.CacheStorage.Open | public/sw.js:10 | opening creates an empty cache at the end of the order when missing, and changes nothing otherwise |
| ServiceWorker.CacheStorage.Put | public/sw.js:44-46 | the path's response is replaced in the named cache, and nothing else changes |
| ServiceWorker.FetchAssets | public/sw.js:11 | a result ⟺ every precached page answers ok; it maps exactly those pages, each to its response |
| ServiceWorker.CacheStorage.Install | public/sw.js:7-14 | `addAll` is all-or-nothing: every asset is stored ⟺ every fetch succeeds, and the static cache's other entries stay; otherwise the static cache is as before; the static cache is added at the end of the cache order when missing; other caches are untouched |
| ServiceWorker.CacheStorage.Activate | public/sw.js:17-28 | only the static and dynamic caches survive, with their contents and order |
| ServiceWorker.CacheStorage.HandleFetch | public/sw.js:31-91 | per strategy: pass-through; network then cache fallback; cache then network; network then cache then "/offline"; fresh network answers are stored in the right cache, which is added at the end of the cache order when missing; nothing else changes |
| ProductCard.FullName | components/product-card.tsx:19 | manufacturer, one space, then model |
| ProductCard.FullNameNonEmpty | components/product-card.tsx:19 | the full name is never empty, even for empty parts |
| ProductCard.Descricao | components/product-card.tsx:20 | an empty or missing type gives ""; otherwise the first character is upper-cased and the rest kept |
| ProductCard.DescricaoCapitalises | components/product-card.tsx:20 | a lower-case ASCII or accented Latin-1 initial becomes its capital, with the rest and the length kept; an initial without an upper case is left unchanged |
| ProductCard.AccentedTypesCapitalised | components/product-card.tsx:20 | "áudio" is shown as "Áudio" and "ótica" as "Ótica" |
| ProductCard.ImageUrl | components/product-card.tsx:23-28 | the first URL of a non-empty list, a non-empty string as is, or the placeholder |
| ProductCard.EmptyFirstUrlShown | components/product-card.tsx:24-25 | a list whose first URL is "" shows "" rather than the placeholder |
| RequestModal.RequestBody | components/request-modal.tsx:69-74 | the posted body carries the name, product name and payment as typed, and the notes or `null` |
| RequestModal.RouteOnRequestBody | components/request-modal.tsx:69-74 | the route accepts the dialog's body ⟺ name, product name and payment are non-empty; the row then holds them and the notes or `null` |
| RequestModal.ValidatedRequestAccepted | components/request-modal.tsx:40-74 | whatever the dialog validates, the request route accepts, with the values as typed |
| RequestModal.BlankNameOnlyRefusedByDialog | components/request-modal.tsx:43-45 | a blank name is refused by the dialog but would be accepted by the route |
| RequestModal.RequestForm.constructor | components/request-modal.tsx:32-37 | every field is empty and there are no errors |
| RequestModal.RequestForm.Validate | components/request-modal.tsx:40-53 | an error for a blank name and one for a missing payment method; valid ⟺ no errors; the fields are unchanged |
| RequestModal.RequestForm.Submit | components/request-modal.tsx:55-103 | an error for a blank name and one for a missing payment method, and nothing sent then; an accepted request is appended to the local history, only the history key changes, and the fields are cleared; otherwise nothing changes |
| RequestModal.RequestForm.Send | components/request-modal.tsx:60-102 | the body posted is the form's; after an ok answer the history grows by the new entry, only the history key changes, and the fields are cleared; otherwise nothing changes |
| UploadForm.AcceptedNames | components/admin/upload-xlsx-form.tsx:31 | ".xlsx" and ".xls" pass; an upper-case extension and ".csv" do not |
| UploadForm.AcceptedName | components/admin/upload-xlsx-form.tsx:31 | the name ends with ".xlsx" or ".xls", case-sensitively; UploadForm.AcceptedNames states examples |
| UploadForm.FormGateMatchesRoute | components/admin/upload-xlsx-form.tsx:43-74 | the import route answers the missing-input 400 ⟺ the form's own gate would not send (no file or no category) |
| UploadForm.UploadXlsxForm.constructor | components/admin/upload-xlsx-form.tsx:24-25 | no file and no category |
| UploadForm.UploadXlsxForm.HandleFileChange | components/admin/upload-xlsx-form.tsx:28-41 | a selected file with an accepted name replaces the current one; anything else leaves the form unchanged |
| UploadForm.UploadXlsxForm.SetCategoria | components/admin/upload-xlsx-form.tsx:122 | the category select sets the category and keeps the file |
| UploadForm.UploadXlsxForm.Submit | components/admin/upload-xlsx-form.tsx:43-74 | sent ⟺ a file and a category are chosen; both are cleared only after a successful import |
| AddProductForm.ValidImageUrls | components/admin/add-product-form.tsx:62 | filtering never lengthens the list |
| AddProductForm.ValidImageUrlsMembers | components/admin/add-product-form.tsx:62 | a URL is sent ⟺ it is one of the inputs and is not blank; it is sent untrimmed |
| AddProductForm.ValidImageUrlsConcat | components/admin/add-product-form.tsx:62 | filtering a concatenation is the concatenation of the filtered parts, so the URLs keep the order of their inputs |
| AddProductForm.BlankUrlsDropped | components/admin/add-product-form.tsx:62 | blank inputs, such as the initial `[""]`, send no URL |
| AddProductForm.TextOrNull | components/admin/add-product-form.tsx:72-74 | JavaScript `or null` for the optional text inputs |
| AddProductForm.Price | components/admin/add-product-form.tsx:75-76 | `parseFloat` of the price input, with NaN sent as `null` |
| AddProductForm.RequestBody | components/admin/add-product-form.tsx:67-81 | the body holds the category as typed and the product object |
| AddProductForm.ProductBody | components/admin/add-product-form.tsx:69-80 | the product object has exactly the ten fields the form sends |
| AddProductForm.ProductBodyFields | components/admin/add-product-form.tsx:69-80 | each field of the product object the form sends |
| AddProductForm.EmptyCategoryRefused | components/admin/add-product-form.tsx:67-68 | with no category chosen, the product route answers 400 "Categoria e produto são obrigatórios" |
| AddProductForm.UnfilledFormRefused | components/admin/add-product-form.tsx:67-81 | with a known category, an empty required input or a price that is NaN or 0 is refused as a missing field |
| AddProductForm.FilledFormInserted | components/admin/add-product-form.tsx:67-81 | with a known category and the required inputs filled, the route inserts every field as typed into the category's table: optional text or `null`, and the non-blank URLs or `null` |
| AddProductForm.ProductForm.constructor | components/admin/add-product-form.tsx:25-37 | empty fields and a single empty URL input |
| AddProductForm.ProductForm.AddImageUrl | components/admin/add-product-form.tsx:40-42 | one more empty URL input at the end |
| AddProductForm.ProductForm.RemoveImageUrl | components/admin/add-product-form.tsx:44-48 | removes the input at the index unless it is the only one; the list never becomes empty |
| AddProductForm.ProductForm.UpdateImageUrl | components/admin/add-product-form.tsx:50-54 | the input at the index takes the new text, and the others and the length stay |
| AddProductForm.ProductForm.Submit | components/admin/add-product-form.tsx:56-102 | the body is built from the current state; after a successful insert everything is reset, otherwise nothing changes |

## Left out

- Floating point is left out. Amounts are exact reals, so rounding, `NaN` and `Infinity` in the simulator and prices are not modelled. Number formatting and `parseFloat` are parameters.
- Installment.Calculate requires at least one installment. The slider's range is 1 to 12 (components/installment-simulator.tsx:130-131), and a count of 0 would divide by zero in the source.
- Filters.PriceInput takes the parsed number from the `Js.NumberText` parameter. `Number("abc")` is NaN, and a NaN bound is modelled as unset because NaN is falsy in JavaScript.
- Text.LowerChar and Text.UpperChar cover ASCII and Latin-1 only. Unicode case mapping beyond Latin-1 is not modelled.
- Asynchrony is left out. Promise ordering, the un-awaited `cache.put` calls and `skipWaiting`/`clients.claim` are not modelled, and each operation happens at once.
- The service worker keys caches by path. Query strings and `Request` objects are not modelled, and the network is a parameter.
- The database insert and its answers are left out: 201 with the inserted rows, or 500 on a database error. The routes are modelled up to the row or rows they would insert.
- Reading the spreadsheet file is left out. The upload route starts from the decoded rows of the first sheet.
- The upload route expects `categoria` to be a string from form data. A non-string category is not modelled there.
- In the product route, a category that is not a string throws on `toLowerCase` and is answered 500. Objects carrying a `length` field as `image_url` are not modelled.
- The category map is a plain object, so inherited keys such as `constructor` would also be found. That is not modelled: only the eight slugs map to a table.
- The `typeof window` guards in `lib/storage.ts` are left out, because the model is always in the browser. JSON text and its round trip are also left out: values are stored as values. `localStorage` quota errors are not modelled.
- Storage.LocalStorage.AddSolicitacao takes the id and creation time as parameters. The source derives them from the clock and `Math.random`.
- Text.SplitTrimmedMembers and XlsxImport.ImageUrlsMembers state which URLs are kept, not that they keep the order of the pieces; the order is only in the definition of Text.TrimNonEmpty.
- AddProductForm.ProductForm.UpdateImageUrl requires an index that is shown. A JavaScript write past the end would leave holes in the array.
- The field `onChange` handlers of the admin product form are plain assignments to `formData` and have no member. The same holds for the request dialog's inputs.
- `GET /api/solicitacoes`, React rendering, toasts and the loading flags are not part of this model.
