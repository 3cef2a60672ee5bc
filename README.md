# agencia1 catalogue — a Dafny model of its request handlers and page logic

agencia1 is a catalogue site for promotional products. Its server side is a
set of Next.js route handlers over an ORM; its client side is a catalogue
page, a header and a contact dialog. This project models the logic those
files write out themselves, over in-memory tables:

- `/api/products`:
  - GET: parameter defaults, the `where` filter built from search, category and featured, the early empty page for an unknown category, newest-first paging, and decoding of the four stored list fields.
  - POST: rejection of a duplicate code, falsy-to-null coercion, and technique links.
- `/api/quotes`:
  - POST: the required-field guard, the `reduce` total, the forced `pending` status, and one stored item per request item.
  - GET: the optional status filter and paging.
- `/api/categories` and `/api/printing-techniques`: a check-then-insert keyed on `code` and on `name` respectively, and a name-ordered listing with product counts.
- `/api/send-email`: the subject and HTML body selected by the request type, and the success payload.
- `DynamicContactForm`: the `emailData` builder, the dialog title and description, and the submit/reset cycle.
- The `/products` page: the query-string builder, the API-to-view product transform, the quote request it posts, and its filter, selection and dialog state.
- `Header`: the navigation decision on the link prefix and the current path, and the quote, admin and menu handlers.

Files:

| file | content |
|---|---|
| schema.dfy | the table records (`Category`, `Technique`, `ProductRow`, `Quote`, `QuoteItem`), `Option`, `Pagination`, and the create result `Created` |
| text.dfy | prefix and substring predicates (`contains`), and code-point lexicographic order |
| sorting.dfy | stable insertion sorts: by name ascending, and by timestamp descending |
| paging.dfy | `skip`, `take` and `Math.ceil(total / limit)` |
| numbers.dfy | JavaScript's `toFixed(2)` on integral values and `parseInt` without a radix |
| products.dfy, quotes.dfy, categories.dfy, techniques.dfy, sendemail.dfy | one module per route file |
| contactform.dfy, catalogpage.dfy, header.dfy | one module per client file |

Each table is a class with a `seq` of rows and an id counter. Its `Valid()`
invariant holds that the keyed column (product code, category code,
technique name) is pairwise distinct and that ids are distinct. Every `Create`
preserves it. The product and quote GET handlers are methods that build their
`where` step by step, as the source does. Their `ensures` ties the answer to
the specification function `ListSpec`, whose contracts state the listing's
properties. The category and technique GET handlers only list and count, and
are the functions `Listing`. Client components are classes whose methods update
the component state the source keeps in `useState`. Outward effects (requests
posted, `onClose` calls, router and window actions) are recorded in a `seq`
field.

An email body is a template literal: a sequence of chunks, each either fixed
markup or the value of one `${...}`, and `Render` joins them. The three bodies
share one layout (title, four client lines, the lines of the type, message),
so what every body shows is proved once for the layout. The request `type` is
the union `Kind`; `KindOf` reads a `type` string into it, giving each of the
three union strings its own case and any other string `Other(name)`.

## Model

| member | source | states |
|---|---|---|
| Paging.Param | src/app/api/products/route.ts:7-8 | a missing `page`/`limit` parameter takes its default (1 and 10), a given one is used as given |
| Paging.PageCount | src/app/api/products/route.ts:81 | `pages` is the ceiling of `total / limit`: `pages * limit` covers `total` and one page fewer does not |
| Paging.Window | src/app/api/products/route.ts:59-60 | `skip`/`take`: at most `take` rows, exactly `min(take, n - skip)` when `skip < n`, none past the end, each the row at offset `skip + i` |
| Paging.Skip | src/app/api/products/route.ts:13 | `(page - 1) * limit` is never negative from page 1 on, and negative for a page below 1 with a positive limit |
| Paging.WindowKeepsOrder | src/app/api/quotes/route.ts:33-35 | a `skip`/`take` window of a newest-first result is still newest first |
| Paging.WindowsTile | src/app/api/quotes/route.ts:11 | with `skip = (page - 1) * limit`, page `p` followed by page `p + 1` is the double-size window starting at page `p`: pages neither overlap nor leave gaps |
| Text.Includes | src/app/api/products/route.ts:20-22 | the executable `contains` is true exactly when the needle occurs at some offset |
| Text.LexLeTotal | src/app/api/categories/route.ts:7 | the name order is total |
| Text.LexLeTransitive | src/app/api/categories/route.ts:7 | the name order is transitive |
| Text.LexLeAntisymmetric | src/app/api/categories/route.ts:7 | two names each ordered before the other are equal |
| Sorting.ByName | src/app/api/categories/route.ts:7 | `orderBy: { name: 'asc' }`: a permutation of its input, sorted by name |
| Sorting.ByStampDesc | src/app/api/products/route.ts:61 | `orderBy: { createdAt: 'desc' }`: a permutation of its input, newest first |
| ProductsRoute.FirstNamed | src/app/api/products/route.ts:28-30 | `findFirst` by name `contains`: none exactly when no category name contains the text, otherwise the first such category in table order |
| ProductsRoute.WhereFor | src/app/api/products/route.ts:16-50 | the filter: no text condition for an empty search; `featured` only for exactly `"true"`; a category condition only for a category other than `all`, naming a category whose name contains it; no filter at all (the early return) exactly when that category is not found |
| ProductsRoute.TextMatches | src/app/api/products/route.ts:18-24 | the `OR` of `contains` on name, description and code, a null description never matching; used by Matching and EmptySearchIsNoFilter |
| ProductsRoute.Matches | src/app/api/products/route.ts:15-49 | a row satisfies every condition the `where` holds; the rows it selects are stated by Matching |
| ProductsRoute.Processed | src/app/api/products/route.ts:67-73 | the row spread with its four list fields parsed and its category included; stated by Decoded, CategoryById, ProcessAll and ListFieldsRoundTrip |
| ProductsRoute.Matching | src/app/api/products/route.ts:53-54 | a product is selected exactly when it is in the table and satisfies the filter, and as many times as it occurs in the table: the count `total` is the number of matching rows |
| ProductsRoute.Decoded | src/app/api/products/route.ts:69-72 | a stored list reads back as itself, a missing one as `[]` |
| ProductsRoute.CategoryById | src/app/api/products/route.ts:56 | the included category is a table row with the product's `categoryId`, and missing only when there is none |
| ProductsRoute.ProcessAll | src/app/api/products/route.ts:67-73 | the `map` keeps length and order and decodes each product |
| ProductsRoute.PageRows | src/app/api/products/route.ts:52-73 | the returned page has at most `limit` products (exactly `min(limit, total - skip)` when `skip < total`, none when `skip >= total`); its `i`-th product is the decoded form of the matching row at offset `skip + i` of the newest-first order; the page is newest first |
| ProductsRoute.FirstPageHoldsAll | src/app/api/products/route.ts:53-61 | when `limit` covers every match, the first page contains every matching product |
| ProductsRoute.OnFirstPage | src/app/api/products/route.ts:53-61 | when `limit` covers every match, the row at any offset of the newest-first order is on the first page, decoded |
| ProductsRoute.EmptySearchIsNoFilter | src/app/api/products/route.ts:18-24 | an empty search would select every product, so skipping the text condition for it changes nothing |
| ProductsRoute.ListSpec | src/app/api/products/route.ts:4-91 | for an unknown category: an empty page with total and pages 0, echoing page and limit; otherwise a 500 `Error fetching products` exactly for a page or limit below 1, else `total` = number of matches, `pages` = its ceiling, and the products are exactly the page: `min(limit, total - skip)` of them (none past the end), the `i`-th being the decoded matching row at offset `skip + i` of the newest-first order |
| ProductsRoute.ProductStore.List | src/app/api/products/route.ts:6-83 | GET, built field by field, answers `ListSpec` of the current table |
| ProductsRoute.NullIfFalsy | src/app/api/products/route.ts:132 | `x ? x : null`: a missing value or 0 becomes null, every other number stays |
| ProductsRoute.NewRow | src/app/api/products/route.ts:127-146 | the stored row: price and quantity bounds null when falsy, `featured` false unless given true, lists stored as given, name, code, description, image, customization notes and category copied, and the linked techniques are exactly the given ids |
| Schema.FindBy | src/app/api/products/route.ts:115-117 | `findUnique` on a unique column (product code here, category code at src/app/api/categories/route.ts:31-33, technique name at src/app/api/printing-techniques/route.ts:31-33): a row with that key is found exactly when some row has it |
| ProductsRoute.ProductStore.Create | src/app/api/products/route.ts:114-153 | a duplicate code gives 400 `Product code already exists` and leaves the table unchanged; otherwise exactly one row `NewRow(...)` is appended with status 201; the codes stay pairwise distinct |
| ProductsRoute.ListFieldsRoundTrip | src/app/api/products/route.ts:69-72 | a list written by POST reads back by GET identical and in order, and as `[]` when none was given |
| QuotesRoute.LineSumAppend | src/app/api/quotes/route.ts:78-80 | the line-total sum splits over concatenation |
| QuotesRoute.ItemRecord | src/app/api/quotes/route.ts:93-99 | a stored item copies product id, quantity, unit price, total price and notes |
| QuotesRoute.ItemRecords | src/app/api/quotes/route.ts:92-99 | one stored item per request item, in order |
| QuotesRoute.ReduceIsLineSum | src/app/api/quotes/route.ts:78-80 | the left `reduce`, where a missing total counts 0, equals the sum of the line totals of the stored items |
| QuotesRoute.Reduce | src/app/api/quotes/route.ts:78-80 | the left `reduce` from 0 adding each `totalPrice`, a missing one as 0; equal to the stored line sum by ReduceIsLineSum |
| QuotesRoute.HasRequiredFields | src/app/api/quotes/route.ts:70 | the guard: a truthy name and email and a non-empty `items` list; the 400 it decides is stated by QuoteStore.Create |
| QuotesRoute.NewQuote | src/app/api/quotes/route.ts:83-101 | the created quote: status `pending`, client fields and notes as given, one item per input item, and `totalAmount` the sum of its line totals |
| QuotesRoute.QuoteStore.Create | src/app/api/quotes/route.ts:70-111 | a falsy name or email, or items absent, not a list or empty, gives 400 `Missing required fields` with nothing written; otherwise exactly `NewQuote(...)` is appended with status 201, and every stored quote stays well formed |
| QuotesRoute.Selected | src/app/api/quotes/route.ts:13-16 | a quote is selected exactly when it is stored and, for a non-empty status, has that status, and as many times as it is stored |
| QuotesRoute.PageQuotes | src/app/api/quotes/route.ts:18-36 | the quotes of a page: at most `limit` (exactly `min(limit, total - skip)` when `skip < total`, none when `skip >= total`), the `i`-th being the selected quote at offset `skip + i` of the newest-first order; newest first, each stored and matching the status |
| QuotesRoute.ListSpec | src/app/api/quotes/route.ts:4-56 | a 500 `Error fetching quotes` exactly for a page or limit below 1; otherwise the echoed pagination with `total` and its ceiling, at most `limit` quotes (exactly `min(limit, total - skip)` when `skip < total`, none past the end), the `i`-th being the selected quote at offset `skip + i` of the newest-first order; newest first, all stored and matching the status |
| QuotesRoute.QuoteStore.List | src/app/api/quotes/route.ts:6-48 | GET, setting `where.status` only for a non-empty status, answers `ListSpec` of the current table |
| QuotesRoute.SelectedIgnoresEmptyStatus | src/app/api/quotes/route.ts:14 | an empty status filters nothing, like a missing one |
| QuotesRoute.UnfilteredCountsAll | src/app/api/quotes/route.ts:37 | without a status, `total` counts every stored quote |
| CategoriesRoute.CategoryTable.Create | src/app/api/categories/route.ts:30-50 | a known code gives 400 `Category code already exists` and leaves the table unchanged; a fresh one appends exactly one category with the given name, description and code and status 201; codes stay pairwise distinct |
| CategoriesRoute.InCategory | src/app/api/categories/route.ts:10 | the products counted for a category are exactly those whose `categoryId` is its id, each as many times as it occurs |
| CategoriesRoute.Counted | src/app/api/categories/route.ts:8-12 | one entry per category, the `i`-th being the `i`-th table row with its product count |
| CategoriesRoute.Listing | src/app/api/categories/route.ts:6-13 | every category exactly once (a permutation of the counted rows), sorted by name, each with its `_count.products` |
| TechniquesRoute.TechniqueTable.Create | src/app/api/printing-techniques/route.ts:30-50 | a known name gives 400 `Printing technique name already exists` and leaves the table unchanged; a fresh one appends exactly one technique with the given name, description and icon and status 201; names stay pairwise distinct |
| TechniquesRoute.LinkedTo | src/app/api/printing-techniques/route.ts:10 | the products counted for a technique are exactly those linked to it, each as many times as it occurs |
| TechniquesRoute.Counted | src/app/api/printing-techniques/route.ts:8-12 | one entry per technique, the `i`-th being the `i`-th table row with its product count |
| TechniquesRoute.Listing | src/app/api/printing-techniques/route.ts:6-13 | every technique exactly once (a permutation of the counted rows), sorted by name, each with its `_count.products` |
| SendEmailRoute.KindOf | src/app/api/send-email/route.ts:26-83 | the switch on `type`: each of `quote-general`, `quote-product` and `services` selects its own case, and exactly the other strings fall through as `Other`; writing the kind back gives the string read |
| SendEmailRoute.KnownKindDecodes | src/components/DynamicContactForm.tsx:46-54 | the `type` string the form sends for each of its three kinds selects that same kind in the route's switch |
| SendEmailRoute.Subject | src/app/api/send-email/route.ts:26-83 | the three fixed subjects, the product subject followed by the product name (`undefined` when missing), and `""` for any other type |
| SendEmailRoute.RenderAppend | src/app/api/send-email/route.ts:29-40 | a template made of two parts renders as the two renderings one after the other |
| SendEmailRoute.FieldLineShows | src/app/api/send-email/route.ts:32-36 | a field line shows `<p><strong>caption:</strong> value</p>`, and so the value |
| SendEmailRoute.PriceLineShows | src/app/api/send-email/route.ts:57-59 | a price line shows the formatted price |
| SendEmailRoute.ClientLinesShow | src/app/api/send-email/route.ts:32-35 | what one of the four client lines shows, the four together show |
| SendEmailRoute.ClientFieldsShow | src/app/api/send-email/route.ts:32-35 | the four client lines show `Nombre`, `Email`, `Teléfono` and `Empresa`, each labelled with its value, and so the values |
| SendEmailRoute.ClosingShows | src/app/api/send-email/route.ts:37-40 | the closing lines show the message |
| SendEmailRoute.LayoutShows | src/app/api/send-email/route.ts:29-81 | what the client lines or the lines of the type show, the whole body shows |
| SendEmailRoute.LayoutShowsMessage | src/app/api/send-email/route.ts:29-81 | every body shows the message, whatever its other lines |
| SendEmailRoute.BodyShowsClient | src/app/api/send-email/route.ts:29-81 | each of the three bodies shows the four labelled client lines (`Nombre`, `Email`, `Teléfono`, `Empresa` with their values), and the client's name, email, phone, company and message |
| SendEmailRoute.GeneralShowsQuantity | src/app/api/send-email/route.ts:36 | the general quote body shows the `Cantidad` line with the quantity (`undefined` when missing) |
| SendEmailRoute.ProductBoxShows | src/app/api/send-email/route.ts:52-61 | the product box shows the product, code and quantity lines, the unit price and the estimated total |
| SendEmailRoute.ProductShowsItsFields | src/app/api/send-email/route.ts:45-65 | the product quote body shows the product, code and quantity lines, the unit price and the estimated total |
| SendEmailRoute.ServicesShowsPreference | src/app/api/send-email/route.ts:77 | the services body shows the `Preferencia de Contacto` line with the preference |
| SendEmailRoute.Template | src/app/api/send-email/route.ts:26-83 | the template each case of the switch fills: the shared layout around the kind's own detail lines, none for any other type; shown to hold its lines by LayoutShows and BodyShowsClient |
| SendEmailRoute.Body | src/app/api/send-email/route.ts:26-83 | `htmlContent`: the rendered template, `""` for any other type; its contents stated by BodyShowsClient, GeneralShowsQuantity, ProductShowsItsFields and ServicesShowsPreference |
| SendEmailRoute.UnitPrice | src/app/api/send-email/route.ts:57 | `productPrice?.toFixed(2)`, `undefined` when the price is missing; shown by PriceLineShows |
| SendEmailRoute.EstimatedTotal | src/app/api/send-email/route.ts:59 | the price times `parseInt` of the quantity (`1` when missing or empty), with `toFixed(2)`, `NaN` when either is not a number; stated by ProductTotal and ProductTotalWithoutQuantity |
| SendEmailRoute.ProductTotal | src/app/api/send-email/route.ts:59 | with price `p` and quantity `String(n)`, the estimated total is `p * n` with two decimals |
| SendEmailRoute.ProductTotalWithoutQuantity | src/app/api/send-email/route.ts:59 | a missing or empty quantity counts as one, so the total equals the unit price |
| SendEmailRoute.BodyDependsOnlyOnItsFields | src/app/api/send-email/route.ts:26-83 | only the services body depends on the contact preference, and the services body does not depend on the quantity |
| Numbers.Digits | src/app/api/send-email/route.ts:57 | the decimal digits of a number: at least one, all digits, and no leading zero except for 0 itself |
| Numbers.DigitRun | src/app/api/send-email/route.ts:59 | `parseInt` reads the longest prefix of digits: every character before the cut is a digit, the one at the cut is not |
| Numbers.SkipSpaces | src/app/api/send-email/route.ts:59 | the leading white space is dropped: what remains is a suffix that does not start with white space |
| Numbers.SkipSpacesDropsOnlySpace | src/app/api/send-email/route.ts:59 | only white space is dropped: every character before the remaining suffix is white space |
| Numbers.DigitsValue | src/app/api/send-email/route.ts:57 | the digits `Digits(n)` writes have the value `n` |
| Numbers.ParseDecimal | src/app/api/send-email/route.ts:59 | `parseInt(String(n)) == n` for every integer `n` the model writes in plain decimal (JavaScript does so below 10^21) |
| Numbers.ParseInt | src/app/api/send-email/route.ts:59 | `parseInt` without a radix: leading white space, an optional sign, `0x` for hexadecimal, the longest digit prefix, `NaN` as `None`; its promises are stated by SkipSpaces, DigitRun and ParseDecimal |
| Numbers.Decimal | src/app/api/send-email/route.ts:57 | `String(n)` for an integral `n`: a minus sign for a negative value, then `Digits`; read back by ParseDecimal |
| Numbers.ToFixed2 | src/app/api/send-email/route.ts:57 | `toFixed(2)` on an integral value: `Decimal(n)` followed by `.00`; shown in the email by PriceLineShows and ProductTotal |
| SendEmailRoute.Respond | src/app/api/send-email/route.ts:23-104 | for every body `EmailData` can hold, the answer reports success with `Correo enviado exitosamente`, echoes `to`, and carries the composed subject and body, both empty for an unknown type |
| ContactForm.BuildEmailData | src/components/DynamicContactForm.tsx:46-75 | `to` is always `ventas@agencia1.cl` and the five client fields are copied; product name, code and price are present exactly for a product quote with a product; quantity exactly for a general quote or a product quote with a product; contact preference exactly for services |
| ContactForm.DialogTitle | src/components/DynamicContactForm.tsx:110-121 | the three fixed titles, and `Contacto` exactly for any other type |
| ContactForm.DialogDescription | src/components/DynamicContactForm.tsx:123-134 | the three fixed descriptions, and the generic one exactly for any other type |
| ContactForm.ProductSubject | src/components/DynamicContactForm.tsx:57-64 | a product quote's email subject names the product, and ends in `undefined` when no product was given |
| ContactForm.ComposedBodyShowsForm | src/components/DynamicContactForm.tsx:46-54 | the email composed from the form shows the four labelled client lines with the form's values, and every client field the form holds |
| ContactForm.ContactDialog.Submit | src/components/DynamicContactForm.tsx:41-108 | posts `BuildEmailData` of the current form with `isSubmitting` set at that moment; `isSubmitting` is false afterwards on every path; on success `onClose` is called once and all seven fields are reset to `""`, and on failure the form is kept |
| CatalogPage.Get | src/app/products/page.tsx:59 | `URLSearchParams.get`: missing exactly when no pair has the key, otherwise the value of a pair with it |
| CatalogPage.GetAppend | src/app/products/page.tsx:61-73 | looking a key up in appended parameters finds the earlier group first |
| CatalogPage.ParamsGetKey | src/app/products/page.tsx:59-73 | `get` on the parameters finds the search text, the category, the featured filter, or `50` for `limit`, each only when it was appended, and nothing for any other key |
| CatalogPage.ParamsGet | src/app/products/page.tsx:59-73 | `search` is sent only when non-empty, `category` and `featured` only when not `all`, `limit` is always `50`, and `page` is never sent |
| CatalogPage.Params | src/app/products/page.tsx:59-73 | between one and four parameters, ending with `limit=50` |
| CatalogPage.ProductsPage.FetchParams | src/app/products/page.tsx:59-73 | the in-place appends build exactly `Params` of the current filters |
| CatalogPage.FiltersReachRoute | src/app/products/page.tsx:59-75 | the route, parsing `page` and `limit` from the parameters with `parseInt` falling back to the default for a missing or empty value, reads the first page (no `page` sent) of 50 (`limit=50` parsed), the search text, the category (an empty choice meaning `all`), and the featured filter exactly when the control is `"true"` |
| CatalogPage.RouteQuery | src/app/api/products/route.ts:7-11 | what GET reads from a query string: `page` and `limit` through `parseInt`, `search`, `category` and `featured` as given; stated by FiltersReachRoute |
| CatalogPage.ParseLimit | src/app/api/products/route.ts:8 | `parseInt('50')`, the `limit` the page sends, is the page size 50 |
| CatalogPage.ClearedFiltersSelectAll | src/app/products/page.tsx:158-162 | after clearing, the route applies no filter at all |
| CatalogPage.OrElse | src/app/products/page.tsx:83 | the `or` default gives back a non-empty value as it is, and gives the fallback exactly for a missing or empty string (or the fallback itself) |
| CatalogPage.ArrayOr | src/app/products/page.tsx:88-90 | an array is kept, anything else becomes `[]` |
| CatalogPage.ToView | src/app/products/page.tsx:79-91 | the defaults: description `""`, price 0, image the first of a non-empty `images`, else `image`, else the placeholder, category name or `Sin categoría`, non-array lists `[]` |
| CatalogPage.Transform | src/app/products/page.tsx:79 | maps the products one to one in order, and gives `[]` when there are none |
| CatalogPage.CreatedListsReachView | src/app/products/page.tsx:88-90 | the materials, colours and sizes a product was created with are the ones the catalogue shows, in order |
| CatalogPage.ItemQuantity | src/app/products/page.tsx:123 | the parsed quantity, or 1 when it is missing or 0; never 0 |
| CatalogPage.QuoteRequest | src/app/products/page.tsx:116-130 | client fields and notes from the form; one item for a selected product (its id, the quantity, unit price = price, total = price × quantity, notes = message), none without a selection |
| CatalogPage.NoSelectionIsRejected | src/app/products/page.tsx:121-127 | without a selected product the quote route refuses the request |
| CatalogPage.QuotedTotal | src/app/products/page.tsx:121-127 | a quote for a selected product passes the guard (given a name and email) and is stored with total price × quantity |
| CatalogPage.ProductsPage.ShowProducts | src/app/products/page.tsx:79-95 | the shown products become the transform of the answer, nothing else changes |
| CatalogPage.ProductsPage.ClearFilters | src/app/products/page.tsx:158-162 | search becomes `""` and both selects `all`; nothing else changes |
| CatalogPage.ProductsPage.OpenQuote | src/app/products/page.tsx:318-321 | the product becomes the selection and the dialog opens |
| CatalogPage.ProductsPage.SubmitQuote | src/app/products/page.tsx:112-156 | posts `QuoteRequest` of the form and the selection; on success the dialog closes and the selection clears, on failure neither changes; the submitting flag ends false |
| Header.Navigate | src/components/Header.tsx:24-44 | scroll to `href` minus `/#` exactly for an anchor link on `/`; `router.push(href)` exactly for any other link starting with `/`; `window.location.href = href` exactly for the rest |
| Header.ButtonAction | src/components/Header.tsx:76-97 | an event on `/`, otherwise a push to the button's anchor |
| Header.MenuStaysInSite | src/components/Header.tsx:14-22 | no menu entry takes the external branch, on any path |
| Header.AnchorFromElsewhere | src/components/Header.tsx:26-36 | an anchor link pushes the same anchor from another page, and scrolls to its element on `/` |
| Header.HeaderBar.HandleNavigation | src/components/Header.tsx:24-44 | the menu is closed and the one action `Navigate` decides is taken |
| Header.HeaderBar.QuoteButton | src/components/Header.tsx:123-132 | `open-quote-dialog` on `/`, otherwise a push to `/#quote`; only the copy in the mobile sheet closes the sheet |
| Header.HeaderBar.AdminButton | src/components/Header.tsx:133-143 | `show-admin-section` on `/`, otherwise a push to `/#admin`; only the copy in the mobile sheet closes the sheet |
| Header.HeaderBar.SetOpen | src/components/Header.tsx:100 | the sheet's open state follows `onOpenChange` |

## Left out

- JSON parsing and serialisation, `parseFloat`, and `parseInt` outside the product email and the catalogue's query string. Stored list fields are `Option<seq<string>>`, legal JSON arrays by construction. Numeric query and body fields arrive already parsed as `Option<int>`, with `None` for a missing or empty value. The request's `type` string is decoded by `SendEmailRoute.KindOf`; `EmailData.kind` holds its result.
- Paging.Param: a non-empty `page` or `limit` that is not a number makes `parseInt` give `NaN` in the source (src/app/api/products/route.ts:7-8, src/app/api/quotes/route.ts:7-8). The store then rejects the query with a 500, and the unknown-category early return (src/app/api/products/route.ts:38-39) echoes `page: null`. The model has no `NaN`: such a value is `None` and takes the default 1 or 10.
- ProductsRoute.NullIfFalsy: the source tests the raw body value (src/app/api/products/route.ts:132, 136-137), before `parseFloat`/`parseInt`. So the string `"0"` is stored as 0, and a non-numeric string is stored as `NaN`. The model tests the already parsed number, so both become null.
- Identifiers are natural numbers (`Id = nat`). In the source they are strings: the `[id]` routes pass `params.id: string` to the store unchanged (src/app/api/products/[id]/route.ts:6-10).
- CatalogPage.ToView: `id: parseInt(product.id)` (src/app/products/page.tsx:80) is modelled as the identity. On a string id that does not start with digits the source gives `NaN`, which then travels as the `productId` of the quote item. `ToView`'s `v.id == p.id`, and the product id in `CatalogPage.QuoteRequest` and `CatalogPage.QuotedTotal`, hold only under this abstraction.
- Floating point. Money and quantities are integers, so `toFixed(2)` is modelled on integral values only, and `toLocaleString` not at all.
- SendEmailRoute.EstimatedTotal: does not model the exponent notation `toFixed` uses from 10^21 on, nor the precision lost beyond 2^53.
- Numbers.Decimal: does not model the exponent notation `String(n)` uses from 10^21 on (`String(1e21)` is `"1e+21"`, which `parseInt` reads as 1). Numbers.ParseDecimal therefore holds in JavaScript only below 10^21.
- Numbers.IsSpace: `parseInt` skips every Unicode space separator; the model skips the ASCII white space, the no-break space, the byte-order mark and the two line separators only.
- SendEmailRoute.Respond: the `catch` branch of `/api/send-email` (500 `Error al enviar el correo`) is not modelled. `EmailData` is a decoded object whose `productPrice` is a number or absent, so it cannot hold the bodies that reach that branch: one that is not JSON, the JSON `null` (reading `data.type` throws, src/app/api/send-email/route.ts:26), and a product quote whose `productPrice` is not a number (`toFixed` is not a function, src/app/api/send-email/route.ts:57).
- ProductsRoute.ListSpec: a limit below 1 is answered like a negative skip, with 500 `Error fetching products`. The store's real behaviour for `take: 0` or a negative `take`, and `Math.ceil(total / 0)`, are not modelled. The same holds for QuotesRoute.ListSpec.
- Ordering ties: rows with equal `createdAt`, or equal names, keep table order. The store leaves this unspecified. Names are ordered by code point. The database collation and the case sensitivity of `contains` are not modelled.
- Which category `findFirst` picks when several names contain the text is not specified by the store. The model takes the first in table order.
- Ids come from a per-table counter standing in for the database's key generation. `createdAt` is the `now` parameter of each create.
- Database integrity errors, each a 500 in the source, are not modelled. These are a missing or dangling `categoryId`, unknown technique ids, and required columns left null.
- The `include`s that only add data to an answer are not modelled: the technique records of a listed product, and the user and product selects of a listed quote. The product answer includes its category; the technique links are kept as a set of ids.
- The same code-check-then-insert of every POST is atomic in the model. The race between the lookup and the insert, and `Promise.all` fan-out, are not modelled.
- The `[id]` routes (GET, PUT and DELETE by id) are not part of this model.
- I/O and UI plumbing are not modelled: `fetch` (its result is a parameter: `Outcome`, or `ok` for the quote), `NextResponse`, `console.log`, toasts, DOM scrolling and `setTimeout`, window events (recorded as `Dispatch` actions), `form.reset()` on the catalogue page, the loading flag, `fetchCategories`, and all JSX rendering.
- `src/app/page.tsx` repeats the product transform of the catalogue page. `CatalogPage.ToView` models both.

