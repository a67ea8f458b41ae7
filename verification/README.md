# MUDAHURUS, verified

A model in Dafny of the parts of the MUDAHURUS order-management service whose
behaviour spans more than one function, with proofs of what they promise.
`dafny verify dfyconfig.toml` checks all of it.

| module | models |
|---|---|
| `InvoicePdf`, `InvoiceLines`, `PdfReader`, `InvoiceColumns` | the self-contained PDF writer, the invoice page, a reader of that format (ISO 32000-1) that recovers the text, and what it reads of an invoice's columns |
| `Notifications`, `RenderOrder` | placeholder rendering, whose replacements happen in map order |
| `Chunking`, `Embeddings`, `VectorStore`, `Ingestion`, `Assistant` | the retrieval index: windows, vectors, search, incremental ingestion, grounded answers |
| `Orders`, `OrderRuns`, `OrderPaths` | order and payment statements, the service calls, every interleaving of them, and which of them keep the transition table |
| `Currency` | the exchange of minor units |
| `ProductImages` | image replacement across the object store and the database |
| `RefreshTokens`, `WebClient` | rotating refresh tokens on the server and in the browser |
| `SchemaMigrate` | the self-migrating boot with several instances and crashes |
| `Argon2` | the encoded password hash and its base64 |
| `LegacyTransforms`, `LegacyMigration`, `LegacyFields`, `MigrationSucceeds` | the legacy migration, its counts, its parity view, what each row becomes, and when it succeeds |
| `Text`, `Runs` | decimal numbers, splitting, white space; runs of a state machine |

Conventions. One SQL statement or transaction is one atomic step, except that the
image swap takes its snapshot and updates the row in two; calls interleave between
steps. Floats are exact reals, stored amounts are whole sen.
Time, fresh ids, hashes, square roots, key derivation, the embedder, the language
model and number parsing are parameters; `uuid5` and SHA-256 are injective. A Go
string is a `string` of bytes, a Python string a `string` of code points. Loops
and in-place updates of the original are methods proved against a function, and
the lemmas are about that function.

What the proofs found, where the code and the expectation differ:

- An invoice's name column is 30 characters in the file, but a conforming reader
  turns a CR LF pair inside a name into one character.
- Rendering is independent of map order for all brace-free keys and values exactly
  when no brace pair of the template contains another. In such templates a value is
  harmless exactly when it has no brace, and a key exactly when it has no brace or
  nests braces once it stands in its own.
- The retrieval index never deletes: it disagrees with a rebuild as soon as a
  document vanishes or shrinks. A document's own payload may override the fixed
  payload fields, the tenant included.
- A paid webhook accepts an order whatever its status. Without it, the transition
  table breaks exactly when a call writes a status that is not allowed from one
  stored after its read: a proof upload revives an order that expired meanwhile, or
  one of two admins who read the same status overwrites the other's.
- A rounded order total may be off from its n rounded lines by n/2 sen, and is, for
  every n.
- A put that breaks off leaves a partial object that no product refers to, two
  overlapping image swaps strand the first image, and a swap that commits while its
  answer is lost leaves the product with a deleted image. When no delete fails,
  nothing else sets the two stores apart.
- A page reload during a token refresh leaves the browser with a revoked token
  exactly when the rotation took effect.
- A migration version used twice is never applied the second time, while later
  boots report success.
- The Argon2 version is parsed and not compared.
- A seller with two customers without a loyalty code blocks the whole legacy
  migration.
- The parity view is not undone for prices that are not whole sen, when quantity
  times the rounded price differs from the rounded line.

## Model

| member | source | states |
|---|---|---|
| InvoicePdf.EscapePDF | api/internal/orders/invoice.go:103-115 | the loop over runes and the three replacements equal the folded, escaped text the reader lemmas speak about |
| InvoicePdf.WriteContent | api/internal/orders/invoice.go:67-75 | the content loop writes the text operators of all lines |
| InvoicePdf.WriteBody | api/internal/orders/invoice.go:85-91 | after the object loop every recorded offset is the length of what was written before that object |
| InvoicePdf.WriteEntries | api/internal/orders/invoice.go:95-97 | the entry loop turns those offsets into the cross-reference entries |
| InvoicePdf.WriteFile | api/internal/orders/invoice.go:85-100 | body, table, trailer and `startxref` together are the laid-out file |
| InvoicePdf.BuildPDF | api/internal/orders/invoice.go:66-101 | the written bytes are the layout of the five objects of these lines |
| InvoicePdf.FoldConcat | api/internal/orders/invoice.go:107-113 | decoding runes distributes over concatenation unless the second part starts inside a rune, so a cut rune cannot swallow what follows |
| InvoicePdf.RuneOfCodePoint | api/internal/orders/invoice.go:107-113 | the UTF-8 bytes of every code point (RFC 3629, section 3) are one rune, shown as itself when ASCII and as one `?` otherwise |
| InvoicePdf.RuneIsCodePoint | api/internal/orders/invoice.go:107-113 | and only those are runes of more than one byte |
| InvoiceLines.RenderPDF | api/internal/orders/invoice.go:18-56 | the loops of RenderPDF build exactly the page that the `InvoiceColumns` rows read back column by column |
| InvoiceLines.TruncateWidth | api/internal/orders/invoice.go:58-63 | truncation leaves at most n runes for any bytes, even when it cuts a rune |
| InvoiceLines.NameColumnWidth | api/internal/orders/invoice.go:41-47 | the name column is 30 characters wide for every byte string |
| InvoiceLines.NormalisedWidth | api/internal/orders/invoice.go:103-115 | reading end-of-line markers shortens a text exactly when it holds a CR LF pair |
| InvoiceLines.ItemNameRead | api/internal/orders/invoice.go:39-47 | read back from the file, line 14+k starts with item k's name column, 30 wide exactly when the bytes kept of the name hold no CR LF |
| InvoiceLines.CrLfNarrows | api/internal/orders/invoice.go:39-47 | every name with a CR LF pair among its first 29 bytes is such a column: the reader sees fewer than 30 characters |
| PdfReader.LiteralRoundTrip | api/internal/orders/invoice.go:103-115 | a literal-string reader (ISO 32000-1, section 7.3.4.2) undoes escaping for every text; only end-of-line markers are normalised |
| PdfReader.ContentRoundTrip | api/internal/orders/invoice.go:67-75 | reading the text operators gives back every line from any index on |
| PdfReader.EntryWidth | api/internal/orders/invoice.go:95-97 | an entry has its 20 bytes exactly when the offset is below 10^10 |
| PdfReader.EntryFound | api/internal/orders/invoice.go:92-97 | with offsets below 10^10, entry i of the table holds the offset of object i |
| PdfReader.ObjectFound | api/internal/orders/invoice.go:85-100 | from the last `startxref` through the table a reader lands on `i 0 obj` of every object, whatever the objects contain (section 7.5) |
| PdfReader.StreamFound | api/internal/orders/invoice.go:82 | `/Length` delimits exactly the content, even content with `endstream` or `endobj` in it (section 7.3.8.2) |
| PdfReader.RootFound | api/internal/orders/invoice.go:99-100 | the trailer after the last table entry names object 1 as the catalogue |
| PdfReader.ContentsFound | api/internal/orders/invoice.go:77-83 | catalogue, page tree and page lead to the content stream (sections 7.7.2 and 7.7.3) |
| PdfReader.InvoiceOffsetsFit | api/internal/orders/invoice.go:77-97 | an invoice's offsets fit their ten digits however long its lines are |
| PdfReader.PageRoundTrip | api/internal/orders/invoice.go:66-115 | from the bytes alone, following the trailer's references to the page content, a reader recovers every line: non-ASCII runes and invalid bytes as one `?`, line ends normalised, nothing excluded |
| InvoiceColumns.ItemRowRead | api/internal/orders/invoice.go:41-47 | from the bytes of the file, the last three columns of line 14+k read as item k's quantity, its unit price and its line total, for every name |
| InvoiceColumns.ItemNameShown | api/internal/orders/invoice.go:41-47 | the line starts with the product's name, or the SKU of an item without one, cut to 29 bytes and an ellipsis when longer than 30 |
| InvoiceColumns.ItemRowWidth | api/internal/orders/invoice.go:46 | every item line is 62 characters wide unless a number is too long for its column or the name holds CR LF |
| InvoiceColumns.HeadingsRead | api/internal/orders/invoice.go:38-40 | the headings read Item, Qty, Unit, Total, in the order of the columns |
| InvoiceColumns.TotalRead | api/internal/orders/invoice.go:48-49 | behind the items a rule, then a line whose last column reads as the order's total; the number of lines is stated |
| InvoiceColumns.NotesRead | api/internal/orders/invoice.go:50-53 | notes come last, cut at 80 bytes |
| InvoiceColumns.HeaderRead | api/internal/orders/invoice.go:22-35 | each labelled line carries its own field; the store's name comes before the seller's |
| InvoiceColumns.AddressRead | api/internal/orders/invoice.go:36-37 | the address line carries its five parts in order |
| Notifications.Render | api/internal/enhancements/eh3_notifications.go:60-69 | visiting the keys in any order renders in that order; for flat templates and brace-free variables the result is one simultaneous substitution |
| Notifications.TwoRounds | api/internal/enhancements/eh3_notifications.go:65-67 | two rounds of replacement equal one with both maps when no leftover brace can open a new placeholder |
| Notifications.FlatOrder | api/internal/enhancements/eh3_notifications.go:65-67 | on a flat template any prefix of any order equals the simultaneous substitution of the keys visited |
| Notifications.FlatRendersAtOnce | api/internal/enhancements/eh3_notifications.go:60-69 | every complete order of a flat template gives the simultaneous substitution |
| Notifications.NestedOrdersDiffer | api/internal/enhancements/eh3_notifications.go:60-69 | every template with a brace pair inside another has brace-free keys and values and two orders that render differently |
| Notifications.OrderIndependentIffFlat | api/internal/enhancements/eh3_notifications.go:60-69 | the map's iteration order is irrelevant for all brace-free keys and values exactly when no brace pair contains another |
| RenderOrder.ValueKeepsOrderIffBraceFree | api/internal/enhancements/eh3_notifications.go:60-69 | a value leaves every flat template independent of the order, beside every choice of other brace-free variables, exactly when it is free of braces |
| RenderOrder.KeyKeepsOrderIff | api/internal/enhancements/eh3_notifications.go:60-69 | a key leaves every flat template independent of the order, beside every choice of brace-free values and other keys, exactly when it is free of braces or its own placeholder nests braces, and so is never found |
| RenderOrder.FlatIffNoNesting | api/internal/enhancements/eh3_notifications.go:60-69 | flat means: no matched pair of braces contains another |
| Notifications.TemplatesFlat | api/internal/enhancements/eh3_notifications.go:40-44 | the built-in templates are flat |
| Notifications.OrderConfirmedSays | api/internal/enhancements/eh3_notifications.go:40-69 | the rendered confirmation, for all brace-free values and any order of the variables |
| Notifications.PaymentReminderSays | api/internal/enhancements/eh3_notifications.go:40-69 | the rendered reminder |
| Notifications.ShippedSays | api/internal/enhancements/eh3_notifications.go:40-69 | the rendered shipping notice |
| Notifications.OwnBody | api/internal/enhancements/eh3_notifications.go:60-64 | a text that names no template is its own body |
| Chunking.ChunkText | rag/mudahurus_rag/chunking.py:14-29 | the while loop computes the chunks the lemmas speak about |
| Chunking.ChunkCount | rag/mudahurus_rag/chunking.py:23-28 | the number of windows is the remaining length over the step, rounded up |
| Chunking.CeilDivIsCeiling | rag/mudahurus_rag/chunking.py:23-28 | that quotient is the mathematical ceiling |
| Chunking.LongText | rag/mudahurus_rag/chunking.py:20-29 | with step = max(1, max_words - overlap), for any integers: ceil(len/step) chunks, chunk i holding max_words words from i*step on, fewer at the end; the first `step` words of the chunks are the text exactly when max_words >= 1 and overlap >= 0 |
| Chunking.ShortText | rag/mudahurus_rag/chunking.py:15-19 | a text of at most max_words words is one chunk with all its words, a blank one none |
| Chunking.WhitespaceIrrelevant | rag/mudahurus_rag/chunking.py:15-29 | normalising white space first changes no chunk |
| Chunking.ChunkNumbers | rag/mudahurus_rag/chunking.py:22-28 | chunks are numbered 0, 1, 2, ... |
| Embeddings.CauchySchwarz | rag/mudahurus_rag/vectorstore.py:139-148 | the inner product never exceeds the product of the norms, for vectors of any length |
| Embeddings.CosineBounded | rag/mudahurus_rag/vectorstore.py:139-148 | every score lies in [-1, 1], also for vectors of different lengths |
| Embeddings.SelfScore | rag/mudahurus_rag/vectorstore.py:139-148 | a vector scores 1 against itself, 0 when its norm is 0 |
| Embeddings.ScoreTimesNorms | rag/mudahurus_rag/vectorstore.py:139-148 | the score times the two norms is the inner product of the common part; without a norm it is 0 |
| Embeddings.DotAppends | rag/mudahurus_rag/vectorstore.py:143-145 | inner product and sum of squares take every coordinate once |
| Embeddings.NormZeroOrOne | rag/mudahurus_rag/embeddings.py:70-74 | normalising gives norm 0 or 1 |
| Embeddings.CountTokens | rag/mudahurus_rag/embeddings.py:35-40 | the loop that updates the vector in place leaves in coordinate i the number of tokens with hash % dim == i and bit 8 set, less the number with that index and bit 8 clear |
| Embeddings.Embed | rag/mudahurus_rag/embeddings.py:32-42 | each output is the embedding that `EmbeddingIs` and `OneTokenEmbedding` characterise |
| Embeddings.EmbeddingIs | rag/mudahurus_rag/embeddings.py:32-42 | an embedding times its norm is the vector of those balances of tokens |
| Embeddings.OneTokenEmbedding | rag/mudahurus_rag/embeddings.py:32-42 | a text of one token is embedded as a unit vector at that token's index, with its sign |
| Embeddings.TokenFirst | rag/mudahurus_rag/embeddings.py:66-67 | a run of letters and digits is one token in lower case, and what follows another character is read on its own |
| Embeddings.TokenSkips | rag/mudahurus_rag/embeddings.py:66-67 | every other character is passed over |
| Embeddings.LowerPairs | rag/mudahurus_rag/embeddings.py:66-67 | the 26 letters in lower case |
| Embeddings.BagOfMultiset | rag/mudahurus_rag/embeddings.py:35-40 | the bag depends on the multiset of tokens only |
| Embeddings.EmbeddingOfTokens | rag/mudahurus_rag/embeddings.py:32-42 | texts with the same token multiset have the same embedding, of norm 0 or 1 |
| VectorStore.PointNameInjective | rag/mudahurus_rag/vectorstore.py:29-33 | the hashed name determines all four parts when tenant and source type have no colon, whatever the source id holds |
| VectorStore.ColonInSourceTypeCollides | rag/mudahurus_rag/vectorstore.py:29-33 | for all names, a colon may move between source type and source id without changing the hashed name |
| VectorStore.SharedNameIff | rag/mudahurus_rag/vectorstore.py:29-33 | two points of a tenant share a name exactly when their numbers agree and source type and id, joined by a colon, are one text |
| VectorStore.InMemoryVectorStore.Upsert | rag/mudahurus_rag/vectorstore.py:52-55 | the loop stores the last point of every id, adds exactly the new ids, leaves all other points and the order of the old ones alone |
| VectorStore.InMemoryVectorStore.Search | rag/mudahurus_rag/vectorstore.py:57-70 | the scan, sort and cut equal the specified search; a missing tenant is an error |
| VectorStore.InMemoryVectorStore.Count | rag/mudahurus_rag/vectorstore.py:72-75 | walking the points in insertion order counts each point of the tenant once; without a tenant, all points |
| VectorStore.CountAfterPut | rag/mudahurus_rag/vectorstore.py:52-75 | putting a point adds one to its tenant's count and takes one from the tenant whose point it replaces; in all it adds one when the id is new |
| VectorStore.MatchesComplete | rag/mudahurus_rag/vectorstore.py:62-68 | every stored point of the tenant, and of one of the wanted source types when any are named, is a hit with its own id, payload and score |
| VectorStore.MatchesSound | rag/mudahurus_rag/vectorstore.py:62-68 | and nothing else is a hit |
| VectorStore.SortIsStable | rag/mudahurus_rag/vectorstore.py:69 | the sort is descending, keeps every hit and keeps ties in order |
| VectorStore.StableSortUnique | rag/mudahurus_rag/vectorstore.py:69 | only one arrangement is descending and stable |
| VectorStore.TakeIs | rag/mudahurus_rag/vectorstore.py:70 | the first k hits; for a negative k all but the last -k |
| VectorStore.SearchPrefix | rag/mudahurus_rag/vectorstore.py:57-70 | the results for k are a prefix of those for any larger k, and number k or all matches |
| VectorStore.NoBetterOmitted | rag/mudahurus_rag/vectorstore.py:69-70 | no match left out scores above one returned |
| VectorStore.ThresholdIsPrefix | rag/mudahurus_rag/assistant/service.py:51 | on descending hits the threshold cuts off a tail |
| VectorStore.ThresholdCommutes | rag/mudahurus_rag/assistant/service.py:48-51 | filtering by threshold and taking k commute |
| Ingestion.CollectDoc | rag/mudahurus_rag/ingestion/pipeline.py:31-33 | the inner loop appends exactly the chunks of one document |
| Ingestion.CollectChunks | rag/mudahurus_rag/ingestion/pipeline.py:28-33 | the outer loop pairs every chunk text with its document and number |
| Ingestion.DocumentsToPoints | rag/mudahurus_rag/ingestion/pipeline.py:27-49 | the points are those of the documents in order |
| Ingestion.PointCarries | rag/mudahurus_rag/ingestion/pipeline.py:38-48 | point i of a document: its id, the embedding of its text, and the five payload fields unless the document's own payload has them; its text is the whole document or 180 words from word 150 * i on |
| Ingestion.IngestTenant | rag/mudahurus_rag/ingestion/pipeline.py:52-74 | ingesting upserts the points of the extracted and the extra documents, and reports the documents, the chunks, the upserts and the tenant's points afterwards |
| Ingestion.TenantOfPoints | rag/mudahurus_rag/ingestion/pipeline.py:40-47 | a stored point belongs to its document's tenant exactly when the document's own payload does not say otherwise |
| Ingestion.DisjointIds | rag/mudahurus_rag/ingestion/pipeline.py:39 | different sources never share a point id, given colon-free tenants and source types |
| Ingestion.IncrementalIsFull | rag/mudahurus_rag/ingestion/pipeline.py:52-66 | on a store that holds the unchanged documents, ingesting only the changed ones leaves the same store, order included, as ingesting all |
| Ingestion.IngestedAreHeld | rag/mudahurus_rag/ingestion/pipeline.py:52-66 | an ingest of distinct sources leaves every one of them held |
| Ingestion.IncrementalOverEarlier | rag/mudahurus_rag/ingestion/pipeline.py:52-66 | so on top of any earlier ingest, ingesting only what is new or changed since gives the same store, order included, as ingesting everything |
| Ingestion.IngestTwice | rag/mudahurus_rag/ingestion/pipeline.py:52-66 | ingesting twice is ingesting once, whatever was stored before |
| Ingestion.AgreesWithRebuild | rag/mudahurus_rag/ingestion/pipeline.py:52-66 | the index holds the same points as a rebuild from the current documents if and only if no earlier document vanished or lost chunks |
| Assistant.CitationsArePrefix | rag/mudahurus_rag/assistant/service.py:42-60 | a grounded answer cites exactly the first hits, as many as reach the threshold |
| Assistant.RefusalIff | rag/mudahurus_rag/assistant/service.py:51-57 | the assistant refuses exactly when no hit reaches the threshold or the model stays silent |
| Assistant.AnswerIs | rag/mudahurus_rag/assistant/service.py:48-60 | a grounded answer is the model's words about the texts of the cited hits, and cites for each its source and its score to four places |
| Assistant.HitsComplete | rag/mudahurus_rag/retrieval/service.py:29-45 | as long as fewer hits come back than asked for, every point of the tenant, for the storefront every product and category, is one |
| Assistant.NothingAsked | rag/mudahurus_rag/retrieval/service.py:31-34 | a missing tenant is an error and a blank question is refused |
| Assistant.HitsInScope | rag/mudahurus_rag/retrieval/service.py:29-45 | every hit is a stored point of the asking tenant; in the storefront scope only a product or a category |
| Assistant.HitsDescend | rag/mudahurus_rag/retrieval/service.py:36-45 | hits come in descending score |
| Orders.CanTransition | api/internal/orders/repo.go:29-36 | the search loop decides membership in the transition table |
| Orders.EnteredFrom | api/internal/orders/repo.go:19-27 | from which statuses each status can be entered |
| Orders.Repo.Create | api/internal/orders/repo.go:87-127 | the order is stored pending with details, expiry and its items as lines: all their fields, prices and line totals to the nearest sen, its own or the summed total; or nothing is stored |
| Orders.Repo.UpdateStatus | api/internal/orders/repo.go:129-140 | the status of the tenant's order changes, every other field, order and payment stays; `found` says whether the tenant owns it |
| Orders.Repo.UpdateDetails | api/internal/orders/repo.go:142-156 | details and total of the tenant's order are rewritten, everything else stays |
| Orders.Repo.Delete | api/internal/orders/repo.go:158-167 | the order and, by the cascade, exactly its payments go |
| Orders.Repo.ExpireStale | api/internal/orders/repo.go:284-292 | exactly the pending orders past their time become expired, all else stays, and their number is returned |
| Orders.Repo.AddPayment | api/internal/orders/repo.go:296-303 | a payment is added unless its order is gone |
| Orders.Repo.SetPaymentStatus | api/internal/orders/repo.go:305-317 | a payment's status changes only through an order of the tenant |
| Orders.Service.UpdateStatus | api/internal/orders/service.go:98-113 | exactly the wanted status is written to the tenant's order when the table allows it; otherwise nothing is |
| Orders.Service.UpdateDetails | api/internal/orders/service.go:115-126 | the edit rewrites the details of the tenant's order and nothing else |
| Orders.Service.AddPaymentProof | api/internal/orders/service.go:147-161 | a proof adds a submitted payment of the given amount and moves a pending order to payment_received; nothing else changes |
| Orders.Service.PaymentWebhook | api/internal/enhancements/module.go:357-396 | a paid callback verifies the payment if it belongs to the order's tenant, accepts the order without looking at its status, and changes nothing else |
| Orders.Service.ChargeOrder | api/internal/enhancements/module.go:303-336 | if the gateway accepts, exactly a submitted payment of the order's total is added and the converted amount was charged; otherwise nothing is stored |
| Orders.BuildItems | api/internal/orders/service.go:41-59 | every input becomes one item in order: quantity 1 when none is given; for a known SKU the catalogue's product and name, and its price when none was sent; for an unknown one no product, no name and the price as sent |
| Orders.OrderedAtCatalogPrice | api/internal/orders/service.go:41-59 | from the request to the stored order: a line sent without a price for a known SKU is stored at the catalogue's price, under its product and name |
| Orders.TotalDrift | api/internal/orders/repo.go:97-104 | a rounded total and the sum of n rounded lines differ by at most n/2 sen, rounded down, for every total that may be stored; by 0 when lines are whole sen |
| Orders.LineDrift | api/internal/orders/repo.go:97-101 | a stored line total is within half a sen of the exact amount and quantity/2 sen of quantity times the stored price, for storable prices; equal to it for whole-sen prices |
| Orders.CreatedTotal | api/internal/orders/repo.go:87-127 | a created order is pending, holds its lines, and its stored total meets the n/2 bound; exact for whole-sen prices |
| Orders.DriftReached | api/internal/orders/repo.go:97-104 | for every n the bound n/2 is reached in both directions |
| OrderRuns.EveryInterleaving | api/internal/orders/repo.go:129-140 | in every interleaving, webhook included: never back to pending, accepted before shipped, received before rejected, and the stored status is the last written |
| OrderRuns.TotalsFixed | api/internal/orders/repo.go:296-303 | in every interleaving a stored total never changes and every payment is for exactly its order's total |
| OrderRuns.TerminalAbsorbs | api/internal/orders/repo.go:19-27 | shipped, expired and cancelled end a history |
| OrderRuns.ShippedShape | api/internal/orders/repo.go:19-27 | every shipped history is pending, received, (rejected, received)*, accepted, shipped |
| OrderRuns.Receipts | api/internal/orders/repo.go:19-27 | receipts equal rejections plus 0 or 1, as fixed by how the history stands |
| OrderRuns.WholeIsService | api/internal/orders/service.go:98-161 | the statements of one call, run without interruption, do what the service method is specified to do |
| OrderRuns.SerialPaths | api/internal/orders/service.go:98-161 | serial runs without the webhook follow the transition table |
| OrderRuns.WebhookPath | api/internal/enhancements/module.go:382-389 | a paid webhook keeps the table exactly when the payment had been received and not yet decided |
| OrderRuns.UploadRevivesExpired | api/internal/orders/handler.go:211-245 | a proof upload that read `pending` before the order expired always brings it back from expired; the exact condition is below |
| OrderPaths.EventKeepsTableIff | api/internal/orders/repo.go:19-36 | in any state the calls can reach, one event keeps a history on the table exactly when what it writes is allowed from the stored status |
| OrderPaths.TableKeptIff | api/internal/orders/service.go:98-161 | in every run, webhook included, a history follows the table exactly when each of its writes was allowed from the status stored at that moment |
| OrderPaths.OnlyOvertakenBreak | api/internal/orders/service.go:98-161 | without the webhook a write can break the table only when another status was stored since the call's read |
| OrderPaths.WebhookFreeTableIff | api/internal/orders/service.go:98-161 | in every run without the webhook the table is kept exactly when all overtaken writes were still allowed |
| OrderPaths.StaleUploadIff | api/internal/orders/handler.go:211-245 | an upload around a sweep of stale orders keeps the table exactly when the sweep did not expire the order |
| OrderPaths.TwoAdminsIff | api/internal/orders/service.go:98-113 | two status changes that both read first keep the table exactly when the second is allowed after the first |
| OrderPaths.SerialHistory | api/internal/orders/service.go:98-161 | in serial runs without the webhook: terminal statuses end, shipped histories have the one shape, receipts equal rejections plus 0 or 1 |
| Currency.ExchangeNearest | api/internal/enhancements/eh6_payments.go:87-89 | a converted amount is the nearest whole number of minor units, halves up |
| Currency.ConvertNearest | api/internal/enhancements/eh6_payments.go:76-90 | Convert leaves equal currencies alone, gives the nearest whole amount between supported ones, and otherwise only renames the currency |
| Currency.RinggitBuys | api/internal/enhancements/eh6_payments.go:68-72 | the rates: 100 sen are 30 Singapore cents or 22 US cents, in all six directions |
| Currency.UpperPairs | api/internal/enhancements/eh6_payments.go:76-77 | currency codes in either case |
| Currency.ThereAndBack | api/internal/enhancements/eh6_payments.go:76-90 | there and back between two rates: exact towards the finer unit, off by at most 2 otherwise |
| Currency.RoundTripError | api/internal/enhancements/eh6_payments.go:76-90 | for non-negative amounts and supported currencies Convert and back is off by at most 2 minor units, 1 between SGD and USD, 0 towards a finer unit |
| Currency.CoarserLoses | api/internal/enhancements/eh6_payments.go:68-90 | towards a coarser unit some amount does not survive |
| Currency.ExactIffFiner | api/internal/enhancements/eh6_payments.go:68-90 | the round trip is exact for every amount exactly when the other currency is not coarser |
| ProductImages.LocalStorage.Put | api/internal/storage/local.go:36-58 | a put stores the object, or removes one that is too large unless that fails, or leaves what was copied when it breaks off |
| ProductImages.LocalStorage.Delete | api/internal/storage/local.go:71-79 | deleting removes the object; a missing one counts as deleted |
| ProductImages.ProductRepo.SetProductImage | api/internal/catalog/repo.go:151-160 | the swap returns the old key and changes one product's key; after an error the row may or may not have changed |
| ProductImages.ProductRepo.UpdateProduct | api/internal/catalog/repo.go:136-149 | an edit leaves image keys alone |
| ProductImages.ProductRepo.DeleteProduct | api/internal/catalog/repo.go:162-171 | deleting a product leaves its object behind |
| ProductImages.UploadImage | api/internal/catalog/handler.go:125-164 | put, swap, delete, with every outcome of each: both stores and the answer afterwards |
| ProductImages.ImagesExist | api/internal/catalog/handler.go:147-158 | in every run without lost answers every image key names an existing object |
| ProductImages.ImagesExistIff | api/internal/catalog/handler.go:147-158 | in every run of uploads, edits and deletes, with overlapping swaps, failing statements and lost answers: no two products share a key, and a key names an object exactly when it is not the key of a committed swap that was reported as an error and then deleted |
| ProductImages.LostSwapDangles | api/internal/catalog/handler.go:147-151 | from every reachable state an upload can leave a product with a missing image: the swap commits, its answer is lost, the delete works |
| ProductImages.ObjectsConserved | api/internal/catalog/handler.go:125-164 | at every moment the objects are exactly the live keys, those held by uploads, last keys of deleted products, undeleted and stranded images and broken puts, less the deleted ones; the places are disjoint |
| ProductImages.QuiescentObjects | api/internal/catalog/handler.go:125-164 | when uploads have finished, no delete failed and no answer was lost, the objects are exactly the live keys plus the last keys of deleted products if and only if no put broke off after creating its file and no two swaps of a product overlapped |
| ProductImages.QuiescentExactly | api/internal/catalog/handler.go:125-164 | with lost answers too: if and only if no put broke off, every stranded key was deleted, and no live or last key was |
| ProductImages.BrokenPutStays | api/internal/storage/local.go:46-58 | what a broken put leaves stays: in every later state its object exists and nothing refers to it |
| ProductImages.StaleForgets | api/internal/catalog/repo.go:151-160 | a swap whose snapshot is older than the row it updates strands the image it displaces: no delete is asked for |
| ProductImages.OverlapStrands | api/internal/catalog/repo.go:151-160 | two uploads to one product whose swaps overlap both succeed and leave the first image behind |
| ProductImages.WholeUpload | api/internal/catalog/handler.go:147-158 | the three steps without interruption do to the stores what UploadImage does |
| ProductImages.WholeProductCalls | api/internal/catalog/repo.go:136-171 | creating, editing and deleting a product do to the two stores what the statements do |
| RefreshTokens.Store.SaveRefresh | api/internal/auth/store.go:83-88 | a new token row, refused when the hash is taken |
| RefreshTokens.Store.RotateRefresh | api/internal/auth/store.go:92-102 | exactly an unrevoked, unexpired token is revoked, nothing else changes, and its owner is returned; afterwards it is never exchangeable again |
| RefreshTokens.Store.RevokeRefresh | api/internal/auth/store.go:104-108 | the token is not exchangeable at any time afterwards |
| RefreshTokens.Store.ConsumeAuthToken | api/internal/auth/store.go:120-130 | a token is good once, for its own purpose, before it expires; other tokens are untouched |
| RefreshTokens.Store.Refresh | api/internal/auth/service.go:111-122 | rotate, look up the tenant, save: the table afterwards in every outcome |
| RefreshTokens.Store.Reset | api/internal/auth/service.go:156-169 | a password changes only for a fresh reset token of that tenant, which is spent |
| RefreshTokens.ExchangedOnce | api/internal/auth/store.go:92-102 | in every run of any callers, with failing statements and lost answers, no token is exchanged twice |
| RefreshTokens.OneTokenPerLogin | api/internal/auth/service.go:32-45 | a login session has at most one unrevoked token, none while a rotation is under way, and one tenant throughout |
| RefreshTokens.RevokedForGood | api/internal/auth/store.go:92-108 | rows never vanish, change hands or become usable again |
| RefreshTokens.WholeRefresh | api/internal/auth/service.go:111-122 | the three statements without interruption leave the table Store.Refresh leaves |
| RefreshTokens.WholeLogin | api/internal/auth/service.go:32-45 | a login that nothing interrupts adds the fresh token's row and answers with it |
| RefreshTokens.WholeLogout | api/internal/auth/store.go:104-108 | a logout revokes the token it carries and nothing else |
| RefreshTokens.BrowserHoldsTheToken | web/src/stores/auth.js:20-71 | a browser that sends one request at a time is, between requests, logged out or holds a token; unless a request it abandoned has revoked it, that is the one unrevoked token of its session, even when answers are lost |
| RefreshTokens.HeldRevokedIff | web/src/stores/auth.js:20-71 | with page reloads at any moment: between requests the held token is revoked if and only if a request the browser abandoned has revoked it |
| RefreshTokens.AbandonedRotation | web/src/stores/auth.js:36-53 | from every such state, a rotation that takes effect and is abandoned by a reload leaves the browser with a revoked token |
| RefreshTokens.NeverRevokedWithoutReload | web/src/stores/auth.js:20-71 | without reloads the held token is never revoked |
| WebClient.AuthStore.Login | web/src/stores/auth.js:20-35 | a failed login changes nothing; a good one installs and persists the pair |
| WebClient.AuthStore.RefreshTokens | web/src/stores/auth.js:36-53 | the current refresh token is presented; only a good answer changes and persists the pair |
| WebClient.AuthStore.LogoutEverywhere | web/src/stores/auth.js:54-71 | whatever the server says, the store and local storage end logged out |
| WebClient.Request | web/src/api.js:8-35 | everything a request can say: the resource; or resource and failed refresh, ending logged out; or resource, refresh, resource with the new token |
| WebClient.ConversationSays | web/src/api.js:8-35 | the caller gets what the last answer about the resource says; it is asked about once more exactly after a 401 with a token at hand and a refresh that worked |
| WebClient.OneRequest | web/src/api.js:8-35 | one request fetches the resource once or twice and refreshes at most once, twice only after refreshing |
| WebClient.NeverPresentedTwice | web/src/api.js:20-24 | over any number of requests no refresh token is presented twice if the server hands none out twice; at most 2n fetches and n refreshes |
| SchemaMigrate.FileNameRead | api/internal/db/migrate.go:89-106 | a file named after the convention is read back with its version and name, underscores in the name included |
| SchemaMigrate.NameReadIff | api/internal/db/migrate.go:90-102 | what any file name says: nothing without the suffix; otherwise the number before the first underscore and the name behind it |
| SchemaMigrate.AtoiRead | api/internal/db/migrate.go:98-101 | signs are read and numbers beyond 64 bits refused |
| SchemaMigrate.LoadMigrations | api/internal/db/migrate.go:83-110 | one bad name is an error; otherwise the list ascends and holds every migration exactly as often as a file carries its version, its name and, as content, its script |
| SchemaMigrate.ListedIff | api/internal/db/migrate.go:83-110 | so a migration is listed exactly when a file carries it |
| SchemaMigrate.SortSorts | api/internal/db/migrate.go:108 | sorting is ascending and keeps every migration |
| SchemaMigrate.OrderIsUnique | api/internal/db/migrate.go:108 | with distinct versions there is one ascending order, so an unstable sort is determined |
| SchemaMigrate.Database.Transaction | api/internal/db/migrate.go:64-78 | script and row commit together or not at all; a recorded version is refused |
| SchemaMigrate.Migrate | api/internal/db/migrate.go:30-81 | a boot that reports no error leaves every version recorded; on its way through distinct versions it ends so exactly when no row was missed and every pending transaction worked, and otherwise stops right at the first that did not |
| SchemaMigrate.CommitsAreAPrefix | api/internal/db/migrate.go:30-81 | with any number of instances, older programs, crashes, lost answers and partial reads: commits are a prefix of the list, the rows are exactly theirs, and an error-free boot leaves its list committed |
| SchemaMigrate.FilesAreRun | api/internal/db/migrate.go:30-110 | in every run, once a boot that knows the whole list reports no error, the committed scripts are exactly the contents of the up files, under their versions and names |
| SchemaMigrate.NoneSkipped | api/internal/db/migrate.go:60-79 | on an ascending list no pending version is below a committed one |
| SchemaMigrate.CommittedOnce | api/internal/db/migrate.go:64-78 | no version commits twice, for any list |
| SchemaMigrate.RepeatIsHidden | api/internal/db/migrate.go:60-63 | for every list with a repeated version, a run in which a boot reports no error although a script it knows never ran |
| SchemaMigrate.BootsApplyIffDistinct | api/internal/db/migrate.go:30-81 | error-free boots leave their whole list committed in every run exactly when versions are distinct |
| Argon2.Base64RoundTrip | api/internal/auth/argon2.go:45-46 | unpadded base64 decodes what it encoded for every byte string and never prints a `$` (RFC 4648, sections 3.2 and 4) |
| Argon2.Alphabet | api/internal/auth/argon2.go:45-46 | the symbols, in the order of RFC 4648, table 1 |
| Argon2.GroupValue | api/internal/auth/argon2.go:45-46 | three bytes and their four sextets are one number of 24 bits; short groups are filled with zeros (section 4) |
| Argon2.GroupFirst | api/internal/auth/argon2.go:45-46 | groups are encoded one after the other |
| Argon2.DecodesIff | api/internal/auth/argon2.go:65-72 | the decoder accepts exactly alphabet symbols, line ends aside, whose number is not 1 modulo 4 |
| Argon2.SplitOfJoin | api/internal/auth/argon2.go:53 | splitting at a separator undoes joining parts that do not hold it |
| Argon2.ParseOfFormat | api/internal/auth/argon2.go:43-72 | the encoded string gives back parameters, salt and key for all parameters in range; text after the last number is ignored |
| Argon2.HashPrinted | api/internal/auth/argon2.go:25-48 | what is stored: 64 MiB, three passes, two lanes, a key of 32 bytes, and the prefix that says so, then salt and key |
| Argon2.AcceptedIffSameKey | api/internal/auth/argon2.go:52-76 | a password is accepted for an encoded key exactly when it derives that key; the version is never compared |
| Argon2.HashThenVerify | api/internal/auth/argon2.go:36-76 | after hashing p, verification accepts q exactly when q derives the same key, hence always p |
| Argon2.SaltShows | api/internal/auth/argon2.go:36-48 | equal encoded strings have equal salt and key |
| Argon2.SomeHashExists | api/internal/auth/argon2.go:36-48 | a derivation exists for which hashing succeeds, so the results above speak of something |
| LegacyTransforms.NamesInjective | migration/mudahurus_migrate/transforms.py:16-22 | the names ids are derived from differ for different rows, kinds or tenants |
| LegacyTransforms.ViewIsCleanedRow | api/internal/db/migrations/000003_orders.up.sql:50-74 | the parity view over a transformed order is the legacy row stripped, defaulted and rounded to the sen |
| LegacyTransforms.RetractionIffAmountsAgree | migration/mudahurus_migrate/transforms.py:104-150 | transforming the flat row again gives the same header and item exactly when the stored line total is quantity times the stored price and a zero total means a zero line |
| LegacyTransforms.WholeSenAgrees | migration/mudahurus_migrate/transforms.py:115-137 | that holds for all prices that are whole sen |
| LegacyTransforms.HalfSenDrifts | migration/mudahurus_migrate/transforms.py:115-137 | and fails for three items at half a sen |
| LegacyFields.CleanIs | migration/mudahurus_migrate/transforms.py:31-32 | cleaning takes the white space from both ends, all of it, and nothing else |
| LegacyFields.PriceIs | migration/mudahurus_migrate/transforms.py:35-41 | a price is its number without commas; missing, empty or no number it counts as 0 |
| LegacyFields.CommasGo | migration/mudahurus_migrate/transforms.py:39 | all commas go and nothing else |
| LegacyFields.LoadedIs | migration/mudahurus_migrate/__main__.py:67-129 | over any table, each row is there afterwards: as it is when its id is new, merged by the conflict clause when it was there; all else stays and nothing else comes |
| LegacyFields.MigratedUser | migration/mudahurus_migrate/transforms.py:44-59 | what a user becomes, field by field; for a tenant that was there only login and email follow |
| LegacyFields.MigratedCategory | migration/mudahurus_migrate/transforms.py:62-69 | what a category becomes; for one that was there only the name follows |
| LegacyFields.MigratedProduct | migration/mudahurus_migrate/transforms.py:72-88 | what a product becomes: name, description and SKU stripped, price to the sen, its category, active exactly for an empty or active status; for one that was there only name and price follow |
| LegacyFields.MigratedOrder | migration/mudahurus_migrate/transforms.py:91-129 | what an order becomes: texts, address, its own total or quantity times price, its own expiry or three days after it was placed or reached |
| LegacyFields.MigratedItem | migration/mudahurus_migrate/transforms.py:130-137 | its one item: SKU, quantity, price, line total |
| LegacyFields.MigratedPayment | migration/mudahurus_migrate/transforms.py:138-150 | a payment exists exactly when the order came with a proof; it is for the order's total, and verified exactly when the order was accepted or shipped |
| LegacyFields.MigratedCustomer | migration/mudahurus_migrate/transforms.py:153-169 | what a customer becomes, regular unless the row says otherwise |
| LegacyFields.MigratedCoupon | migration/mudahurus_migrate/transforms.py:172-182 | what a coupon becomes |
| LegacyFields.OldRowsStay | migration/mudahurus_migrate/__main__.py:93-129 | orders, items, payments, customers and coupons that were there stay as they were |
| LegacyMigration.LoadFromEmpty | migration/mudahurus_migrate/__main__.py:67-129 | into an empty table, rows with distinct ids land one for one |
| LegacyMigration.LoadAgain | migration/mudahurus_migrate/__main__.py:67-129 | rows already there, which their conflict clause leaves alone, change nothing |
| LegacyMigration.LoadRows | migration/mudahurus_migrate/__main__.py:67-91 | a table's loop inserts the transformed rows in order, or fails at the first refused one |
| LegacyMigration.LoadOrders | migration/mudahurus_migrate/__main__.py:93-113 | the orders loop fills orders, items and payments together and counts them |
| LegacyMigration.Target.Migrate | migration/mudahurus_migrate/__main__.py:55-138 | one run commits exactly the load of all tables that the `LegacyFields` rows describe field by field, or rolls back when no such load exists |
| LegacyMigration.EveryRowLands | migration/mudahurus_migrate/__main__.py:55-138 | into an empty target every row read becomes a row of its own; what it holds is stated by the `LegacyFields` rows |
| LegacyMigration.Reconcile | migration/mudahurus_migrate/reconcile.py:41-54 | ok exactly when every pair of counts could be taken and agrees |
| LegacyMigration.ReconcileOkIff | migration/mudahurus_migrate/reconcile.py:41-54 | after a successful run into an empty target reconcile says ok exactly when the unreadable tables had no rows |
| LegacyMigration.RunAgainChangesNothing | migration/mudahurus_migrate/__main__.py:67-130 | whatever the target held before, a second run at any later time leaves the database unchanged |
| LegacyMigration.LinkedKept | migration/mudahurus_migrate/__main__.py:76-129 | every run keeps all references inside the target and inside one tenant |
| LegacyMigration.ReferencesStayInTenant | migration/mudahurus_migrate/transforms.py:62-88 | after any number of runs a product's category and a coupon's product exist and belong to the same tenant |
| LegacyMigration.OneItemEach | api/internal/db/migrations/000003_orders.up.sql:71-74 | in a fresh target each order has exactly one item, so the view's choice is determined |
| LegacyMigration.ParityHolds | api/internal/db/migrations/000003_orders.up.sql:50-74 | the parity view over a migrated order of the target, whichever item it takes, is the cleaned legacy row |
| LegacyMigration.SmallShopMigrates | migration/mudahurus_migrate/__main__.py:55-138 | a shop with a row in every table meets the requirements of the results about a fresh target |
| MigrationSucceeds.LoadsIff | migration/mudahurus_migrate/__main__.py:67-129 | rows with distinct ids load into an empty table exactly when each passes its checks, finds what it refers to and clashes with no earlier row |
| MigrationSucceeds.MigratesIff | migration/mudahurus_migrate/__main__.py:55-138 | a shop migrates into an empty target exactly when all its rows fit: users with different logins, categories, products, orders, customers and coupons of known users, references found, names, SKUs and loyalty codes unlike within a user, amounts, quantities, statuses and dates storable |
| MigrationSucceeds.TwoCodelessCustomersBlock | migration/mudahurus_migrate/transforms.py:153-170 | a seller with two customers without a loyalty code blocks the whole run |

## Left out

- HTTP handlers, binding, middleware, CORS, metrics and logging; only the order of the steps of `uploadImage`, `PublicUploadPayment`, `paymentWebhook` and `charge` is modelled.
- Customers, coupons, categories, dashboards, pagination, the seeder and the Vue views: easy members only.
- Postgres, Qdrant, S3, SMTP, OCR and model providers beyond the atomic statements, CHECK, UNIQUE and foreign-key behaviour used here; NUL characters in Postgres texts.
- JWT signing and the insides of SHA-1, SHA-256, uuid5 and Argon2.
- The copilot's command parsing and keyword routing.
- Float64 rounding: amounts, rates, scores and prices are exact.
- Letter case and alphanumeric classes are those of ASCII; so is the white space skipped before a number in the encoded hash.
- Dates and ids reach the invoice as formatted texts.
- Orders.BuildItems: the case-insensitive SKU lookup is a parameter.
- Orders.CanTransition: a status that is not one of the seven, which the source refuses, is not a value of the model's type.
- OrderRuns.EveryInterleaving: orders written by the seeder or by the legacy migration do not start a history; a commit whose acknowledgement is lost is not modelled for orders.
- ProductImages.ProductRepo.SetProductImage: the method runs alone; snapshots older than the row it updates are events of the runs.
- ProductImages.LocalStorage.Put: the `.ct` file that stores the content type beside each object.
- PdfReader.PageRoundTrip: of content streams the reader knows one text block that opens with the operators this writer uses; of a key in a dictionary it takes the first occurrence.
- RefreshTokens.BrowserHoldsTheToken: two tabs over one local storage and requests sent in parallel are not modelled; a held token may have expired.
- RefreshTokens.Store.Refresh: deleting a tenant, and with it its tokens, is not part of the API modelled.
- WebClient.Request: the parsing of a response body that is not JSON.
- Argon2.HashThenVerify: the source of randomness for the salt; the salt is a parameter.
- LegacyMigration.Target.Migrate: NULL owners and quantities that are not numbers, which abort the original's run, are not values of the model's types; `nan` prices, `url_slug` and the image and proof backfill are not modelled.
- LegacyMigration.ReconcileOkIff: counts are taken when every table can be read.
- LegacyTransforms.ViewIsCleanedRow: the view's payment proof is the empty key the migration stores, and its ids are names, not legacy numbers.
