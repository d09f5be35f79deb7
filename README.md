# controle-orcamento in Dafny

A model of the quoting tool's core.

- **Quote lifecycle.** An *orçamento* is built from lines, saved, partially approved and paid. It can also be deleted; deleting an in-progress quote gives its stock back.
- **Inventory engine.** Approval and reversal drive it. It works through each product's bill of materials (*itensComposicao*) and adjusts the stock of the materials (*itens*).
- **Keyed record store.** The four collections (clientes, itens, produtos, orçamentos) are kept in it.
- **Dashboard.** It derives eight figures from the stored data.
- **Migration.** It converts legacy single-product quotes.
- **Form rules.** Three pages have form rules modelled:
  - products: bill-of-materials editing and the suggested price;
  - materials: the low-stock status and the form conversions;
  - clients: how the address is composed, how it is parsed back, and the CEP (postal code) guard.

Modelling conventions:

- Money and quantities are `real`.
- Timestamps and "today" are whole days (`int`), passed in as parameters.
- Fresh ids are parameters.
- The browser's key-value storage is replaced by in-memory sequences.
- A form's blank numeric field is `None`.

The code has three forms:

- **Store.** The record store is a class, `Storage.RecordStore<T>`, whose methods overwrite or append in place. Each method is proved equal to a pure specification function (`Upsert`, `RemoveAll`, `SetStock`), and the lemmas about those functions state the store's guarantees.
- **Quote page handlers.** The handlers that write to the stores are methods of `QuoteDesk.Desk`. Approval and reversal are nested loops that read and write one material at a time. They are proved equal to the left fold `ConsumeAll`/`RestockAll` over a flattened list of stock steps, and the `Inventory` lemmas state what those folds do to each material.
- **Dashboard.** The best-seller Map and the cost total are loops, proved equal to `TallyAll` and `TotalGastos`. Everything else is functions and lemmas.

The page only offers some actions for some statuses, and the handlers do not re-check. These are written as preconditions:

- edit and approve: only for "orcamento";
- pay: only for "em_andamento".

Deleting a paid quote is refused by the handler itself, so it is an error result.

## Model

| member | source | states |
|---|---|---|
| Storage.FindIndex | src/lib/storage.ts:30 | `findIndex`: the position of the first record with the key; it is absent exactly when no record carries the key |
| Storage.Lookup | src/lib/storage.ts:42 | `getById`/`find`: a record with the key, and it is the one at the first such index (`FindIndex`); nothing exactly when no record carries it |
| Storage.Upsert | src/lib/storage.ts:28-36 | `save`: with the key absent, the record is appended at the end; with it present, the first match is replaced at the same index (stamped) and every other record and the length are unchanged |
| Storage.RemoveAll | src/lib/storage.ts:38-41 | `delete`: no survivor has the key; every record with another key survives; never longer |
| Storage.SetStock | src/lib/storage.ts:64-72 | `updateEstoque` keeps the length and every record's id |
| Storage.RemoveAllAppend | src/lib/storage.ts:38-41 | deleting distributes over concatenation, so the survivors keep their relative order |
| Storage.RemoveAllAbsent | src/lib/storage.ts:38-41 | deleting a key nobody carries changes nothing |
| Storage.RemoveAllIdempotent | src/lib/storage.ts:38-41 | a second delete of the same key changes nothing |
| Storage.SaveThenGet | src/lib/storage.ts:28-42 | round trip: after `save(x)`, `getById(x.id)` yields x, or x with `updatedAt` stamped when it replaced a record |
| Storage.SetStockEffect | src/lib/storage.ts:64-72 | `updateEstoque` writes the given stock unclamped and `updatedAt` into the first match only, leaves every other record as it was, and changes nothing when the key is absent |
| Storage.RecordStore.IndexOf | src/lib/storage.ts:30 | the scan returns exactly `FindIndex` of the stored records |
| Storage.RecordStore.GetById | src/lib/storage.ts:42 | returns `Lookup` of the stored records: a stored record with the key, or nothing |
| Storage.RecordStore.Save | src/lib/storage.ts:28-36 | the new collection is `Upsert` of the old one |
| Storage.RecordStore.Delete | src/lib/storage.ts:38-41 | the new collection is `RemoveAll` of the old one |
| Storage.UpdateEstoque | src/lib/storage.ts:64-72 | the in-place stock write leaves the materials equal to `SetStock` of the old ones |
| Inventory.EntrySteps | src/pages/Orcamentos.tsx:279-287 | one stock step per bill-of-materials entry, in order, for the entry's material and amount per unit × units |
| Inventory.ConsumeAt | src/pages/Orcamentos.tsx:280-285 | one approval step changes only the first material with the id, to `max(0, stock − amount)` and `updatedAt := now`; a missing material is skipped |
| Inventory.RestockAt | src/pages/Orcamentos.tsx:209-213 | one reversal step changes only the first material with the id, to `stock + amount` without a clamp; a missing material is skipped |
| Inventory.ConsumeAllShape | src/pages/Orcamentos.tsx:276-288 | approval changes no material's id, name, minimum, unit, cost or creation date, nor the number or order of materials |
| Inventory.RestockAllShape | src/pages/Orcamentos.tsx:204-216 | the reversal changes no material's id, name, minimum, unit, cost or creation date, nor the number or order of materials |
| Inventory.ConsumeAllClamped | src/pages/Orcamentos.tsx:276-288 | after approval, every material that some step named, and that the steps could reach (a first match), has stock ≥ 0; a material that no step names is unchanged |
| Inventory.ConsumeAllKeepsOrClamps | src/pages/Orcamentos.tsx:276-288 | after approval, each material is either as before or has stock ≥ 0 |
| Inventory.ConsumeAllUnnamed | src/pages/Orcamentos.tsx:276-288 | approval leaves untouched every material that no step names |
| Inventory.ConsumeAllReachedClamped | src/pages/Orcamentos.tsx:280-285 | every material that a step reaches ends with stock ≥ 0 |
| Inventory.ConsumeAllStock | src/pages/Orcamentos.tsx:276-288 | when no clamp fires, each reachable material's stock drops by exactly the sum of the amounts of the steps naming it |
| Inventory.RestockAllStock | src/pages/Orcamentos.tsx:204-216 | the reversal raises each reachable material's stock by exactly the sum of the amounts of the steps naming it |
| Inventory.RestockUndoesConsume | src/pages/Orcamentos.tsx:204-288 | when no clamp fires, restocking the same steps returns every material's stock to its value before consumption |
| Quotes.TotalAppend | src/pages/Orcamentos.tsx:129-131 | the quote total (sum of line totals) of two lists one after the other is the sum of their totals |
| Quotes.AddItem | src/pages/Orcamentos.tsx:97-123 | refused exactly when no product is chosen; otherwise exactly one line is appended and the others are kept; the new line's total is unit price × quantity; the quote total grows by that line total |
| Quotes.RemoveItem | src/pages/Orcamentos.tsx:125-127 | keeps exactly the lines whose id differs, and only lines of the original list |
| Quotes.AddThenRemove | src/pages/Orcamentos.tsx:97-127 | removing a line just added with a fresh id gives the list back |
| Quotes.BuildQuote | src/pages/Orcamentos.tsx:133-166 | refused exactly when the client, every line or the validity date is missing; the total is the sum of the line totals; an edit keeps status, creation date and a non-empty id; a new quote starts in "orcamento" with a fresh id and today's date |
| Quotes.StartApproval | src/pages/Orcamentos.tsx:235-249 | refused exactly when the quote has no lines; otherwise the working copy has one line per quote line, each unticked with approved quantity 0, so nothing is approved yet |
| Quotes.NothingTicked | src/pages/Orcamentos.tsx:264 | with no line ticked, the approved selection is empty |
| Quotes.EditApproval | src/pages/Orcamentos.tsx:251-259 | only the lines with the id change, and only in the field edited |
| Quotes.Approved | src/pages/Orcamentos.tsx:264 | exactly the ticked lines with an approved quantity > 0, in order |
| Quotes.SettleAll | src/pages/Orcamentos.tsx:293-297 | each approved line gets its approved quantity (or its quantity) and total unit price × that quantity |
| Quotes.ApprovedValueIsTotal | src/pages/Orcamentos.tsx:298-300 | the approved quote's `reduce` total equals the sum of its rewritten line totals |
| Quotes.ApprovedQuoteKeeps | src/pages/Orcamentos.tsx:290-302 | the approved quote is "em_andamento" with today's `updatedAt`, and id, client, notes, cancellation reason, validity date and creation date are kept |
| Quotes.ApprovedQuoteLines | src/pages/Orcamentos.tsx:293-297 | the approved quote's lines are exactly the approved lines, in order, each with quantity := its approved quantity (which is > 0) and total := unit price × approved quantity |
| Quotes.SettleApproved | src/pages/Orcamentos.tsx:293-297 | settling approved lines sets each line's quantity to its approved quantity (> 0), with total unit price × that quantity |
| Quotes.ApprovedQuoteTotal | src/pages/Orcamentos.tsx:298-300 | the approved quote's total is the sum of its line totals |
| Quotes.ApprovalDemands | src/pages/Orcamentos.tsx:276-282 | approval asks each approved line's product for its approved quantity |
| Quotes.ReversalDemands | src/pages/Orcamentos.tsx:205-211 | reversal gives back each line's product for its quantity |
| Quotes.ApproveThenDeleteRestoresStock | src/pages/Orcamentos.tsx:276-288 | approving and then deleting the approved quote, with no clamp firing, returns every material's stock to its value before approval |
| Quotes.ChangeStatus | src/pages/Orcamentos.tsx:316-327 | sets the status and `updatedAt`; keeps the reason only for "cancelado" and clears it otherwise; every other field is kept, so "total = sum of lines" survives |
| Quotes.FilterByStatus | src/pages/Orcamentos.tsx:605 | the status filter keeps only quotes from the list that match, keeps every quote that matches, and "all" returns the list unchanged |
| QuoteDesk.Desk.Submit | src/pages/Orcamentos.tsx:133-166 | on a validation error nothing is written and the error is returned; otherwise the quote store becomes `Upsert` with the built quote |
| QuoteDesk.Desk.ConsumeStep | src/pages/Orcamentos.tsx:280-285 | one read-then-write of a material leaves the materials equal to `Consume` of the old ones |
| QuoteDesk.Desk.ApplyConsume | src/pages/Orcamentos.tsx:282-284 | writing `max(0, stock - amount)` to a material that was found is `Consume` of the old materials |
| Inventory.ConsumeFound | src/pages/Orcamentos.tsx:280-285 | on a found material, an approval step sets that material's stock to `max(0, stock - amount)` |
| QuoteDesk.Desk.RestockStep | src/pages/Orcamentos.tsx:209-213 | one read-then-write of a material leaves the materials equal to `Restock` of the old ones |
| QuoteDesk.Desk.ApplyRestock | src/pages/Orcamentos.tsx:211-212 | writing `stock + amount` to a material that was found is `Restock` of the old materials |
| Inventory.RestockFound | src/pages/Orcamentos.tsx:209-213 | on a found material, a reversal step sets that material's stock to `stock + amount` |
| Inventory.StepsFound | src/pages/Orcamentos.tsx:276-288 | a line whose product is found adds that product's entry steps, in entry order |
| Inventory.StepsSkip | src/pages/Orcamentos.tsx:277-278 | a line whose product cannot be found adds no step |
| QuoteDesk.Desk.ConsumeEntries | src/pages/Orcamentos.tsx:279-286 | the inner loop applies the product's entry steps in order, each to the stock left by the previous one |
| QuoteDesk.Desk.RestockEntries | src/pages/Orcamentos.tsx:208-214 | the inner reversal loop applies the product's entry steps in order |
| QuoteDesk.Desk.ConsumeDemands | src/pages/Orcamentos.tsx:276-288 | the outer loop leaves the materials equal to `ConsumeAll` of every step of every approved line in order; lines whose product is missing contribute none |
| QuoteDesk.Desk.RestockDemands | src/pages/Orcamentos.tsx:204-216 | the outer reversal loop leaves the materials equal to `RestockAll` of every step of every line in order |
| QuoteDesk.Desk.ConfirmApproval | src/pages/Orcamentos.tsx:261-314 | with nothing approved, a validation error and no write; otherwise the stock is consumed (clamped) and the quote saved as the approved quote |
| QuoteDesk.Desk.Delete | src/pages/Orcamentos.tsx:180-233 | a paid quote is refused with no write; otherwise an empty id changes nothing; for any other id an in-progress quote first gives its stock back unclamped, then every quote with the id is removed; other statuses touch no stock |
| QuoteDesk.Desk.HandleStatusChange | src/pages/Orcamentos.tsx:316-334 | an existing quote is saved with `ChangeStatus` applied; a missing id changes nothing |
| Migration.Convert | src/lib/migration.ts:35-58 | a legacy quote becomes a quote with exactly one line that copies product, quantity, unit price and total; id, client, total, status, notes, reason and both dates are kept; the validity date is the one given |
| Migration.ConvertedTotalIsSum | src/lib/migration.ts:44-51 | the converted quote's total is the sum of its line totals |
| Migration.MigrateRecord | src/lib/migration.ts:28-64 | records already in the item-list shape, and legacy records without a product, pass through untouched; legacy records with a product are converted; no result needs migrating |
| Migration.MigrateAll | src/lib/migration.ts:28-64 | record count and order are kept and each record is migrated on its own |
| Migration.MigrateIdempotent | src/lib/migration.ts:30-32 | after one migration nothing is legacy, and a second migration changes nothing |
| Migration.MigrateOrcamentos | src/lib/migration.ts:20-73 | nothing stored, nothing written; otherwise the list is written back exactly when some record was converted, and then it is the migrated list |
| Text.Lower | src/pages/Produtos.tsx:178 | `toLowerCase` keeps the length and lowers each character |
| Text.LowerIdempotent | src/pages/Produtos.tsx:178 | lowering twice is lowering once |
| Text.ContainsMeaning | src/pages/Produtos.tsx:178 | `includes` holds exactly when the term occurs at some position; the empty term always occurs |
| Text.EmptyTermMatches | src/pages/Itens.tsx:152-154 | an empty search term matches every name |
| Text.JoinSplit | src/pages/Clientes.tsx:144 | `split` loses nothing: joining the pieces with the separator gives the text back |
| Text.SplitJoin | src/pages/Clientes.tsx:144 | splitting joined pieces that hold no separator gives the pieces back |
| Text.SplitWhole | src/pages/Clientes.tsx:155-156 | text without the separator splits into itself alone |
| Lists.Filter | src/pages/Itens.tsx:150 | `filter`: every element kept passes and comes from the input, and every element that passes is kept |
| Lists.FilterAppend | src/pages/Itens.tsx:150 | filtering distributes over concatenation, so the kept elements stay in input order |
| Lists.FilterIdempotent | src/pages/Itens.tsx:150 | filtering twice with the same test is filtering once |
| Lists.SortBy | src/pages/Dashboard.tsx:81 | the numeric-key sort returns a permutation of its input, ordered by the key |
| Clients.Blank | src/pages/Clientes.tsx:122-123 | an empty email or telephone is stored as undefined, anything else as typed |
| Clients.ComposeAddress | src/pages/Clientes.tsx:115-117 | the address is empty exactly when the street is empty |
| Clients.ComposedJoin | src/pages/Clientes.tsx:116 | the composed address is its pieces (street, number, complement when present, district, "city - state", "CEP: code") joined by ", " |
| Clients.BuildClient | src/pages/Clientes.tsx:103-137 | refused exactly when the name is empty; blank contacts become undefined; the stored address is the composed one, undefined when empty; an edit keeps creation date and a non-empty id; a new client, or an edited one without an id, gets the fresh id; a new client gets today |
| Clients.CepMatchAt | src/pages/Clientes.tsx:144 | a match of `CEP:\s*(\d{5}-?\d{3})` at one position captures five digits, an optional dash and three digits |
| Clients.CepFrom | src/pages/Clientes.tsx:144 | the leftmost match from a position on; absent exactly when no position matches |
| Clients.ExtractCep | src/pages/Clientes.tsx:144 | the extracted code is empty or shaped like a CEP |
| Clients.ExtractCepSuffix | src/pages/Clientes.tsx:144 | an address ending in "CEP: code", with no earlier match, yields exactly that code |
| Clients.ParseAddress | src/pages/Clientes.tsx:143-156 | no address yields empty fields; the code field is empty or CEP-shaped |
| Clients.EditForm | src/pages/Clientes.tsx:139-159 | the edit form keeps the name, shows email and telephone as stored or empty when missing, and fills every address field with what `ParseAddress` reads from the stored address (empty street and code when there is none) |
| Clients.CityStateSplit | src/pages/Clientes.tsx:155-156 | "city - state" splits back into city and state when neither holds " - " |
| Clients.ComposedHead | src/pages/Clientes.tsx:115-117 | a composed address ends in `CEP: ` followed by the code, after the street, number, optional complement, district and `city - state` |
| Clients.SaveThenEdit | src/pages/Clientes.tsx:103-159 | saving a named form with a complement, separator-free fields and a well-formed code, then opening it for edit, gives back the same form |
| Clients.AddressRoundTrip | src/pages/Clientes.tsx:115-156 | with a complement and no field holding ", " or " - ", parsing the composed address gives back street, number, complement, district, city and state |
| Clients.AddressMisaligned | src/pages/Clientes.tsx:115-156 | with no complement, the parse puts the district in the complement and "city - state" in the district |
| Clients.RemoveFirstNonDigit | src/pages/Clientes.tsx:65 | `replace(/\D/, '')` removes one character exactly when the code holds a non-digit |
| Clients.CepLookupKey | src/pages/Clientes.tsx:64-65 | the guard passes exactly for 8 digits or for 9 characters holding a non-digit |
| Clients.ShapedCepPasses | src/pages/Clientes.tsx:64-65 | a code typed as the placeholder shows (5 digits, optional dash, 3 digits) passes, as 8 digits |
| Clients.DottedCepRefused | src/pages/Clientes.tsx:65 | the guard as written refuses "12.345-678"-shaped codes, which the all-digits guard accepts as their 8 digits |
| Clients.DottedDigits | src/pages/Clientes.tsx:65 | stripping every non-digit from `dd.ddd-ddd` leaves its eight digits in order |
| Clients.CepLookupKeyAllDigits | src/pages/Clientes.tsx:65 | the corrected guard passes only 8 digits, and for an all-digit code exactly when it has 8 |
| Clients.GuardsAgreeOnShapedCep | src/pages/Clientes.tsx:65 | on codes shaped like the placeholder both guards give the same answer |
| Clients.FilterClientes | src/pages/Clientes.tsx:178-180 | keeps exactly the clients whose name contains the term, case-insensitively |
| Clients.EmptySearchListsAllClientes | src/pages/Clientes.tsx:178-180 | an empty search lists every client |
| Products.BuildProduct | src/pages/Produtos.tsx:56-88 | refused exactly when name or price is blank; an edit keeps id and creation date; a new product gets a fresh id and today |
| Products.AddEntry | src/pages/Produtos.tsx:122-127 | appends `{itemId: '', quantidade: 1}` and keeps every entry |
| Products.RemoveEntry | src/pages/Produtos.tsx:152-157 | removes exactly position i, keeping the rest in order; an index past the end changes nothing |
| Products.RemoveAddedEntry | src/pages/Produtos.tsx:122-157 | removing the entry just added gives the list back |
| Products.CompositionCostAppend | src/pages/Produtos.tsx:135-138 | the material cost of two entry lists one after the other is the sum of their costs |
| Products.CompositionCostUpdate | src/pages/Produtos.tsx:130-138 | replacing one entry changes the cost by the difference of the two entries' costs |
| Products.UpdateEntry | src/pages/Produtos.tsx:129-150 | only entry i changes; price := the suggested price (1.5 × material cost) when that is > 0, else unchanged; other form fields kept |
| Products.UpdateEntryPrice | src/pages/Produtos.tsx:135-146 | the suggested price after the edit is the old one adjusted by 1.5 × the change of that entry's cost |
| Products.FilterProdutos | src/pages/Produtos.tsx:177-180 | keeps exactly the products whose name or category contains the term, case-insensitively |
| Products.EmptySearchListsAllProdutos | src/pages/Produtos.tsx:177-180 | an empty search lists every product |
| Materials.GetStatusEstoque | src/pages/Itens.tsx:127-140 | "Baixo" exactly when stock ≤ minimum and minimum > 0; a non-positive minimum is always "Normal" |
| Materials.Alerts | src/pages/Itens.tsx:150 | the alert list is exactly the low materials, from the store |
| Materials.RestockedNotAlerted | src/pages/Itens.tsx:118-150 | raising a material's stock above its minimum takes it off the alert list |
| Materials.ParseInt | src/pages/Itens.tsx:70-71 | `parseInt` of plain decimal text truncates its value toward zero |
| Materials.ParseIntWhole | src/pages/Itens.tsx:70-71 | a whole number is kept by `parseInt` |
| Materials.BuildMaterial | src/pages/Itens.tsx:55-87 | refused exactly when name, stock or minimum is blank; stock and minimum truncated; a blank cost stays undefined; an edit keeps id and creation date |
| Materials.WholeNumbersKept | src/pages/Itens.tsx:67-76 | whole stock and minimum are stored as typed |
| Materials.FilterItens | src/pages/Itens.tsx:152-154 | keeps exactly the materials whose name contains the term, case-insensitively |
| Materials.EmptySearchListsAllItens | src/pages/Itens.tsx:152-154 | an empty search lists every material |
| Dashboard.SumValorAppend | src/pages/Dashboard.tsx:42-48 | the `reduce` of quote totals over two lists one after the other is the sum of the two |
| Dashboard.RecordTallies | src/pages/Dashboard.tsx:60-66 | recording one more line keeps the Map exact: distinct products, each entry the sums of its product's units and values, an entry for each product sold |
| Dashboard.TallyAllTallies | src/pages/Dashboard.tsx:54-69 | the Map built from the sold lines is exact in that sense |
| Dashboard.TallyLookup | src/pages/Dashboard.tsx:54-69 | the Map's entry for a product holds its total units and value over all sold lines when some line is for it, and there is none otherwise; no product has two entries |
| Dashboard.RecordLines | src/pages/Dashboard.tsx:60-66 | the loop over one quote's lines records each line in order |
| Dashboard.TallySales | src/pages/Dashboard.tsx:54-69 | the nested loop over the paid and in-progress quotes builds exactly `TallyAll` of their lines |
| Dashboard.JoinProducts | src/pages/Dashboard.tsx:71-80 | each row pairs a Map entry with its catalogue product; an entry whose product is missing is dropped, and every other entry appears |
| Dashboard.PrefixOrdered | src/pages/Dashboard.tsx:81-82 | the rows kept from the ranked list are in non-increasing order of units |
| Dashboard.LeftOutBelow | src/pages/Dashboard.tsx:81-82 | no row cut from the ranked list sold more units than a row kept |
| Dashboard.RankedPrefix | src/pages/Dashboard.tsx:81-82 | sorting by units descending and keeping n rows gives min(n, all) rows, most units first, drawn from the list, none left out having sold more than a row kept |
| Dashboard.TopFive | src/pages/Dashboard.tsx:81-82 | the ranked list is cut to at most five rows |
| Dashboard.BestSellersRanked | src/pages/Dashboard.tsx:71-82 | the best sellers: at most five, fewer only when fewer products sold, most units first, and no product left out outsold one listed |
| Dashboard.JoinedFigures | src/pages/Dashboard.tsx:54-80 | a joined row's product is in the catalogue, and its units and value are that product's sums over the tallied lines |
| Dashboard.BestSellerFigures | src/pages/Dashboard.tsx:54-82 | each best-seller row is a catalogue product with its units and value summed over every line of every paid or in-progress quote |
| Dashboard.ToAlerts | src/pages/Dashboard.tsx:87-92 | each low material is paired with stock / minimum × 100 |
| Dashboard.LowStockOrdered | src/pages/Dashboard.tsx:85-93 | the low-stock list is ordered lowest percentage first |
| Dashboard.LowStockRows | src/pages/Dashboard.tsx:85-93 | every row is a stored material at or below its positive minimum, with its percentage, at most 100 |
| Dashboard.LowAtMostHundred | src/pages/Dashboard.tsx:86-91 | a material at or below its positive minimum holds at most 100% of it |
| Dashboard.LowStockComplete | src/pages/Dashboard.tsx:85-93 | every stored material at or below its positive minimum is listed |
| Dashboard.ToVendas | src/pages/Dashboard.tsx:103-106 | each quote gives its day and its total |
| Dashboard.RecentSalesListed | src/pages/Dashboard.tsx:96-108 | the recent sales are newest first, none older than thirty days, and every paid or in-progress quote of the last thirty days is listed with its day and value |
| Dashboard.EntryCostStep | src/pages/Dashboard.tsx:119-125 | one more bill-of-materials entry adds its cost, as the product page prices it, times the units |
| Dashboard.EntryCostFor | src/pages/Dashboard.tsx:120-123 | the loop body adds `(custo \|\| 0) × quantidade × units` for a found material, which is the product page's entry cost times the units, and 0 for a missing one |
| Dashboard.ScaledCostIsProduct | src/pages/Dashboard.tsx:119-125 | adding each entry's cost times the units gives the product's material cost (the sum the product page computes) times the units |
| Dashboard.LineCostStep | src/pages/Dashboard.tsx:116-127 | one more sold line adds its product's scaled material cost, or nothing when the product is missing |
| Dashboard.LineCostIsProduct | src/pages/Dashboard.tsx:116-127 | a sold line costs its product's material cost × its quantity, and nothing when the product is missing |
| Dashboard.AddEntryCosts | src/pages/Dashboard.tsx:119-125 | the innermost loop adds every entry's cost × the line's units; missing materials add nothing. With `ScaledCostIsProduct`, that is the material cost × units |
| Dashboard.AddLineCosts | src/pages/Dashboard.tsx:116-127 | the middle loop adds each line's cost; a missing product adds nothing |
| Dashboard.SumGastos | src/pages/Dashboard.tsx:111-129 | the nested loops compute exactly `TotalGastos`: the material cost of every line of every paid or in-progress quote |
| Dashboard.CalculateMetrics | src/pages/Dashboard.tsx:36-131 | the eight figures as specified, with profit = billed − cost and at most five best sellers |
| Dashboard.PayingBills | src/pages/Dashboard.tsx:42-44 | paying an in-progress quote adds its total to `totalFaturado` |
| Dashboard.PayingUnbills | src/pages/Dashboard.tsx:46-48 | paying an in-progress quote takes its total off `aFaturar` |
| Dashboard.PayingKeepsOpen | src/pages/Dashboard.tsx:50-51 | paying leaves the open-quote count |
| Dashboard.SameSoldLines | src/pages/Dashboard.tsx:56-58 | cost and best sellers count in-progress quotes as well as paid ones, so paying does not change the sold lines |
| Dashboard.SameRecentSales | src/pages/Dashboard.tsx:99-108 | paying does not change the recent-sales rows |
| Dashboard.PayingMovesRevenue | src/pages/Dashboard.tsx:42-131 | paying an in-progress quote moves its total from `aFaturar` to `totalFaturado` and into the profit, and no other figure changes |
| Dashboard.PayingStoredQuote | src/pages/Orcamentos.tsx:316-334 | the same for the record the status change saves to the quote store |

## Left out

- Browser storage and JSON encoding, including the `try`/`catch` around reads, are I/O. The collections are in-memory sequences.
- The migration reads the key `orcamentos`, but the store uses `app_orcamentos`. This storage-key wiring is left out; only the record conversion and the write-back decision are modelled.
- React state, effects, toasts, dialogs and rendering are UI, and so is the status-based visibility of buttons. Those gates appear only as preconditions.
- The cancellation dialog's state is never connected to a handler, so the only status change the page performs is pay.
- The ViaCEP `fetch` is network I/O. Only the guard before it is modelled.
- Print/HTML generation and currency formatting are presentation.
- IEEE-754 arithmetic and `toFixed(2)` on the suggested price are left out: the model uses exact reals.
- `NaN` from `parseInt`/`parseFloat` of non-numeric text is left out: form numbers are either blank or plain decimal text, given by its value.
- Materials.ParseInt: models `parseInt` on plain decimal text only. The number inputs also accept exponent notation, where `parseInt` keeps only the leading digits: "1e3" gives 1 and "2.5e1" gives 2, but the model reads the value (1000, 25).
- Dates are whole days. Left out: parsing them, the locale-formatted date part of the quote search, and the time-of-day in the dashboard's 30-day cut-off.
- `crypto.randomUUID` is replaced by fresh ids passed in.
- Login, the material-type and art-type pages, seed data and routing are outside the core.
- Products, clients and materials are deleted through the store's `Delete`. Their pages add a confirmation dialog and skip an empty id; that guard is modelled only for quotes (`QuoteDesk.Desk.Delete`).
- The dashboard shows only the first five low-stock rows. This display cut is left out.
- Records without an `itens` array are skipped by the dashboard's loops. The model's quotes always carry lines, so this guard is not modelled.
- Text.Lower: lowers only A–Z. JavaScript's full Unicode case mapping is not modelled.
- Lists.SortBy: the insertion sort is stable by construction, like JavaScript's `sort`, but stability is not stated as a contract.
- Dashboard.TallyLookup: the order of the Map's entries (first insertion) is what `Record` does, but it is not stated as a contract.
- Inventory.ConsumeAllStock: the exact stock change is stated only when no clamp fires. Otherwise `Inventory.ConsumeAllClamped` gives the bound ≥ 0.
- Inventory.RestockUndoesConsume: holds only when no clamp fires during approval; a clamp loses stock that the reversal then over-returns.
- Clients.SaveThenEdit: holds only with a complement, separator-free fields, a well-formed code and no `CEP:` match starting before the code; otherwise the regular expression or the positional split reads other text.
- Clients.AddressRoundTrip: requires that no field holds ", " or " - ", and that the complement is present; the other case is `Clients.AddressMisaligned`.
- QuoteDesk.Desk.ConfirmApproval: the page approves only quotes in "orcamento", so this is a precondition. The handler does not check `quantidadeAprovada ≤ quantidade`, and neither does the model.

## Findings

| source | as written | input that shows it | evidently intended | confidence | as-written member | corrected member |
|---|---|---|---|---|---|---|
| src/pages/Clientes.tsx:65 | `cep.replace(/\D/, '')` has no `g` flag, so it removes only the first non-digit before checking for 8 characters | "12.345-678" leaves "12345-678" (9 characters), and the lookup is skipped | strip every non-digit, so any code with 8 digits is looked up | medium, not executed | Clients.DottedCepRefused | Clients.GuardsAgreeOnShapedCep |
