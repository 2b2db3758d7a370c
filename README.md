# A verified model of the `Demir\Database` query, pagination and connection core

This project models, in Dafny, the core of a small PHP database helper library:

- **`Query`**, a fluent SQL builder. It keeps one text field per clause and a mode (select, insert, update or delete).
  - Clause methods: `select`, `from`, `table`, `where`, `having`, `join`, `orderBy`, `groupBy` and `limit`.
  - Statement methods: `insert`, `onDuplicateKeyUpdate`, `update` and `delete`.
  - `build` glues together the fields of the current mode. It then cleans up the spaces with `trim(str_replace(['   ', '  '], ' ', …))`.
  - A field PHP leaves at `null` interpolates as the empty text, so it is `""` here.
  - The select mode lists HAVING before GROUP BY, as the code does.
- **`CRUD`**: the text assembly of `insert`, `update` and `delete`.
  - Each builds an SQL text with `?` placeholders and the ordered list of values those placeholders stand for.
  - The helper `arrayToString` (the same logic as `Query`'s private `arrayToString`) builds the column list and the assignment list. `buildWhere` builds the `col=? AND …` filter.
  - Instead of executing the statement, the model returns the pair (text, parameters).
- **`Pagination`**, the pager:
  - the page count (the ceiling of the item count over the page size);
  - the next and previous pages and their URLs;
  - the `LIMIT` text;
  - the bounded page list of `getPages`: page 1, a `...` marker, a sliding window around the current page, a `...` marker, and the last page.
  - The static "last constructed pager" is a holder object.
- **`Connection`**, a process-wide registry from names to database handles. The handle is an opaque type parameter.

Modules:

- `wrappers.dfy` (`Option`, `Result`, `Outcome`);
- `text.dfy` (`implode`, `explode`, `str_replace`, `trim`/`rtrim`, `strtoupper` and the decimal text of an integer, as functions on `seq<char>`);
- `spacing.dfy` (the clean-up of `build`);
- `columns.dfy` (`arrayToString`, `buildWhere`);
- `query.dfy` (`QueryBuilder`, plus `QueryUsage` with the library's builder chains);
- `crud.dfy`;
- `pagination.dfy`;
- `connection.dfy`.

Objects whose fields the PHP code updates in place are classes with `modifies` clauses. These are `Query`, `Pagination`, the pager holder and the connection registry. The loops of `arrayToString`, `buildWhere` and `getPages` are `while` loops with invariants, proved against specification functions. The properties are proved about those functions.

## Model

| member | source | states |
|---|---|---|
| QueryBuilder.Query.constructor | src/Query.php:32-36 | a fresh builder selects `*`, is in select mode, and has every other clause unset |
| QueryBuilder.FreshRendersSelectAll | src/Query.php:284-328 | the seven unset fields of a fresh builder vanish: it renders `SELECT *` |
| QueryUsage.FreshBuild | src/Query.php:32-36 | a freshly constructed builder builds exactly `SELECT *` |
| QueryBuilder.Query.Select | src/Query.php:44-48 | the select field becomes `SELECT ` and the columns, replacing any earlier one |
| QueryBuilder.Query.From | src/Query.php:56-60 | the from field becomes `FROM ` and the source |
| QueryBuilder.Query.Table | src/Query.php:69-72 | `table` is `select` then `from`: both fields set, nothing else |
| QueryBuilder.Query.Where | src/Query.php:80-93 | an unset filter is seeded with `WHERE `, then a space and the condition are appended |
| QueryBuilder.Query.Having | src/Query.php:101-114 | the same for the HAVING field |
| QueryBuilder.AppendedInOrder | src/Query.php:80-93 | successive `where`/`having` calls keep every condition, in call order, one space apart, after a single keyword |
| QueryBuilder.AppendedAfter | src/Query.php:80-93 | further conditions on a seeded field are appended after it, in order |
| QueryBuilder.Query.Join | src/Query.php:121-138 | one argument appends an INNER JOIN, two append the upper-cased type; any other count fails with the invalid-arguments error and leaves the field as it was |
| QueryBuilder.Query.OrderBy | src/Query.php:146-150 | the order field becomes `ORDER BY ` and the text |
| QueryBuilder.Query.GroupBy | src/Query.php:158-162 | the group field becomes `GROUP BY ` and the text |
| QueryBuilder.Query.Limit | src/Query.php:272-276 | the limit field becomes `LIMIT ` and the bound |
| QueryBuilder.Query.Insert | src/Query.php:170-182 | insert mode; the insert field is `INSERT INTO`, the table named by the FROM field, and the literal text or the column list with its placeholders |
| QueryBuilder.Query.OnDuplicateKeyUpdate | src/Query.php:190-201 | appends ` ON DUPLICATE KEY UPDATE ` and the literal text or the assignment list to the insert field |
| QueryBuilder.Query.Update | src/Query.php:209-221 | update mode; the update field is `UPDATE`, the table, ` SET ` and the literal text or the assignment list |
| QueryBuilder.Query.Delete | src/Query.php:228-234 | delete mode; the delete field is `DELETE FROM`, the table and a space |
| QueryBuilder.TableName | src/Query.php:173 | the table is the FROM field cut at every `FROM ` and glued back without it; a field without `FROM ` is the table itself |
| QueryBuilder.TableNameOfFrom | src/Query.php:173 | the table that `insert`/`update`/`delete` take from a FROM clause set by `from(t)` is `t` again |
| QueryBuilder.Query.Build | src/Query.php:284-329 | only the fields of the current mode reach the text, in the mode's order, cleaned up, with no blank at either end |
| QueryBuilder.BuildKeepsPlaceholders | src/Query.php:328 | the clean-up neither adds nor removes a `?` placeholder |
| QueryBuilder.InsertPlaceholders | src/Query.php:174-178 | an insert field built from a map holds exactly one placeholder per entry |
| QueryBuilder.CleanColumns | src/Query.php:248-253 | a column list of plain names is left alone by the clean-up |
| QueryBuilder.CleanAssignments | src/Query.php:255-260 | a non-empty assignment list of plain names is left alone by the clean-up |
| Spacing.SqueezeStep | src/Query.php:328 | a run of spaces between clean fragments shrinks to a length that depends only on its own length |
| Spacing.SqueezeLast | src/Query.php:328 | the same for a run at the end |
| Spacing.CollapseShortRuns | src/Query.php:328 | runs of one to four spaces become a single space |
| Spacing.FiveSpacesLeaveTwo | src/Query.php:328 | a run of five spaces becomes two: the two passes do not collapse every run |
| Spacing.SqueezeClean | src/Query.php:328 | a clean fragment passes through both replacement passes unchanged |
| Spacing.TrimTrailing | src/Query.php:328 | `trim` removes a trailing run of spaces and nothing else |
| Spacing.NormalizeClean | src/Query.php:328 | a clean text is its own clean-up |
| Spacing.NormalizeCount | src/Query.php:328 | the clean-up keeps the number of `?` characters |
| QueryUsage.SelectWhereOrderLimit | src/Query.php:288-328 | a select with a filter, an order and a limit renders each clause once, single-spaced |
| QueryUsage.TwoConditions | src/Query.php:80-93 | two `where` calls render as one `WHERE` followed by both conditions in call order |
| QueryUsage.OrderWithoutWhere | src/Query.php:288-328 | with the filter unset, two spaces are left between the FROM and ORDER BY clauses |
| QueryUsage.UpdateWhere | src/Query.php:307-315 | an update renders the assignments before the filter |
| QueryUsage.DeleteWhereOrder | src/Query.php:317-325 | a delete renders its head, the filter and the order |
| QueryUsage.InsertOrUpdateText | src/Query.php:303-305 | an insert with an on-duplicate suffix is rendered as it was built |
| QueryUsage.InsertOrUpdateCount | src/Query.php:170-201 | that text holds one placeholder per entry of both maps |
| QueryUsage.RendersFeatured | src/Query.php:284-329 | a builder holding `select('*')->from->where->orderBy->limit` builds the expected text |
| QueryUsage.RendersSelected | src/Query.php:284-329 | the same builder after a second `select` builds the text with the new columns |
| QueryUsage.RendersTwoConditions | src/Query.php:284-329 | a builder with two conditions builds both, in call order |
| QueryUsage.RendersSorted | src/Query.php:284-329 | a builder holding `table->orderBy` builds the text with two spaces left |
| QueryUsage.RendersInsert | src/Query.php:284-329 | an insert-mode builder builds its insert field, with one placeholder per map entry |
| QueryUsage.RendersInsertOrUpdate | src/Query.php:284-329 | the same with the on-duplicate suffix |
| QueryUsage.RendersUpdate | src/Query.php:284-329 | an update-mode builder builds the assignments, then the filter |
| QueryUsage.RendersDelete | src/Query.php:284-329 | a delete-mode builder builds the head, the filter and the order |
| QueryUsage.FeaturedPosts | examples/Query.php:9-22 | the chain renders `SELECT * FROM t WHERE c ORDER BY o LIMIT l`; after `select(cols)` the new columns replace `*` |
| QueryUsage.PublishedAndFeatured | examples/Query.php:24-30 | the chain with two `where` calls and a late `select` renders both conditions and the late columns |
| QueryUsage.SortedPosts | src/Query.php:288-300 | `table(t)->orderBy(o)` renders with two spaces where the unset clauses were |
| QueryUsage.InsertRow | examples/Query.php:32-39 | `table(t)->insert(data)` renders the insert statement, with one placeholder per entry of a map |
| QueryUsage.InsertOrUpdate | examples/Query.php:41-53 | the insert with the on-duplicate suffix, with one placeholder per entry of both maps |
| QueryUsage.UpdateRow | examples/Query.php:61-65 | `table->where->update` renders the assignments before the filter given first |
| QueryUsage.DeleteRows | examples/Query.php:67-68 | `table->where->delete->orderBy` renders `DELETE FROM t WHERE c ORDER BY o` |
| ColumnLists.ArrayToString | src/CRUD.php:121-142 | the insert form is `(k1,…,kn) VALUES (?,…,?)`; the update form's loop and `rtrim` give `k1=?,…,kn=?` with no trailing comma |
| ColumnLists.BuildWhere | src/CRUD.php:148-157 | the loop and `rtrim(…, ' AND ')` give `WHERE k1=? AND … AND kn=?`, and `WHERE` alone for an empty array |
| ColumnLists.TerminatedIsJoin | src/CRUD.php:134-136 | what the `.=` loop accumulates is the joined list followed by one separator |
| ColumnLists.TrailingSeparatorStripped | src/CRUD.php:137 | `rtrim` with the separator's characters removes exactly the last separator when every part ends in `?` |
| ColumnLists.CountColumnsAndPlaceholders | src/CRUD.php:126-131 | the insert column list has one placeholder per column |
| ColumnLists.CountAssignments | src/CRUD.php:133-138 | the assignment list has one placeholder per column |
| ColumnLists.CountWhereClause | src/CRUD.php:148-157 | the filter has one placeholder per column |
| ColumnLists.ColumnOrder | src/CRUD.php:128 | the column list names the columns in the array's order: splitting it at the commas gives the keys back |
| Crud.Insert | src/CRUD.php:43-61 | the text is `INSERT INTO t (…) VALUES (…)` with the on-duplicate suffix only for a non-empty array; the parameters are the values, then the on-duplicate values; placeholders match parameters one for one |
| Crud.Update | src/CRUD.php:70-90 | the text is `UPDATE t SET …` followed by the built filter or the caller's text; the parameters are the values, then the filter's values or the caller's parameters; placeholders match parameters for an array filter |
| Crud.Delete | src/CRUD.php:98-114 | the text is `DELETE FROM t` followed by the built filter or the caller's text; the parameters follow the same choice; placeholders match parameters for an array filter |
| Crud.InsertCount | src/CRUD.php:49-58 | the insert text holds one placeholder per value and on-duplicate value |
| Crud.UpdateCount | src/CRUD.php:77-87 | the update text holds one placeholder per value and filter value |
| Crud.DeleteCount | src/CRUD.php:104-107 | the delete text holds one placeholder per filter value |
| Paging.CeilDiv | src/Pagination.php:102 | the page count is the least whole number of pages holding every item, for either sign of the page size |
| Paging.TotalPagesFor | src/Pagination.php:99-103 | no pages for a zero page size; otherwise the least page count whose pages hold every item, for either sign of the page size |
| Paging.NextPageOf | src/Pagination.php:184-191 | there is a next page exactly when the current page is before the last, and it is the current page plus one |
| Paging.PrevPageOf | src/Pagination.php:198-205 | there is a previous page exactly when the current page is past the first, and it is the current page minus one |
| Paging.NextThenPrev | src/Pagination.php:184-205 | the page after the current one has the current one before it |
| Paging.PrevThenNext | src/Pagination.php:184-205 | the page before the current one has the current one after it |
| Paging.UrlOf | src/Pagination.php:212-233 | there is a URL exactly when the page getter's result is truthy (a page other than 0), and it is that page's URL |
| Paging.PageUrlOf | src/Pagination.php:174-177 | a page URL is the pattern cut at its `{number}` slots and glued back with the decimal page number |
| Paging.PatternWithoutSlot | src/Pagination.php:174-177 | a pattern without a slot is every page's URL |
| Paging.DefaultPatternUrl | src/Pagination.php:174-177 | the default pattern gives `?page=` and the number, which reads back as the number |
| Paging.LimitOf | src/Pagination.php:331-335 | the LIMIT text splits at its comma into the offset `(currentPage - 1) * perPage` and the page size, both reading back as those numbers |
| Paging.PageEntry | src/Pagination.php:302-309 | `createPage(n, n === currentPage)`: page `n`, with the pattern's slots filled with `n`, current exactly when `n` is the current page |
| Paging.Window | src/Pagination.php:278-280 | the window `lo..hi` holds the pages `lo` to `hi` in order, none when `hi < lo` |
| Paging.SlidingBounds | src/Pagination.php:254-270 | the window lies between page 2 and the page before the last, has at most `maxPages - 2` pages, and is empty only for `maxPages` 4 on the last page |
| Paging.SlidingCovers | src/Pagination.php:254-270 | a current page strictly between the anchors lies in the window |
| Paging.LayoutAt | src/Pagination.php:272-289 | the list around a window, position by position |
| Paging.PageListAt | src/Pagination.php:253-290 | the page list when the pages do not all fit, position by position |
| Paging.Anchors | src/Pagination.php:272-289 | when the pages do not all fit, page 1 comes first and the last page last |
| Paging.WindowInside | src/Pagination.php:262-270 | every page between the anchors lies strictly between page 1 and the last page |
| Paging.NumbersIncrease | src/Pagination.php:240-293 | the page numbers of the list strictly increase |
| Paging.NeighboursConsecutive | src/Pagination.php:240-293 | two neighbouring numbered entries are consecutive pages |
| Paging.EllipsisMarksGaps | src/Pagination.php:274-284 | a `...` is never first or last and sits between two pages with at least one number missing between them |
| Paging.FirstEllipsis | src/Pagination.php:274-276 | a `...` follows page 1 exactly when the window starts after page 2 |
| Paging.LastEllipsis | src/Pagination.php:282-284 | a `...` precedes the last page exactly when the window ends before the page before the last, or is empty |
| Paging.CurrentMarked | src/Pagination.php:240-309 | every numbered entry carries its own URL and is marked current exactly when it is the current page |
| Paging.CurrentShown | src/Pagination.php:240-293 | a current page within range always has its entry in the list |
| Paging.AtMostMaxPages | src/Pagination.php:240-293 | the list never numbers more than `maxPages` pages |
| Paging.PageCountLayout | src/Pagination.php:272-289 | the numbered entries are the two anchors and the window |
| Paging.ShortWindowBeforeEnd | src/Pagination.php:256-260 | as written, 10 pages with room for 7 number 7 pages for current pages 7 and 9 but only 6 for page 8 |
| Paging.IntendedWindowIsFull | src/Pagination.php:254-270 | with the corrected window start, a list that cannot show every page shows exactly `maxPages` pages, the current one among them |
| Paging.Pagination.constructor | src/Pagination.php:64-77 | the fields take the arguments (defaults 10, 1 and `?page={number}`), the bound is 7, and the page count matches |
| Paging.Pagination.UpdateTotalPages | src/Pagination.php:99-103 | no pages for a zero page size, else the ceiling of items over page size |
| Paging.Pagination.SetMaxPagesAsWritten | src/Pagination.php:111-116 | the bound takes effect only above three; the call then always ends in the return-type error |
| Paging.Pagination.SetMaxPages | src/Pagination.php:111-116 | the bound takes effect only above three; the page count stays consistent |
| Paging.Pagination.SetCurrentPage | src/Pagination.php:124-128 | the current page is replaced; nothing else changes |
| Paging.Pagination.SetPerPage | src/Pagination.php:136-141 | the page size is replaced and the page count follows |
| Paging.Pagination.SetTotalItems | src/Pagination.php:149-154 | the item count is replaced and the page count follows |
| Paging.Pagination.SetPattern | src/Pagination.php:162-166 | the pattern is replaced |
| Paging.Pagination.PageUrl | src/Pagination.php:174-177 | the pager's pattern with every `{number}` slot filled with the page number |
| Paging.Pagination.NextPage | src/Pagination.php:184-191 | the current page plus one, exactly while the current page is before the last |
| Paging.Pagination.PrevPage | src/Pagination.php:198-205 | the current page minus one, exactly when the current page is past the first |
| Paging.Pagination.NextUrl | src/Pagination.php:212-219 | the next page's URL exactly when there is a next page and it is not the falsy page 0 |
| Paging.Pagination.PrevUrl | src/Pagination.php:226-233 | the previous page's URL exactly when the current page is past the first |
| Paging.Pagination.Limit | src/Pagination.php:331-335 | the pager's LIMIT text splits into the offset `(currentPage - 1) * perPage` and the page size |
| Paging.Pagination.CreatePage | src/Pagination.php:302-309 | page `n` with its filled-in URL and the given current mark |
| Paging.Pagination.GetPages | src/Pagination.php:240-293 | the method's result is the page list, whose properties are the lemmas above; for a consistent pager it numbers at most `maxPages` pages |
| Paging.Pagination.AppendPages | src/Pagination.php:278-280 | the loop appends the window `lo..hi` to the list |
| Paging.PaginationSlot.Construct | src/Pagination.php:64-77 | constructing a pager also records it as the instance |
| Paging.PaginationSlot.GetInstance | src/Pagination.php:85-92 | the last pager constructed, and the not-initialized error before any |
| Paging.SixItemsTwoPerPage | examples/Pagination.php:7-24 | six items, two per page, page 1: LIMIT `0,2` and three linked pages with the first current; on page 2 the LIMIT is `2,2` |
| Paging.SixItemsPages | examples/Pagination.php:14-24 | the page count, the LIMIT texts of pages 1 and 2 and the page list of that walk-through |
| Text.IntToStringRoundTrip | src/Pagination.php:334 | the decimal text of an integer reads back as that integer |
| Connections.Registry.constructor | src/Connection.php:12 | the collection starts empty |
| Connections.Registry.Register | src/Connection.php:20-23 | the handle is stored under the name (default `default`), replacing an earlier one; every other name keeps its handle |
| Connections.Registry.Has | src/Connection.php:47-50 | true exactly for the names that have a handle; reads only |
| Connections.Registry.Get | src/Connection.php:32-39 | succeeds exactly when `Has(name)`, with the handle stored under the name (default `default`); otherwise the not-found error naming it |
| Connections.RegisterAndLookUp | examples/Connection.php:7-15 | after registering without a name, `get()` returns the handle and `has('default')` holds; a second name gives the same handle; a name never registered is not found |

## Left out

- src/Model.php is not part of this model. It is glue that executes queries through the connection and reads the request's page number.
- `CRUD::query` and `CRUD::connection` (preparing and executing a statement, and the process-wide connection name) are not modelled. `Crud.Insert`, `Crud.Update` and `Crud.Delete` return the text and parameters they would hand to `query`.
- Closures passed to `where` and `having` are not modelled. They run arbitrary code against the builder. Only text conditions are.
- QueryBuilder.Query.Where: an argument that is neither text nor a Closure (such as `where(5)`) still seeds `WHERE ` in PHP but appends nothing. The model's argument is always text, so it does not capture that case. The same holds for `QueryBuilder.Query.Having` and `HAVING `.
- `__toString` is an alias of `build` and is not repeated.
- A `limit` argument given as an integer is the text PHP interpolates, so the model takes the text.
- Array keys are column-name strings. Integer keys and values of other types are not distinguished.
- An `insert`, `update` or `onDuplicateKeyUpdate` argument that is neither text nor an array appends nothing in PHP. The model's payload is always text or an array.
- A CRUD `$statements` value that is neither text nor an array is interpolated by PHP. The model takes its text.
- The connection handle is an opaque type parameter. Opening a connection is outside the model.
- Paging.LimitOf: PHP integers are 64-bit, and `currentPage * perPage` past `PHP_INT_MAX` becomes a float printed like `9.2233720368548E+18`. The model's integers are unbounded, so that text is not modelled. The same goes for `Paging.Pagination.Limit`.
- Paging.NextPageOf: `currentPage + 1` past `PHP_INT_MAX` becomes a float in PHP. The model's integers are unbounded, so it does not capture that. The same goes for `Paging.Pagination.NextPage` and `Paging.Pagination.NextUrl`.
- `ceil` works on a floating-point quotient. The model uses exact ceiling division, so quotients too large for a double to hold exactly are not modelled.
- The static `$collection` and `$instance` are objects (`Registry`, `PaginationSlot`) that callers share, not process-wide globals.
- The `...` marker's number `'...'` and URL `null` are the constructor `Ellipsis`.
- Paging.Pagination.SetMaxPages: returns normally, where the code as written ends every call in PHP's return-type error. `SetMaxPagesAsWritten` models the code as written (see Findings).
- Paging.Pagination.GetPages: follows the code as written, including the short window. `IntendedPageList` is the corrected list (see Findings).
- QueryUsage.FeaturedPosts: proved only for clean fragments. A clean fragment is non-empty, has no blank at either end and has no two adjacent spaces. For other fragments the clean-up may also change the caller's own text, and the contract says nothing.
- QueryUsage.PublishedAndFeatured: proved only for clean fragments, as above.
- QueryUsage.SortedPosts: proved only for clean fragments, as above.
- QueryUsage.InsertRow: proved only for a clean table name and a clean or plain-named payload.
- QueryUsage.InsertOrUpdate: proved only for a clean table name and clean or plain-named payloads.
- QueryUsage.UpdateRow: proved only for clean fragments and a clean or plain-named, non-empty payload.
- QueryUsage.DeleteRows: proved only for clean fragments, as above.

## Findings

| source | as written | input that shows it | evidently intended | confidence | as-written member | corrected member |
|---|---|---|---|---|---|---|
| src/Pagination.php:256 | the window moves to the end only when `currentPage + numAdjacents > totalPages` | 100 items, 10 per page, `maxPages` 7, current page 8: the list is 1, …, 6, 7, 8, 9, 10, six numbers, where current pages 7 and 9 both give seven | move the window as soon as it would pass the page before the last, so that exactly `maxPages` pages are numbered (for an odd `maxPages`, `>=` in place of `>`) | medium, not executed | Paging.ShortWindowBeforeEnd | Paging.IntendedWindowIsFull |
| src/Pagination.php:111-116 | `setMaxPages` is declared to return `Pagination` but has no `return` | `setMaxPages(9)` | `return $this;` after the update, like the other setters | high, not executed | Paging.Pagination.SetMaxPagesAsWritten | Paging.Pagination.SetMaxPages |
