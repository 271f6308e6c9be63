# Star Wars character loader — verified model of its enrichment and load loop

The program fetches characters 1 to 99 from the SWAPI people endpoint. For each
character it resolves the films, species, starships and vehicles the record
links to, and flattens each category into one `", "`-joined string. It then
inserts the character into a `characters` table with `ON CONFLICT (id) DO
NOTHING`. If one id fails, the error is reported and the loop moves on to the
next id.

The model has four modules:

- `Wrappers` (`wrappers.dfy`): `Option` stands for SQL NULL and `Result` for a
  Python exception that ends the current step.
- `Strings` (`strings.dfy`): the Python string operations the code relies on.
  These are `sep.join`, the substring test `'name' in url`, and `f'{n}'` for
  integers. Each one comes with the inverse it is proved against: `Split` for
  `Join`, an index characterisation for `Contains`, and `ParseNat` for
  `NatToString`.
- `Enrichment` (`enrichment.dfy`): `extract_data`. A fetched JSON object is a
  `map<string, Value>`. `fetch` is a parameter of type `string ->
  Result<Object, Error>`, and a pending task is represented by its URL. The
  Python list that both `film_tasks` and `tasks` are bound to is the class
  `TaskList`. `+=` extends it in place, so the aliasing in the source is
  reproduced exactly. The methods `ExtractData` and `EnrichData` are proved equal to the
  functions `Extract` and `Enrich`. The lemmas state what `Extract` delivers.
- `Pipeline` (`pipeline.dfy`): `load_data` and `main`. It builds the column
  and `$n` placeholder lists of the INSERT. It binds the 14 fields as the
  statement's arguments, one per placeholder (`Load`). As written, line 73
  passes the list of values as one single argument, which the driver rejects
  before any row is stored. That path is modelled separately as
  `LoadAsWritten` (see Findings). The table is the class `Store`, which holds a
  `map<int, Row>`, and `Store.Insert` is insert-if-absent. The driver `Run`
  is a `for` loop over ids 1 to 99. It is proved against the functions
  `StoreAfter` (the table after the loop) and `ErrorLog` (the `(id, error)`
  pairs the loop reports).

Behaviour of the code as written, which the model keeps:

- `tasks = film_tasks` binds one list object, so the films count read at line
  49 is the total task count. The films slice is therefore every gathered
  object. The species, starships and vehicles slices are always empty, and
  those three fields are always `None` (`ExtractCollapses`,
  `LoadedRowShape`). One might expect the gathered results to be cut at
  per-category counts, but the code does not do that (`SlicesCollapse`).
  `SlicesExact` shows what the offsets would give if they were cut at the
  true counts.
- The species, starships and vehicles URLs are kept only when the URL text
  contains `name`. An ordinary resource URL does not, so those references are
  usually never fetched. In `LukeScenario` the starship comes out `None`,
  not `"X-wing"`.
- The table key is the character object's own `id` field, not the loop
  counter. An object without an `id` key fails with `KeyError` when the
  parameters are built, and that id is reported and skipped.
- Python slices clamp out-of-range bounds. `PySlice` models this, because the
  offsets at lines 50-52 do run past the end.

## Model

| member | source | states |
|---|---|---|
| `Strings.Join` | main.py:54-57 | A non-empty join has the total length of its tokens plus one separator between each pair of neighbours, and it starts with the first token. |
| `Strings.JoinSnoc` | main.py:54-57 | Appending one token to a non-empty join adds exactly one separator and the token. |
| `Strings.SplitJoin` | main.py:71-72 | Splitting a `,`-join on `,` gives back exactly the joined parts, in order, when no part contains a comma. |
| `Strings.JoinSplit` | main.py:71-72 | Joining the parts of a split with the separator rebuilds the original string. |
| `Strings.ContainsIff` | main.py:38-40 | The test `pat in text` holds exactly when `pat` occurs in `text` at some index. |
| `Strings.NatToString` | main.py:72 | Formatting an integer gives a non-empty string of decimal digits with no leading zero: it starts with `0` only for the integer 0. |
| `Strings.ParseFormat` | main.py:72 | Reading a formatted integer back as a numeral gives the integer again. |
| `Enrichment.KeepNamedSound` | main.py:38-40 | Every kept URL contains `"name"`. Each URL containing `"name"` is kept exactly as many times as it occurs, and no other URL is kept. |
| `Enrichment.KeepNamedAppend` | main.py:38-40 | Filtering a concatenation gives the filtered parts in their original order. |
| `Enrichment.KeepNamedAll` | main.py:38-40 | A list whose every URL contains `"name"` is kept whole and in order. |
| `Enrichment.Gather` | main.py:47 | The batch succeeds exactly when every task's fetch succeeds. On success the i-th result is the i-th task's object. On failure the error is one raised by some task. |
| `Enrichment.SlicesTile` | main.py:49-52 | For any offsets, the four slices concatenated are exactly the gathered sequence, with nothing lost or duplicated. |
| `Enrichment.SlicesExact` | main.py:49-52 | Cut at the true per-category counts, each slice is exactly that category's results. |
| `Enrichment.SlicesCollapse` | main.py:42-52 | When the films count is the total task count, the films slice is everything and the species, starships and vehicles slices are empty. |
| `Enrichment.DisplayNames` | main.py:54-57 | The names are built exactly when every object carrying the key has a string value under it (otherwise a `TypeError` for that key). There are never more names than objects. |
| `Enrichment.DisplayNamesAppend` | main.py:54-57 | The names of a concatenation are the names of each part, in order, and they succeed exactly when both parts do. |
| `Enrichment.JoinedFieldSkipsMissing` | main.py:54-57 | An object without the display key adds no token and no separator to the joined field. |
| `Enrichment.JoinedFieldAddsName` | main.py:54-57 | An object with a string display value adds `", "` and that value, or only the value when it is the first name. |
| `Enrichment.JoinedFieldNoKey` | main.py:54 | When no object has the key, the joined field is `""`, not `None`. |
| `Enrichment.Flatten` | main.py:54-57 | Succeeds exactly when the film titles, and the names of each non-empty other slice, can be joined. On failure the error is `TypeError("title")` if the titles fail, else `TypeError("name")`. `films` is the `", "`-join of the film titles. Each other field is `None` exactly when its slice is empty, and otherwise the join of its names. Only the four reference fields change. |
| `Enrichment.ExtractCollapses` | main.py:42-57 | A successful extraction has species, starships and vehicles `None`, and its films field joins the titles of all gathered objects in task order. |
| `Enrichment.TaskList.constructor` | main.py:37 | The new list holds exactly the film URLs. |
| `Enrichment.TaskList.Extend` | main.py:43-45 | `+=` extends the same list object in place by the given tasks. |
| `Enrichment.ExtractData` | main.py:34-59 | The step-by-step extraction returns exactly what `Extract` specifies, including a failed fetch of the character itself. |
| `Enrichment.EnrichData` | main.py:37-59 | The steps after the character fetch, with `tasks` aliasing `film_tasks`, return exactly what `Enrich` specifies, including each `KeyError`, `TypeError` and fetch failure. |
| `Enrichment.Normalize` | main.py:49-57 | Slicing at the given counts and overwriting the four fields one by one gives exactly `Flatten` of the slices, or the first `TypeError`. |
| `Enrichment.LukeScenario` | main.py:34-59 | Worked example: only the two film titles survive (`"A New Hope, Empire"`), and species, starships and vehicles are all `None`. |
| `Pipeline.PlaceholdersNumbered` | main.py:72 | There are n placeholders. Each is `$` followed by a numeral, and the numerals are 1 to n in order. |
| `Pipeline.ColumnListFields` | main.py:65-71 | The column list splits on `,` into exactly the 14 field names, in order. |
| `Pipeline.PlaceholderListNumbered` | main.py:72 | The placeholder list splits on `,` into one placeholder per field, numbered `$1` to `$14` consecutively. |
| `Pipeline.Params` | main.py:73 | The parameter list exists exactly when every field is present. Its i-th value is the character's value for the i-th field. Otherwise the error is `KeyError` for the first missing field in `fields` order. |
| `Pipeline.TextCells` | main.py:66-73 | Text parameters encode exactly when each is a string or `None`, cell by cell. Otherwise the result is a `DataError` naming the first column, in parameter order, that cannot be encoded. |
| `Pipeline.Bind` | main.py:65-73 | Binding succeeds exactly when all 14 fields are present, `id` is a number, and every other field is a string or `None`. A bound row takes its key from `id` and its 13 cells from the remaining fields in order. Otherwise the error is `KeyError` for the first missing field, or, with all fields present, `DataError` for the first field that cannot be encoded. |
| `Pipeline.LoadMatchesPlaceholders` | main.py:66-73 | A loaded row supplies exactly one argument per `$n` placeholder of the statement. |
| `Pipeline.LoadAsWrittenFails` | main.py:66-73 | As written, loading an id always fails. An id that would load fails with the argument-count error, 14 expected and 1 passed. |
| `Pipeline.RunAsWrittenStoresNothing` | main.py:77-84 | As written, the loop leaves the table unchanged and reports every id of the range. |
| `Pipeline.LoadedRowShape` | main.py:54-73 | Every row the loader would insert has its films cell set and its species, starships and vehicles cells NULL. |
| `Pipeline.Inserted` | main.py:69 | Insert-if-absent adds the row's key and never changes an existing entry. An absent key gets the new row. |
| `Pipeline.Store.Insert` | main.py:66-73 | Executing the INSERT adds a row exactly when its key is absent. The table becomes `Inserted` of the old table. |
| `Pipeline.LoadData` | main.py:62-74 | `load_data` returns `Load`'s outcome. The table gets that row inserted-if-absent on success and is unchanged on failure. |
| `Pipeline.Run` | main.py:77-84 | The loop over `range(1, 100)` leaves the table as `StoreAfter` over ids 1 to 99 in order and reports exactly `ErrorLog` of those ids. |
| `Pipeline.StoreAfterKeeps` | main.py:69 | First write wins: every row already in the table survives the run unchanged. |
| `Pipeline.StoreAfterKeys` | main.py:80-84 | After a run, a key is present exactly when it was present before or some id in the range loaded a row with that key. Failing ids add nothing. |
| `Pipeline.StoreAfterStable` | main.py:80-84 | A run over a table that already holds every key the run would insert changes nothing. |
| `Pipeline.StoreAfterIdempotent` | main.py:80-84 | Re-running the same ids with the same fetch results leaves the table as the first run left it. |
| `Pipeline.StoreAfterPersists` | main.py:80-84 | Failure isolation: an id whose row loads is persisted whatever the other ids do, unless an earlier id or the existing table already holds its key. |
| `Pipeline.ErrorLogExact` | main.py:81-84 | `(x, e)` is reported exactly when x is in the range and loading x raised e. |
| `Pipeline.ErrorLogAscending` | main.py:80 | Reported ids lie in the range and are in strictly ascending order. |

## Left out

- `Pipeline.Bind`: the model takes the value list at line 73 as the statement's argument vector, which is what the code evidently intends. The per-column encoding rules (`DataError`) rest on that assumption. The code as written is covered by `LoadAsWritten`.
- The HTTP transport and JSON decoding of `fetch` (main.py:29-31) and the `aiohttp` session: `fetch` is an abstract parameter from URL to object-or-error. A top-level JSON value that is not an object is not modelled.
- Database connection handling, `create_table` and `close` (main.py:6-26, 63, 74): only the insert-if-absent semantics of the table are kept. A failure to connect, and any execute failure other than the argument count, are not modelled as separate per-id failures.
- Coroutine scheduling and the concurrency of `asyncio.gather`: gather is an in-order map. When several fetches fail, Python reports whichever raises first in time, and the model reports the first failing task in task order.
- `print` of a failing id (main.py:84): it becomes the returned `(id, error)` log of `Run`.
- JSON booleans, floats, nested objects and arrays of non-strings are not modelled. A reference field that is not an array of strings is a `TypeError`, although Python would iterate a string value character by character.
- The driver's encoding rules are reduced to one case: the `id` parameter must be a number and the text columns a string or `None`, otherwise the result is a `DataError`.
- `Enrichment.Gather`: on failure its contract only says that the error was raised by some task of the batch, because which exception `gather` surfaces depends on timing.

## Findings

| source | as written | input that shows it | evidently intended | confidence | as-written member | corrected member |
|---|---|---|---|---|---|---|
| main.py:66-73 | The list of field values is passed to `conn.execute` as one positional argument. `execute(query, *args)` therefore receives 1 argument for a statement with 14 placeholders and raises an argument-count `InterfaceError` before encoding anything. | Any id whose record has all 14 fields, e.g. a record that `Load` binds successfully: `LoadAsWritten` fails with `InterfaceError(14, 1)`, and the table stays empty. | The values unpacked into `execute`'s arguments: one argument per placeholder. | high (driver argument check); not executed | `Pipeline.RunAsWrittenStoresNothing` | `Pipeline.LoadMatchesPlaceholders` |
