# Meter-reading bill store, modelled in Dafny

The server of the meter-reading app keeps two pieces of state: the last
meter reading (the file `log/lastmr.txt`) and a JSON object of monthly bills
keyed by `MMYYYY` (the file `log/database.json`). Three handlers work on it:

- `POST /mr` (`meter_reading`) bills the units consumed since the last
  reading at 8 per unit, adds the water cost, subtracts the advance, makes the
  new reading the last reading and stores the bill under the current month's
  key, replacing any bill already stored for that month;
- `GET /years` (`years`) lists the year part `key[2:6]` of every key, each
  year once, in the order the keys are stored;
- `POST /search` (`search`) turns a month name into its two-digit number
  (`month_name_to_number`), appends the year, and returns the bill stored
  under that key or the status `"nf"`.

The model is five modules:

- `DateKeys` (`datekeys.dfy`): month names as `strptime(..., '%B')` reads
  them, the two-digit month and four-digit year, the `MMYYYY` key and the
  `key[2:6]` slice;
- `FirstSeen` (`firstseen.dfy`): the "append unless already present" scan of
  `years`, with its characterisation (no duplicates, same elements, order of
  first occurrence);
- `Billing` (`billing.dfy`): the bill record and its arithmetic;
- `MeterServer` (`store.dfy`): the class `MeterStore`, whose fields are the two
  files (`lastReading`, `db`) plus the order of the JSON object's members
  (`keys`), with the three handlers as methods; the search lookup as a
  function; and the lemmas that relate storing and searching.
- `Wrappers` (`wrappers.dfy`) holds `Option` and `Result`.

Design points:

- The order of the bills matters. A Python dict keeps insertion order.
  `json.load` and `json.dump` keep it too. Storing a bill under an existing
  key keeps the key's place. A new key goes last. `years` reports years in
  this order. So the state has `keys: seq<string>` beside
  `db: map<string, Record>`, and `Valid()` says that the keys are distinct and
  are exactly the keys of `db`.
- The clock is a parameter. `Submit` takes the month, the year and the
  `%d %B %Y` date text.
- Amounts are `real`. The code uses `float`; its rounding is left out.
- With an unknown month name, `month_name_to_number` returns `None`, and
  `None + str(year)` raises. The request then fails. The model returns
  `Err(UnknownMonth)` for this and keeps it apart from the `"nf"` reply.
- Three behaviours of the code that the model keeps:
  - `years` returns a list, in the order in which each year is first seen;
  - `strptime` matches month names in any letter case (`"july"`, `"JULY"`,
    `"July"`);
  - an unknown month name makes the search request fail; it does not give a
    "not found" reply.

## Model

| member | source | states |
|---|---|---|
| `DateKeys.FindFrom` | server.py:46 | the first index from `i` on whose lower-case month name equals the folded input, or None when no later name does |
| `DateKeys.MonthOf` | server.py:45-51 | `strptime(name, '%B').month`: Some(m) with 1 <= m <= 12 exactly when the lower-cased name is month m's lower-case name; None when it equals no month name |
| `DateKeys.MonthNumber` | server.py:32-51 | `month_name_to_number`: Some exactly when the lower-cased name is a month name, and then that month's code `"01"`..`"12"` |
| `DateKeys.MonthNumberOfName` | server.py:45-51 | month m's code comes back exactly for the names equal to m's full name up to letter case (both directions) |
| `DateKeys.MonthNumberNone` | server.py:50-51 | None comes back exactly for the names that match no full month name in any letter case |
| `DateKeys.MonthNumberOfFullName` | server.py:45-48 | a full month name, and its lower-case spelling, give the month's two-digit code (July gives `"07"`) |
| `DateKeys.DateKey` | server.py:183 | `strftime('%m%Y')`: six characters, the month's code followed by the four-digit year |
| `DateKeys.DateKeyInjective` | server.py:183-186 | two months share a key exactly when month and year are equal, so one month's bill never overwrites another's |
| `DateKeys.YearOf` | server.py:229 | `key[2:6]` with Python's slice clamping; for a key of six or more characters, its characters 2 to 5 |
| `DateKeys.YearOfDateKey` | server.py:229 | the year part of a month's key is that month's `%Y` year |
| `FirstSeen.Dedup` | server.py:224-233 | the scan that appends an element unless it is already there: no duplicates, and exactly the elements of the input |
| `FirstSeen.FirstIndex` | server.py:231 | the first position of an element: it holds the element and no earlier position does |
| `FirstSeen.DedupFirstSeenOrder` | server.py:227-233 | the scan lists elements in the order of their first occurrence in the input |
| `FirstSeen.FirstSeenListIsDedup` | server.py:224-233 | a list is distinct, has the input's elements and is in first-occurrence order exactly when it is the scan's result |
| `Billing.NewBill` | server.py:145-176 | the bill's consumption is `cm_reading - lastmr`, its money is consumption times 8, `tmoney` adds the water cost, `gt_money` subtracts the advance; it keeps the inputs as `thismr`, `lastmr`, `watercost`, `advance`, `date` |
| `Billing.ConsistentIsNewBill` | server.py:145-155 | any record whose amounts satisfy the four identities is the bill of its own readings and inputs |
| `Billing.GrandTotal` | server.py:145-155 | `gt_money = (thismr - lastmr) * 8 + watercost - advance` |
| `MeterServer.Lookup` | server.py:253-272 | UnknownMonth exactly when the lower-cased name is no month name; otherwise the bill stored under month code + year text, or `"nf"` when that key is absent |
| `MeterServer.KeyYearsElements` | server.py:227-229 | a year is among the keys' year parts exactly when some key has it as its `key[2:6]` |
| `MeterServer.SearchFindsBill` | server.py:253-256 | the bill stored under a month's key is what a search by that month's name (any letter case) and `%Y` year returns |
| `MeterServer.SearchOtherMonth` | server.py:183-186 | storing a bill for one month leaves the search result of every other month and year unchanged |
| `MeterServer.ResubmitInMonth` | server.py:134-272 | two readings submitted through `meter_reading` (lines 134-203) in one month, then that month searched through `search` (lines 239-272): the first bill is billed from the stored last reading, the second from the first bill's reading; the second replaces the first under the month's key; the last reading is the second reading; the search returns the second bill |
| `MeterServer.July2024Bill` | server.py:145-155 | a reading of 150 after 120, with 30 water and 50 advance, bills 30 units, 240, 270 and 220 |
| `MeterServer.MeterStore.constructor` | server.py:179-180 | the state as the two files hold it: a last reading and a JSON object whose member order has no duplicate and covers exactly its keys |
| `MeterServer.MeterStore.Submit` | server.py:134-203 | the last reading becomes `cm_reading`; the month's key now holds the new bill computed from the old last reading; every other key keeps its bill; a new key goes last in the order; the reply carries the stored bill; consistent bills stay consistent |
| `MeterServer.MeterStore.Years` | server.py:206-236 | the keys' year parts in key order without duplicates: distinct, in first-seen order, exactly the years of the stored keys, empty for an empty store |
| `MeterServer.MeterStore.Search` | server.py:239-272 | the lookup of the stored bills, with the state left unchanged |

## Left out

- HTTP routing, `request.get_json`, `jsonify` and `render_template` (the `/` handler `index`): library plumbing. The replies are the datatype `Reply`, with `Status()` giving `"success"` or `"nf"`.
- Reading and writing `log/lastmr.txt` and `log/database.json`, and the JSON (de)serialisation: the files are the fields of `MeterStore`. A write that fails halfway is not modelled.
- `float(...)` parsing of the request fields and of the reading file, and floating-point rounding: amounts are `real`.
- `datetime.date.today()` and `strftime("%d %B %Y")`: the month, year and date text are parameters of `Submit`.
- MeterServer.MeterStore.Submit: requires 1 <= year <= 9999 (the range of Python's `date`) and assumes `%Y` pads to four digits, which current CPython does on every platform.
- DateKeys.MonthOf: only the English month names of the C locale are modelled; other locales' names are left out. For these names, ASCII lower-casing agrees with strptime. Its regex also lets a few non-ASCII letters through as case variants (the long s, the dotless i), but strptime then looks up the input's `.lower()` among the lower-case names, does not find it and raises ValueError, which `month_name_to_number` turns into None, as the model does.
- MeterServer.Lookup: the year is taken as text. `str(year)` of a JSON number is not modelled. A JSON value that is not a string as the month name makes strptime raise TypeError, and that is not modelled either.
- Stored records missing one of the nine fields (a KeyError in `search`), and JSON files with duplicate keys: every stored record is a full `Record`.
- `get_network_ip` and the startup block: socket I/O and printing.
- `static/script.js`: the browser client, with no logic of its own.
- Concurrent requests and lost updates: one request at a time is assumed.
