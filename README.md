# Expense tracker: the `add` path

A model of the command-line expense tracker `tracker.py`. The program keeps a
list of expense records (id, date, description, amount) in one JSON file. Its
only command, `add`, loads the list, gives the new record the id of the last
record plus one (1 for an empty list), stamps it with today's date, appends it
and writes the list back. Its `main` decides from the argument vector whether
to add at all.

- `wrappers.dfy` — `Option`, for a file that may be missing and a string that
  may not parse as a number.
- `store.dfy` (module `ExpenseStore`) — the `Expense` record and the id rule
  `NextId`. It also holds a reference `MaxId` (the largest of 0 and the ids; the largest
  id whenever ids are positive) and
  the store invariant `IdsValid`: ids are positive and strictly increase in list
  order. The class `Store` holds the list as a `seq<Expense>` field. Its
  constructor `Open` models loading. Its method `Add` models `add_expense`.
- `cli.dfy` (module `CommandLine`) — `IndexOf` (Python's `list.index`),
  the pure decision tree `ParseAdd` of `main`, and `Run`. `Run` is one run of
  `main` against a store.

The code assigns ids as "last + 1", not "max + 1"; the model does what the code
does. Under the store invariant the two agree (`NextIdIsMaxPlusOne`), and `Add`
keeps that invariant. `LastPlusOneCanRepeatAnId` shows that without the
ordering the rule can repeat an id. Only `add` writes the file, so every list the
program itself builds from a missing file, or from one holding `[]`, satisfies
the invariant (`Open` states the base case).

The date and the conversion of text to a number are inputs. The date is the
string `today` given to `Add` and `Run`. The conversion is the function
`parseAmount: string -> Option<real>` given to `ParseAdd` and `Run`; `None`
stands for Python's `ValueError`.

## Model

| member | source | states |
|---|---|---|
| `ExpenseStore.MaxId` | tracker.py:24 | the reference "max id + 1" is built on: it is at least 0, at least every id, and either 0 or one of the ids |
| `ExpenseStore.NextIdOfEmpty` | tracker.py:24 | an empty store gives the new record id 1, which is also max id + 1 with default 0 |
| `ExpenseStore.NextIdIsMaxPlusOne` | tracker.py:24 | when ids are positive and strictly increasing, the last id + 1 equals the largest id + 1 |
| `ExpenseStore.NextIdIsFresh` | tracker.py:24 | under the same invariant the new id is positive and exceeds every existing id, so it differs from all of them |
| `ExpenseStore.IdsValidImpliesUnique` | tracker.py:24-31 | strictly increasing ids are pairwise distinct ids |
| `ExpenseStore.AppendPreservesIdsValid` | tracker.py:24-31 | appending a record that carries the next id keeps ids positive and strictly increasing |
| `ExpenseStore.LastPlusOneCanRepeatAnId` | tracker.py:24 | for the out-of-order store with ids [2, 1], last + 1 is 2, which repeats the first id and differs from max + 1 = 3 |
| `ExpenseStore.Store.Open` | tracker.py:9-14 | a missing file gives the empty list, which satisfies the store invariant; an existing one gives the list it holds |
| `ExpenseStore.Store.Add` | tracker.py:22-33 | the store becomes the old list followed by exactly one record. That record has the next id (1 when the store was empty), the given date, the description verbatim and the amount. The reported id is that id. A valid store stays valid, and then the id is max + 1 and above every earlier id |
| `CommandLine.IndexOf` | tracker.py:40-41 | finds nothing exactly when the token is absent; otherwise the position of the token's first occurrence |
| `CommandLine.ParseAdd` | tracker.py:37-49 | a run is accepted only with `add` as the command and a non-negative amount |
| `CommandLine.ParseAddUnknownCommand` | tracker.py:37 | the unknown-command refusal happens exactly when there are fewer than two tokens or the second is not `add` |
| `CommandLine.ParseAddMissingFlag` | tracker.py:38 | the usage refusal happens exactly when the command is `add` and `--description` or `--amount` is absent |
| `CommandLine.ParseAddAtFirstFlags` | tracker.py:40-49 | with both flags present at first positions i and j: if either is the final token, the result is invalid usage. Otherwise the token after j decides: unparseable gives invalid usage, negative gives the negative-amount refusal, and anything else adds the token after i with that amount |
| `CommandLine.ParseAddFlagLast` | tracker.py:40-43 | a flag whose first occurrence is the final token makes the run invalid usage |
| `CommandLine.ParseAddAccepted` | tracker.py:40-47 | an accepted run carries the token after the first `--description` verbatim. Its amount is the parse of the token after the first `--amount`, and it is not negative |
| `CommandLine.Run` | tracker.py:36-53 | every refusal reports its reason and leaves the store unchanged. An accepted `add` appends exactly one record with the next id and reports that id. A valid store stays valid |

## Left out

- File I/O in `load_expenses` and `save_expenses` (tracker.py:9-19): creating the file, JSON encoding and decoding, indentation. The store is the list those functions return and accept. Every record is assumed to carry an integer `"id"`: one without it raises an uncaught KeyError at tracker.py:24. A file that does not decode (a 0-byte file among them) is not modelled: `json.load` raises JSONDecodeError at tracker.py:14, a ValueError, which the handler at tracker.py:48 reports as invalid usage.
- `datetime.now().strftime("%Y-%m-%d")` (tracker.py:27): the date is the opaque string `today`.
- Floating point: `float(...)` (tracker.py:29, tracker.py:43) is the parameter `parseAmount`, and amounts are exact reals. So NaN is not modelled: Python's `float("nan")` is not below zero and would be added, while here every parsed amount is compared exactly.
- The printed messages and their emoji (tracker.py:33, 45, 49, 51, 53): only which message is chosen is modelled, as `Report`.
- The commands list, delete, summary and update have no code in tracker.py and are not modelled.
