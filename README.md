# Stock ledger of the inventory system

This project models the stock ledger of a small Python inventory system. The
ledger is the module-global dict `stock_data`, which maps an item name to a
signed integer quantity. Four operations read or change it:

- `add_item(item, qty)` checks the argument types and rejects an empty name.
  Otherwise it sets the item to its old quantity (0 when absent) plus `qty`. It
  keeps the entry even when the total is zero or negative.
- `remove_item(item, qty)` checks the argument types and ignores an item that is
  not in stock. Otherwise it takes `qty` off the item and deletes the entry when
  zero or less is left.
- `get_qty(item)` returns the stored quantity, or 0 for an item not in stock.
- `check_low_items(threshold)` lists the items whose quantity is strictly below
  the threshold, in dict iteration order.

A fifth operation, `load_data`, replaces the whole ledger with the contents of a
JSON file. It falls back to an empty ledger when the file is missing or is not
valid JSON.

`ledger.dfy` (module `StockLedger`) holds the data model and the operations:

- `Dict` is a Python dict: its values and its keys in insertion order. Order
  matters because `check_low_items` reports in iteration order.
- `Store` and `Delete` are Python's `d[k] = v` and `del d[k]`. A new key goes to
  the end of the order. An updated key keeps its place.
- `Added`, `Removed` and `Loaded` give the ledger after each operation, plus the
  severity it logs (`Status`).
- `Qty` and `LowItems` are the two read-only operations.
- Class `Ledger` holds the same state as two fields that its methods change in
  place. Each method is proved equal to the function that specifies it.

`properties.dfy` (module `StockLedgerProperties`) proves properties that relate
several operations: round trips between add and remove, the difference
between adding a negative quantity and removing, what a load installs, and the
call sequence of the program's `main`.

Points where the code's behaviour is easy to misread:

- The docstring of `check_low_items` says "at or below" the threshold. The code
  compares with `<`, so an item exactly at the threshold is not low.
- `load_data` catches only `FileNotFoundError` and `json.JSONDecodeError`
  (inventory_system.py:126, 130). Any other failure, such as a permission error
  or bytes that are not UTF-8, escapes the function and leaves the ledger
  unchanged. The model represents this as the outcome `Unreadable` and the
  status `Raised`.
- `remove_item` does not reject an empty item name. An entry `""` that came in
  through a load can be removed.

## Model

| member | source | states |
|---|---|---|
| `StockLedger.Qty` | inventory_system.py:91-104 | `get_qty` gives the stored quantity of a stocked item and 0 for any other name |
| `StockLedger.Added` | inventory_system.py:21-47 | ill-typed arguments give `Error` and an empty name gives `Warning`, both with the ledger unchanged; a well-typed add with a non-empty name gives `Info`, and the item maps to its old quantity (0 if absent) plus `qty`, even when that is not positive, every other key is unchanged, and a new item goes last in the order |
| `StockLedger.Removed` | inventory_system.py:51-88 | ill-typed arguments give `Error` and an item not in stock gives `Warning`, both with the ledger unchanged; otherwise the status is `Info` and the item is deleted when old − qty ≤ 0 (and leaves the iteration order) and set to old − qty otherwise (keeping its place), every other key unchanged |
| `StockLedger.Store` | inventory_system.py:42 | dict assignment sets the key to the value and leaves every other key as it was; a new key goes last in the iteration order, an existing key keeps its place |
| `StockLedger.Delete` | inventory_system.py:73 | `del` removes exactly that key, from the values and from the iteration order |
| `StockLedger.Without` | inventory_system.py:73 | the iteration order after `del` holds exactly the other keys, as a subsequence of the old order, without duplicates if the old order had none, and is unchanged when the key was absent |
| `StockLedger.FromMembers` | inventory_system.py:123 | the dict decoded from a JSON object is well formed and has exactly the object's member names as keys |
| `StockLedger.Loaded` | inventory_system.py:107-133 | a parsed object replaces the ledger with status `Info`; a missing file gives the empty ledger with `Warning`; malformed JSON gives the empty ledger with `Error`; any other failure leaves the ledger unchanged and raises |
| `StockLedger.LowItems` | inventory_system.py:169-179 | a name is in the result exactly when it is a key with quantity strictly below the threshold; the result keeps the iteration order (a subsequence) and has no duplicates |
| `StockLedger.AddedKeepsValid` | inventory_system.py:42 | `add_item` keeps the ledger a well-formed dict: each key once in the order, and only keys |
| `StockLedger.RemovedKeepsValid` | inventory_system.py:71-73 | `remove_item` keeps the ledger a well-formed dict |
| `StockLedger.LoadedKeepsValid` | inventory_system.py:119-133 | every load outcome leaves a well-formed dict |
| `StockLedger.Ledger.constructor` | inventory_system.py:18 | the ledger starts empty |
| `StockLedger.Ledger.AddItem` | inventory_system.py:21-47 | updating the ledger in place gives the state and status `Added` specifies, and keeps the ledger well formed |
| `StockLedger.Ledger.RemoveItem` | inventory_system.py:51-88 | subtracting and then deleting in place gives the state and status `Removed` specifies, and keeps the ledger well formed |
| `StockLedger.Ledger.LoadData` | inventory_system.py:107-133 | rebinding the ledger gives the state and status `Loaded` specifies |
| `StockLedgerProperties.TwoAddsFromAbsent` | inventory_system.py:42 | two adds to an absent item leave it present at exactly q1 + q2, whatever the sign, and change no other item |
| `StockLedgerProperties.RemoveAllThenQtyIsZero` | inventory_system.py:71-75 | removing at least the stocked quantity deletes the item from the values and the order, so `get_qty` then gives 0 |
| `StockLedgerProperties.RemoveLeavesPositiveOrNothing` | inventory_system.py:71-81 | after a remove of a stocked item, the item is either gone or strictly positive in its old place in the order |
| `StockLedgerProperties.RemoveUndoesAddOfNewItem` | inventory_system.py:21-88 | removing what was just added to a new item restores the ledger exactly, order included |
| `StockLedgerProperties.RemoveUndoesAddOfStockedItem` | inventory_system.py:21-88 | removing what was just added to an item held at a positive quantity restores the ledger exactly |
| `StockLedgerProperties.AddThenRemoveDropsNonPositive` | inventory_system.py:42-75 | the same round trip on an item held at zero or below deletes it: the add/remove asymmetry |
| `StockLedgerProperties.AddNegativeVersusRemove` | inventory_system.py:42-81 | adding −q and removing q agree while the result stays positive; at zero or below add keeps the entry and remove deletes it |
| `StockLedgerProperties.FromMembersLastWins` | inventory_system.py:123 | in a decoded object, a repeated name holds the value of its last member |
| `StockLedgerProperties.FromMembersOrder` | inventory_system.py:123 | with distinct names, the decoded dict iterates in file order |
| `StockLedgerProperties.LoadInstallsParsedObject` | inventory_system.py:119-125 | a successful load of an object with distinct names installs exactly its name-to-quantity mapping, in file order |
| `StockLedgerProperties.LowItemsExample` | inventory_system.py:179 | on `{"apple": 7, "banana": 13, "pear": -2}` with threshold 5 the result is `["pear"]`, and a quantity equal to the threshold is not low |
| `StockLedgerProperties.MainScenarioLoadAndAdd` | inventory_system.py:186-189 | `main` starts from an empty ledger when the file is missing, then adds apple 10 and banana 15 in that order |
| `StockLedgerProperties.MainScenarioIllTypedAndNegative` | inventory_system.py:191-192 | `add_item(123, "ten")` changes nothing and reports an error; adding −2 takes banana to 13 |
| `StockLedgerProperties.MainScenarioRemoves` | inventory_system.py:194-199 | removing 3 apples leaves 7; removing "orange" changes nothing and warns; `get_qty("apple")` is 7; nothing is below 5 |

## Left out

- `save_data` and the JSON encoding (`json.dump` with 4-space indentation). They write a file and never change the ledger. A save/load round trip is a property of the `json` library, which is not part of this model.
- File access and JSON decoding in `load_data`. The result of `open` and `json.load` is a parameter (`LoadOutcome`). A parsed object is assumed to map names to integers. A JSON document whose top level is not an object, or whose values are not integers, is not modelled.
- Logging. The configuration and the text of each message are left out. Each operation returns only the severity it logs, as a `Status`.
- `print_data` and the `print` calls of `main`: console output only.
- Python's `bool` counts as an `int` in `isinstance`. The model has no booleans, so `add_item("x", True)` is not modelled.
- `StockLedger.Qty` takes a string name. `get_qty` with a key of another type is not modelled. An unhashable key would raise `TypeError`, which `get_qty` does not catch.
- The default argument `threshold=5` of `check_low_items`: `LowItems` always takes the threshold from its caller. The threshold is an integer; comparison with floats is not modelled.
- The module-global binding of `stock_data` and the `global` statement are modelled as one `Ledger` object.
