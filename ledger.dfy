/** The stock ledger of the inventory system: the module-global `stock_data`
    dict from item name to quantity, and the operations that read and change it.

    A Python dict is modelled by `Dict`: its values and its keys in insertion
    order (iteration order is observable through `check_low_items`). The
    operations are stated twice: as functions from the old ledger to the new
    one (`Added`, `Removed`, `Loaded`), which the lemmas in
    `StockLedgerProperties` reason about, and as methods of `Ledger`, which
    change the ledger in place as the Python code does and are proved against
    those functions. */
module StockLedger {

  /** A call argument as Python's `isinstance` sees it: a `str`, an `int`,
      or a value of any other type. */
  datatype Arg = Str(s: string) | Int(i: int) | Other

  /** What an operation reports. `Info`, `Warning` and `Error` are the
      severities of the log record it writes; `Raised` means an exception
      leaves the operation. */
  datatype Status = Info | Warning | Error | Raised

  /** What opening the file and decoding it as JSON gives `load_data`.
      `Parsed` carries the members of the top-level JSON object in file
      order, duplicates included; `Unreadable` is any failure other than a
      missing file or malformed JSON (a permission error, bytes that are not
      UTF-8), which `load_data` does not catch. */
  datatype LoadOutcome =
    | Parsed(members: seq<(string, int)>)
    | NotFound
    | DecodeError
    | Unreadable

  ghost predicate NoDuplicates(s: seq<string>) {
    forall i, j :: 0 <= i < j < |s| ==> s[i] != s[j]
  }

  /** `a` is `b` with some elements left out, the rest in the same order. */
  ghost predicate IsSubsequence(a: seq<string>, b: seq<string>)
    decreases |b|
  {
    && |a| <= |b|
    && (|| a == []
        || (a[0] == b[0] && IsSubsequence(a[1..], b[1..]))
        || IsSubsequence(a, b[1..]))
  }

  /** A Python dict from item name to quantity. */
  datatype Dict = Dict(quantities: map<string, int>, order: seq<string>) {
    /** Every key occurs exactly once in the iteration order, and only keys do. */
    ghost predicate Valid() {
      && NoDuplicates(order)
      && forall k :: k in quantities <==> k in order
    }
  }

  /** `{}`: the ledger at start-up and after a failed load. */
  const Empty := Dict(map[], [])

  /** The outcome of an operation: the ledger afterwards and what was reported. */
  datatype Step = Step(ledger: Dict, status: Status)

  /** `keys` with `k` taken out and the rest in the same order: what `del`
      does to a dict's iteration order. */
  function Without(keys: seq<string>, k: string): (r: seq<string>)
    ensures forall x :: x in r <==> x in keys && x != k
    ensures IsSubsequence(r, keys)
    ensures NoDuplicates(keys) ==> NoDuplicates(r)
    ensures k !in keys ==> r == keys
  {
    if keys == [] then []
    else if keys[0] == k then Without(keys[1..], k)
    else
      var rest := Without(keys[1..], k);
      assert NoDuplicates(keys) ==> keys[0] !in keys[1..];
      [keys[0]] + rest
  }

  /** Python's `d[k] = v`: a new key goes to the end of the iteration order,
      an existing key keeps its place. */
  function Store(d: Dict, k: string, v: int): (r: Dict)
    ensures r.quantities == d.quantities[k := v]
    ensures r.order == if k in d.quantities then d.order else d.order + [k]
  {
    if k in d.quantities then Dict(d.quantities[k := v], d.order)
    else Dict(d.quantities[k := v], d.order + [k])
  }

  /** Python's `del d[k]`. */
  function Delete(d: Dict, k: string): (r: Dict)
    ensures r.quantities == d.quantities - {k}
    ensures r.order == Without(d.order, k)
  {
    Dict(d.quantities - {k}, Without(d.order, k))
  }

  /** `get_qty(item)`: the stored quantity, and 0 for an item not in stock. */
  function Qty(d: Dict, item: string): (r: int)
    ensures item in d.quantities ==> r == d.quantities[item]
    ensures item !in d.quantities ==> r == 0
  {
    if item in d.quantities then d.quantities[item] else 0
  }

  /** `add_item(item, qty)`. Ill-typed arguments and an empty name change
      nothing; otherwise the item is set to its old quantity (0 if absent)
      plus `qty`, and kept even when that total is zero or negative. */
  function Added(d: Dict, item: Arg, qty: Arg): (r: Step)
    ensures r.status == Error <==> !(item.Str? && qty.Int?)
    ensures r.status == Warning <==> item.Str? && qty.Int? && item.s == ""
    ensures r.status == Info <==> item.Str? && qty.Int? && item.s != ""
    ensures r.status != Info ==> r.ledger == d
    ensures r.status == Info ==>
              && r.ledger.quantities == d.quantities[item.s := Qty(d, item.s) + qty.i]
              && r.ledger.order == if item.s in d.quantities then d.order else d.order + [item.s]
  {
    if !item.Str? || !qty.Int? then Step(d, Error)
    else if item.s == "" then Step(d, Warning)
    else Step(Store(d, item.s, Qty(d, item.s) + qty.i), Info)
  }

  /** `remove_item(item, qty)`. Ill-typed arguments and an item not in stock
      change nothing; otherwise `qty` is taken off the item, which is deleted
      when what is left is zero or less. The name is not checked for being
      empty. */
  function Removed(d: Dict, item: Arg, qty: Arg): (r: Step)
    ensures !(item.Str? && qty.Int?) ==> r == Step(d, Error)
    ensures item.Str? && qty.Int? && item.s !in d.quantities ==> r == Step(d, Warning)
    ensures item.Str? && qty.Int? && item.s in d.quantities ==>
              && r.status == Info
              && var left := d.quantities[item.s] - qty.i;
                 && r.ledger.quantities == (if left <= 0 then d.quantities - {item.s}
                                            else d.quantities[item.s := left])
                 && r.ledger.order == (if left <= 0 then Without(d.order, item.s) else d.order)
  {
    if !item.Str? || !qty.Int? then Step(d, Error)
    else if item.s !in d.quantities then Step(d, Warning)
    else
      var left := d.quantities[item.s] - qty.i;
      if left <= 0 then Step(Delete(d, item.s), Info)
      else Step(Store(d, item.s, left), Info)
  }

  /** The item names of the members, in order. */
  function Names(members: seq<(string, int)>): (r: seq<string>)
    ensures |r| == |members|
    ensures forall i :: 0 <= i < |members| ==> r[i] == members[i].0
  {
    seq(|members|, i requires 0 <= i < |members| => members[i].0)
  }

  /** The dict `json.load` builds from the members of a JSON object: each
      member is stored in turn, so the last value of a repeated name wins. */
  function FromMembers(members: seq<(string, int)>): (r: Dict)
    ensures r.Valid()
    ensures forall k :: k in r.quantities <==> k in Names(members)
    decreases |members|
  {
    if members == [] then Empty
    else
      var n := |members| - 1;
      var prev := FromMembers(members[..n]);
      StoreKeepsValid(prev, members[n].0, members[n].1);
      assert Names(members) == Names(members[..n]) + [members[n].0];
      Store(prev, members[n].0, members[n].1)
  }

  /** No later member repeats the name of member `i`. */
  ghost predicate IsLastOccurrence(members: seq<(string, int)>, i: int)
    requires 0 <= i < |members|
  {
    forall j :: i < j < |members| ==> members[j].0 != members[i].0
  }

  /** `load_data`'s effect on the ledger: the decoded object on success, an
      empty ledger when the file is missing or not valid JSON, and no change
      when any other error escapes. */
  function Loaded(d: Dict, outcome: LoadOutcome): (r: Step)
    ensures outcome.Parsed? <==> r.status == Info
    ensures outcome.Parsed? ==> r.ledger == FromMembers(outcome.members)
    ensures outcome.NotFound? || outcome.DecodeError? ==> r.ledger == Empty
    ensures outcome.NotFound? <==> r.status == Warning
    ensures outcome.DecodeError? <==> r.status == Error
    ensures outcome.Unreadable? <==> r == Step(d, Raised)
  {
    match outcome
    case Parsed(members) => Step(FromMembers(members), Info)
    case NotFound => Step(Empty, Warning)
    case DecodeError => Step(Empty, Error)
    case Unreadable => Step(d, Raised)
  }

  /** `check_low_items(threshold)` over the items in `keys`: the items whose
      quantity is strictly below the threshold, in iteration order. */
  function LowItems(quantities: map<string, int>, keys: seq<string>, threshold: int): (r: seq<string>)
    requires forall k :: k in keys ==> k in quantities
    ensures forall k :: k in r <==> k in keys && quantities[k] < threshold
    ensures IsSubsequence(r, keys)
    ensures NoDuplicates(keys) ==> NoDuplicates(r)
  {
    if keys == [] then []
    else
      var rest := LowItems(quantities, keys[1..], threshold);
      if quantities[keys[0]] < threshold then [keys[0]] + rest else rest
  }

  lemma StoreKeepsValid(d: Dict, k: string, v: int)
    requires d.Valid()
    ensures Store(d, k, v).Valid()
  {
  }

  lemma DeleteKeepsValid(d: Dict, k: string)
    requires d.Valid()
    ensures Delete(d, k).Valid()
  {
  }

  /** `add_item` keeps the ledger a well-formed dict. */
  lemma AddedKeepsValid(d: Dict, item: Arg, qty: Arg)
    requires d.Valid()
    ensures Added(d, item, qty).ledger.Valid()
  {
    if item.Str? && qty.Int? && item.s != "" {
      StoreKeepsValid(d, item.s, Qty(d, item.s) + qty.i);
    }
  }

  /** `remove_item` keeps the ledger a well-formed dict. */
  lemma RemovedKeepsValid(d: Dict, item: Arg, qty: Arg)
    requires d.Valid()
    ensures Removed(d, item, qty).ledger.Valid()
  {
    if item.Str? && qty.Int? && item.s in d.quantities {
      StoreKeepsValid(d, item.s, d.quantities[item.s] - qty.i);
      DeleteKeepsValid(d, item.s);
    }
  }

  /** `load_data` leaves a well-formed dict, whatever the outcome. */
  lemma LoadedKeepsValid(d: Dict, outcome: LoadOutcome)
    requires d.Valid()
    ensures Loaded(d, outcome).ledger.Valid()
  {
  }

  /** The module-global `stock_data`, changed in place. */
  class Ledger {
    var quantities: map<string, int>
    var order: seq<string>

    function View(): Dict
      reads this
    {
      Dict(quantities, order)
    }

    ghost predicate Valid()
      reads this
    {
      View().Valid()
    }

    /** `stock_data = {}` at start-up. */
    constructor ()
      ensures Valid() && View() == Empty
    {
      quantities := map[];
      order := [];
    }

    method AddItem(item: Arg, qty: Arg) returns (status: Status)
      requires Valid()
      modifies this
      ensures Valid()
      ensures Step(View(), status) == Added(old(View()), item, qty)
    {
      AddedKeepsValid(View(), item, qty);
      if !item.Str? || !qty.Int? {
        return Error;
      }
      var name := item.s;
      if name == "" {
        return Warning;
      }
      var current := if name in quantities then quantities[name] else 0;
      if name !in quantities {
        order := order + [name];
      }
      quantities := quantities[name := current + qty.i];
      status := Info;
    }

    method RemoveItem(item: Arg, qty: Arg) returns (status: Status)
      requires Valid()
      modifies this
      ensures Valid()
      ensures Step(View(), status) == Removed(old(View()), item, qty)
    {
      RemovedKeepsValid(View(), item, qty);
      if !item.Str? || !qty.Int? {
        return Error;
      }
      var name := item.s;
      if name !in quantities {
        return Warning;
      }
      quantities := quantities[name := quantities[name] - qty.i];
      if quantities[name] <= 0 {
        assert quantities - {name} == old(quantities) - {name};
        quantities := quantities - {name};
        order := Without(order, name);
      }
      status := Info;
    }

    method LoadData(outcome: LoadOutcome) returns (status: Status)
      requires Valid()
      modifies this
      ensures Valid()
      ensures Step(View(), status) == Loaded(old(View()), outcome)
    {
      LoadedKeepsValid(View(), outcome);
      match outcome {
        case Parsed(members) =>
          var loaded := FromMembers(members);
          quantities, order := loaded.quantities, loaded.order;
          status := Info;
        case NotFound =>
          quantities, order := map[], [];
          status := Warning;
        case DecodeError =>
          quantities, order := map[], [];
          status := Error;
        case Unreadable =>
          status := Raised;
      }
    }
  }
}
