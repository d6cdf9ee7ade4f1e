/** Properties of the stock ledger that relate several operations, and the
    call sequence of the inventory system's `main`, stated on the functions
    that specify the `Ledger` methods. */
module StockLedgerProperties {
  import opened StockLedger

  /** Removing `k` from keys that end in `k` and hold it nowhere else gives
      back the keys before it. */
  lemma {:induction false} WithoutAppended(keys: seq<string>, k: string)
    requires k !in keys
    ensures Without(keys + [k], k) == keys
  {
    if keys != [] {
      assert (keys + [k])[1..] == keys[1..] + [k];
      WithoutAppended(keys[1..], k);
    }
  }

  /** Two adds to an item not in stock leave exactly their sum, whatever its
      sign, and no other item changes. */
  lemma TwoAddsFromAbsent(d: Dict, item: string, q1: int, q2: int)
    requires item != "" && item !in d.quantities
    ensures var after := Added(Added(d, Str(item), Int(q1)).ledger, Str(item), Int(q2)).ledger;
            && item in after.quantities
            && Qty(after, item) == q1 + q2
            && forall k :: k != item ==> Qty(after, k) == Qty(d, k)
  {
  }

  /** Removing at least the quantity in stock deletes the item: `get_qty`
      gives 0 afterwards and the item is gone from the iteration order. */
  lemma RemoveAllThenQtyIsZero(d: Dict, item: string, qty: int)
    requires d.Valid() && item in d.quantities && qty >= d.quantities[item]
    ensures var after := Removed(d, Str(item), Int(qty)).ledger;
            Qty(after, item) == 0 && item !in after.order
  {
  }

  /** A remove of a stocked item either deletes it or leaves it strictly
      positive in its old place in the iteration order. */
  lemma RemoveLeavesPositiveOrNothing(d: Dict, item: string, qty: int)
    requires item in d.quantities
    ensures var r := Removed(d, Str(item), Int(qty)).ledger;
            item in r.quantities ==> r.quantities[item] > 0 && r.order == d.order
  {
    if d.quantities[item] - qty > 0 {
      assert Removed(d, Str(item), Int(qty)).ledger == Store(d, item, d.quantities[item] - qty);
    }
  }

  /** `remove_item` undoes an `add_item` of the same quantity to an item not
      in stock, iteration order included: the new entry is deleted again,
      whatever the sign of the quantity. */
  lemma RemoveUndoesAddOfNewItem(d: Dict, item: string, qty: int)
    requires d.Valid() && item != "" && item !in d.quantities
    ensures Removed(Added(d, Str(item), Int(qty)).ledger, Str(item), Int(qty)) == Step(d, Info)
  {
    var added := Store(d, item, qty);
    assert Added(d, Str(item), Int(qty)) == Step(added, Info);
    assert Removed(added, Str(item), Int(qty)) == Step(Delete(added, item), Info);
    DeleteUndoesStoreOfNew(d, item, qty);
  }

  /** Deleting a key just stored for the first time gives back the dict. */
  lemma DeleteUndoesStoreOfNew(d: Dict, item: string, qty: int)
    requires item !in d.quantities && item !in d.order
    ensures Delete(Store(d, item, qty), item) == d
  {
    WithoutAppended(d.order, item);
    assert d.quantities[item := qty] - {item} == d.quantities;
  }

  /** `remove_item` undoes an `add_item` of the same quantity to an item held
      at a positive quantity, iteration order included. */
  lemma RemoveUndoesAddOfStockedItem(d: Dict, item: string, qty: int)
    requires d.Valid() && item != "" && item in d.quantities && d.quantities[item] > 0
    ensures Removed(Added(d, Str(item), Int(qty)).ledger, Str(item), Int(qty)) == Step(d, Info)
  {
    var v := d.quantities[item];
    var added := Store(d, item, v + qty);
    assert Added(d, Str(item), Int(qty)) == Step(added, Info);
    assert Removed(added, Str(item), Int(qty)) == Step(Store(added, item, v), Info);
    assert Store(added, item, v).order == d.order;
    assert Store(added, item, v).quantities == d.quantities;
  }

  /** The round trip does not restore an item held at zero or below:
      `remove_item` deletes it. */
  lemma AddThenRemoveDropsNonPositive(d: Dict, item: string, qty: int)
    requires d.Valid() && item != "" && item in d.quantities && d.quantities[item] <= 0
    ensures item !in Removed(Added(d, Str(item), Int(qty)).ledger, Str(item), Int(qty)).ledger.quantities
  {
  }

  /** `add_item` with `-qty` and `remove_item` with `qty` agree on a stocked
      item while the total stays positive; at zero or below `add_item` keeps
      the entry and `remove_item` deletes it. */
  lemma AddNegativeVersusRemove(d: Dict, item: string, qty: int)
    requires d.Valid() && item != "" && item in d.quantities
    ensures var added := Added(d, Str(item), Int(-qty));
            var removed := Removed(d, Str(item), Int(qty));
            if d.quantities[item] - qty > 0 then added == removed
            else && item in added.ledger.quantities
                 && added.ledger.quantities[item] == d.quantities[item] - qty
                 && item !in removed.ledger.quantities
  {
  }

  /** In the dict built from a JSON object's members, a name holds the value
      of its last member. */
  lemma {:induction false} FromMembersLastWins(members: seq<(string, int)>, i: int)
    requires 0 <= i < |members| && IsLastOccurrence(members, i)
    ensures members[i].0 in FromMembers(members).quantities
    ensures FromMembers(members).quantities[members[i].0] == members[i].1
  {
    var n := |members| - 1;
    FromMembersStep(members);
    if i < n {
      LastOccurrenceInPrefix(members, i);
      FromMembersLastWins(members[..n], i);
    }
  }

  /** The dict built from the members is the one built from all but the last
      member, with the last member stored. */
  lemma FromMembersStep(members: seq<(string, int)>)
    requires members != []
    ensures FromMembers(members).quantities
            == FromMembers(members[..|members| - 1]).quantities[members[|members| - 1].0 := members[|members| - 1].1]
  {
  }

  /** A last occurrence before the final member is a last occurrence in the
      members without the final one, and differs from the final name. */
  lemma LastOccurrenceInPrefix(members: seq<(string, int)>, i: int)
    requires 0 <= i < |members| - 1 && IsLastOccurrence(members, i)
    ensures members[..|members| - 1][i] == members[i]
    ensures members[i].0 != members[|members| - 1].0
    ensures IsLastOccurrence(members[..|members| - 1], i)
  {
    var prefix := members[..|members| - 1];
    forall j | i < j < |prefix| ensures prefix[j].0 != prefix[i].0 {
      assert prefix[j] == members[j];
    }
  }

  /** With distinct names, the dict built from a JSON object's members
      iterates its names in file order. */
  lemma {:induction false} FromMembersOrder(members: seq<(string, int)>)
    requires NoDuplicates(Names(members))
    ensures FromMembers(members).order == Names(members)
  {
    if members != [] {
      var n := |members| - 1;
      var prefix := members[..n];
      var name := members[n].0;
      assert Names(members) == Names(prefix) + [name];
      assert NoDuplicates(Names(prefix));
      FromMembersOrder(prefix);
      assert name !in Names(prefix);
      assert name !in FromMembers(prefix).quantities;
    }
  }

  /** A successful load of an object with distinct names installs exactly
      that object: its name-to-quantity mapping, in file order. */
  lemma LoadInstallsParsedObject(d: Dict, members: seq<(string, int)>)
    requires NoDuplicates(Names(members))
    ensures Loaded(d, Parsed(members)).status == Info
    ensures Loaded(d, Parsed(members)).ledger.order == Names(members)
    ensures forall k :: k in Loaded(d, Parsed(members)).ledger.quantities <==> k in Names(members)
    ensures forall i :: 0 <= i < |members| ==>
              Loaded(d, Parsed(members)).ledger.quantities[members[i].0] == members[i].1
  {
    FromMembersOrder(members);
    forall i | 0 <= i < |members|
      ensures Loaded(d, Parsed(members)).ledger.quantities[members[i].0] == members[i].1
    {
      assert IsLastOccurrence(members, i) by {
        forall j | i < j < |members| ensures members[j].0 != members[i].0 {
          assert Names(members)[i] == members[i].0 && Names(members)[j] == members[j].0;
        }
      }
      FromMembersLastWins(members, i);
    }
  }

  /** `check_low_items(5)` on `{"apple": 7, "banana": 13, "pear": -2}` is
      `["pear"]`, and an item exactly at the threshold is not low. */
  lemma LowItemsExample()
    ensures LowItems(map["apple" := 7, "banana" := 13, "pear" := -2], ["apple", "banana", "pear"], 5) == ["pear"]
    ensures LowItems(map["apple" := 5], ["apple"], 5) == []
  {
  }

  /** The start of `main` on a ledger whose file is missing: loading gives
      an empty ledger with a warning, then apple and banana are added in
      that order. */
  lemma MainScenarioLoadAndAdd()
    ensures Loaded(Empty, NotFound) == Step(Empty, Warning)
    ensures Added(Empty, Str("apple"), Int(10))
            == Step(Dict(map["apple" := 10], ["apple"]), Info)
    ensures Added(Dict(map["apple" := 10], ["apple"]), Str("banana"), Int(15))
            == Step(Dict(map["apple" := 10, "banana" := 15], ["apple", "banana"]), Info)
  {
    var d1 := Dict(map["apple" := 10], ["apple"]);
    assert Store(Empty, "apple", 10) == d1;
    assert "banana" !in d1.quantities;
    assert Store(d1, "banana", 15) == Dict(map["apple" := 10, "banana" := 15], ["apple", "banana"]);
  }

  /** The next calls of `main`: the ill-typed `add_item(123, "ten")` changes
      nothing and reports an error, and adding -2 takes banana from 15 to 13
      in its place. */
  lemma MainScenarioIllTypedAndNegative()
    ensures Added(Dict(map["apple" := 10, "banana" := 15], ["apple", "banana"]), Int(123), Str("ten"))
            == Step(Dict(map["apple" := 10, "banana" := 15], ["apple", "banana"]), Error)
    ensures Added(Dict(map["apple" := 10, "banana" := 15], ["apple", "banana"]), Str("banana"), Int(-2))
            == Step(Dict(map["apple" := 10, "banana" := 13], ["apple", "banana"]), Info)
  {
    var d2 := Dict(map["apple" := 10, "banana" := 15], ["apple", "banana"]);
    assert Qty(d2, "banana") == 15;
    assert Store(d2, "banana", 13) == Dict(map["apple" := 10, "banana" := 13], ["apple", "banana"]);
  }

  /** The remaining calls of `main`: removing 3 apples leaves 7, removing
      "orange", which is not in stock, changes nothing and reports a warning,
      `get_qty("apple")` is 7 and no item is below the default threshold 5. */
  lemma MainScenarioRemoves()
    ensures Removed(Dict(map["apple" := 10, "banana" := 13], ["apple", "banana"]), Str("apple"), Int(3))
            == Step(Dict(map["apple" := 7, "banana" := 13], ["apple", "banana"]), Info)
    ensures Removed(Dict(map["apple" := 7, "banana" := 13], ["apple", "banana"]), Str("orange"), Int(1))
            == Step(Dict(map["apple" := 7, "banana" := 13], ["apple", "banana"]), Warning)
    ensures Qty(Dict(map["apple" := 7, "banana" := 13], ["apple", "banana"]), "apple") == 7
    ensures LowItems(map["apple" := 7, "banana" := 13], ["apple", "banana"], 5) == []
  {
    var d4 := Dict(map["apple" := 10, "banana" := 13], ["apple", "banana"]);
    assert Store(d4, "apple", 7) == Dict(map["apple" := 7, "banana" := 13], ["apple", "banana"]);
    assert ["apple", "banana"][1..] == ["banana"];
  }
}
