/** The store ledger (App.tsx:214-223): a purchase goes through only when the
    balance covers the price; it then debits the price and records the item. */
module Store {
  import opened Types

  /** The store's guard: the balance covers the price. */
  predicate CanAfford(s: UserStats, item: StoreItem) {
    s.coins >= item.price
  }

  /** Stats after buying `item`, or None when the balance is too low (the
      source then does nothing). */
  function Purchase(s: UserStats, item: StoreItem): (r: Option<UserStats>)
    ensures r.Some? <==> CanAfford(s, item)
    ensures r.Some? ==>
      r.value.coins + item.price == s.coins
      && r.value.inventory == s.inventory + [item.id]
      && multiset(r.value.inventory) == multiset(s.inventory) + multiset{item.id}
      && r.value.(coins := s.coins, inventory := s.inventory) == s
  {
    if CanAfford(s, item) then
      Some(s.(coins := s.coins - item.price, inventory := s.inventory + [item.id]))
    else
      None
  }

  /** Stats after trying to buy `items` in order, skipping refused ones. */
  function BuyAll(s: UserStats, items: seq<StoreItem>): UserStats
    decreases |items|
  {
    if items == [] then s
    else match Purchase(s, items[0])
      case Some(s') => BuyAll(s', items[1..])
      case None => BuyAll(s, items[1..])
  }

  /** The attempts among `items` that go through, in order. */
  function Accepted(s: UserStats, items: seq<StoreItem>): seq<StoreItem>
    decreases |items|
  {
    if items == [] then []
    else match Purchase(s, items[0])
      case Some(s') => [items[0]] + Accepted(s', items[1..])
      case None => Accepted(s, items[1..])
  }

  function TotalPrice(items: seq<StoreItem>): nat {
    if items == [] then 0 else items[0].price + TotalPrice(items[1..])
  }

  function Ids(items: seq<StoreItem>): (ids: seq<string>)
    ensures |ids| == |items| && forall i :: 0 <= i < |items| ==> ids[i] == items[i].id
  {
    if items == [] then [] else [items[0].id] + Ids(items[1..])
  }

  /** Over any run of purchase attempts the books balance: the final balance
      plus what the accepted items cost is the starting balance, and nothing
      but coins and inventory changes. */
  lemma {:induction false} PurchaseLedger(s: UserStats, items: seq<StoreItem>)
    ensures BuyAll(s, items).coins + TotalPrice(Accepted(s, items)) == s.coins
    ensures BuyAll(s, items).(coins := s.coins, inventory := s.inventory) == s
    decreases |items|
  {
    if items != [] {
      var rest := items[1..];
      match Purchase(s, items[0])
      case Some(s') =>
        PurchaseLedger(s', rest);
        var acc := Accepted(s', rest);
        assert Accepted(s, items) == [items[0]] + acc;
        assert ([items[0]] + acc)[1..] == acc;
        assert TotalPrice(Accepted(s, items)) == items[0].price + TotalPrice(acc);
      case None =>
        PurchaseLedger(s, rest);
    }
  }

  /** Over any run of purchase attempts the inventory grows by exactly the
      accepted items' ids, in the order they were bought. */
  lemma {:induction false} InventoryLedger(s: UserStats, items: seq<StoreItem>)
    ensures BuyAll(s, items).inventory == s.inventory + Ids(Accepted(s, items))
    decreases |items|
  {
    if items != [] {
      var rest := items[1..];
      match Purchase(s, items[0])
      case Some(s') =>
        InventoryLedger(s', rest);
        var acc := Accepted(s', rest);
        assert Accepted(s, items) == [items[0]] + acc;
        assert ([items[0]] + acc)[1..] == acc;
        assert Ids([items[0]] + acc) == [items[0].id] + Ids(acc);
        assert s'.inventory == s.inventory + [items[0].id];
      case None =>
        InventoryLedger(s, rest);
    }
  }
}
