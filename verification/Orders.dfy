/** Orders as the off-chain builder holds them, with integer atomic price and quantity. */
module Orders {
  import opened Sequences

  datatype Side = Buy | Sell

  /** One incarnation of an order: a carried sealed remainder keeps its account and oid
      but gets a fresh commitment, so it is a different key from the copy that traded. */
  datatype Key = Key(account: nat, oid: nat, commit: Option<nat>)

  datatype Order = Order(
    account: nat,
    oid: nat,
    commit: Option<nat>,   // the commitment of a sealed order; None for a public one
    side: Side,
    price: nat,
    qty: nat,
    sealed: bool,
    market: bool,          // a market order: priced by the builder at the band edge
    seqno: nat,            // the account's signed order sequence number
    expiry: Option<int>)   // good-till-time, None for no expiry

  function KeyOf(o: Order): Key {
    Key(o.account, o.oid, o.commit)
  }

  function IsSealed(): Order -> bool { (o: Order) => o.sealed }
  function IsPublic(): Order -> bool { (o: Order) => !o.sealed }
  function InSet(s: set<Order>): Order -> bool { (o: Order) => o in s }
  function NotIn(s: set<Order>): Order -> bool { (o: Order) => o !in s }

  /** Do a buy and a sell accept a common price? */
  predicate Matches(a: Order, b: Order) {
    || (a.side.Buy? && b.side.Sell? && a.price >= b.price)
    || (a.side.Sell? && b.side.Buy? && a.price <= b.price)
  }

  ghost predicate UniqueOids(os: seq<Order>) {
    forall i, j | 0 <= i < j < |os| :: os[i].oid != os[j].oid
  }

  function HasOid(oid: nat): Order -> bool { (o: Order) => o.oid == oid }

  /** `o` is the only order of the batch carrying its oid. */
  ghost predicate SoleOid(os: seq<Order>, o: Order) {
    Filter(os, HasOid(o.oid)) == [o]
  }

  lemma {:induction false} UniqueIsSole(os: seq<Order>, o: Order)
    requires UniqueOids(os) && o in os
    ensures SoleOid(os, o)
  {
    if os[0] == o {
      FilterNone(os[1..], HasOid(o.oid));
    } else {
      assert o in os[1..];
      UniqueIsSole(os[1..], o);
      var j :| 0 <= j < |os[1..]| && os[1..][j] == o;
      assert os[j + 1] == o;
      assert os[0].oid != o.oid;
    }
  }

  ghost predicate Positive(os: seq<Order>) {
    forall o | o in os :: o.qty > 0
  }
}
