/** The order being built on the new-order screen (public/script.js): a list of
    selected items, each with the price captured when it was picked and a
    quantity. Ids in the list are distinct and every quantity is at least 1. */
module Cart {
  import opened Common
  import opened Catalog
  import opened Orders

  /** A selected item: the menu item's id, name and price in cents, and how many. */
  datatype Entry = Entry(id: Id, name: string, price: nat, quantity: int)

  function EntryId(e: Entry): Id { e.id }

  function NewEntry(item: MenuItem): Entry { Entry(item.id, item.name, item.price, 1) }

  ghost predicate DistinctIds(s: seq<Entry>)
  {
    forall i, j :: 0 <= i < j < |s| ==> s[i].id != s[j].id
  }

  ghost predicate WellFormed(s: seq<Entry>)
  {
    DistinctIds(s) && forall i :: 0 <= i < |s| ==> s[i].quantity >= 1
  }

  // Reference definitions of the four cart actions, one list element at a time.

  /** Picking an item: one more of it if it is already selected, else a new entry of one. */
  function Added(s: seq<Entry>, item: MenuItem): seq<Entry>
  {
    if s == [] then [NewEntry(item)]
    else if s[0].id == item.id then [s[0].(quantity := s[0].quantity + 1)] + s[1..]
    else [s[0]] + Added(s[1..], item)
  }

  /** The "+" button: one more of the first entry with `id`. */
  function Increased(s: seq<Entry>, id: Id): seq<Entry>
  {
    if s == [] then []
    else if s[0].id == id then [s[0].(quantity := s[0].quantity + 1)] + s[1..]
    else [s[0]] + Increased(s[1..], id)
  }

  /** The "-" button: one fewer of the first entry with `id`, dropping it when only one is left. */
  function Decreased(s: seq<Entry>, id: Id): seq<Entry>
  {
    if s == [] then []
    else if s[0].id == id then
      (if s[0].quantity > 1 then [s[0].(quantity := s[0].quantity - 1)] + s[1..] else s[1..])
    else [s[0]] + Decreased(s[1..], id)
  }

  /** The "Remove" button: every entry with `id` filtered out. */
  function Removed(s: seq<Entry>, id: Id): seq<Entry>
  {
    if s == [] then [] else (if s[0].id == id then [] else [s[0]]) + Removed(s[1..], id)
  }

  /** The order total shown on screen: price times quantity, summed. */
  function Total(s: seq<Entry>): (t: int)
    ensures s == [] ==> t == 0
  {
    if s == [] then 0 else s[0].price * s[0].quantity + Total(s[1..])
  }

  /** What submitting sends: nothing for an empty selection, else `{id, quantity}` per entry, in order. */
  function Payload(s: seq<Entry>): (r: Option<seq<LineRequest>>)
    ensures r.None? <==> s == []
    ensures r.Some? ==> |r.value| == |s|
    ensures r.Some? ==> forall i :: 0 <= i < |s| ==> r.value[i].id == s[i].id && r.value[i].quantity == s[i].quantity
  {
    if s == [] then None else Some(seq(|s|, i requires 0 <= i < |s| => LineRequest(s[i].id, s[i].quantity)))
  }

  // The reference definitions located by the first match, as the page finds entries.

  lemma {:induction false} AddedAt(s: seq<Entry>, item: MenuItem)
    ensures Added(s, item) ==
              match IndexOf(s, EntryId, item.id)
              case Some(k) => s[k := s[k].(quantity := s[k].quantity + 1)]
              case None => s + [NewEntry(item)]
  {
    if s == [] {
    } else if s[0].id == item.id {
      assert Added(s, item) == s[0 := s[0].(quantity := s[0].quantity + 1)];
    } else {
      var t := s[1..];
      AddedAt(t, item);
      assert s == [s[0]] + t;
      assert Added(s, item) == [s[0]] + Added(t, item);
      match IndexOf(t, EntryId, item.id)
      case Some(k) =>
        assert IndexOf(s, EntryId, item.id) == Some(k + 1);
        ConsUpdate(s[0], t, k, t[k].(quantity := t[k].quantity + 1));
      case None =>
        assert IndexOf(s, EntryId, item.id) == None;
        assert [s[0]] + (t + [NewEntry(item)]) == s + [NewEntry(item)];
    }
  }

  lemma {:induction false} IncreasedAt(s: seq<Entry>, id: Id)
    ensures Increased(s, id) ==
              match IndexOf(s, EntryId, id)
              case Some(k) => s[k := s[k].(quantity := s[k].quantity + 1)]
              case None => s
  {
    if s == [] {
    } else if s[0].id == id {
      assert Increased(s, id) == s[0 := s[0].(quantity := s[0].quantity + 1)];
    } else {
      var t := s[1..];
      IncreasedAt(t, id);
      assert s == [s[0]] + t;
      assert Increased(s, id) == [s[0]] + Increased(t, id);
      match IndexOf(t, EntryId, id)
      case Some(k) =>
        assert IndexOf(s, EntryId, id) == Some(k + 1);
        ConsUpdate(s[0], t, k, t[k].(quantity := t[k].quantity + 1));
      case None =>
        assert IndexOf(s, EntryId, id) == None;
    }
  }

  lemma {:induction false} DecreasedAt(s: seq<Entry>, id: Id)
    ensures Decreased(s, id) ==
              match IndexOf(s, EntryId, id)
              case Some(k) =>
                if s[k].quantity > 1 then s[k := s[k].(quantity := s[k].quantity - 1)] else s[..k] + s[k + 1..]
              case None => s
  {
    if s == [] {
    } else if s[0].id == id {
      if s[0].quantity > 1 {
        assert Decreased(s, id) == s[0 := s[0].(quantity := s[0].quantity - 1)];
      } else {
        assert Decreased(s, id) == s[..0] + s[1..];
      }
    } else {
      var t := s[1..];
      DecreasedAt(t, id);
      assert s == [s[0]] + t;
      assert Decreased(s, id) == [s[0]] + Decreased(t, id);
      match IndexOf(t, EntryId, id)
      case Some(k) =>
        assert IndexOf(s, EntryId, id) == Some(k + 1);
        if t[k].quantity > 1 {
          ConsUpdate(s[0], t, k, t[k].(quantity := t[k].quantity - 1));
        } else {
          ConsDelete(s[0], t, k);
        }
      case None =>
        assert IndexOf(s, EntryId, id) == None;
    }
  }

  lemma ConsUpdate(x: Entry, t: seq<Entry>, k: nat, e: Entry)
    requires k < |t|
    ensures [x] + t[k := e] == ([x] + t)[k + 1 := e]
  {
  }

  lemma ConsDelete(x: Entry, t: seq<Entry>, k: nat)
    requires k < |t|
    ensures [x] + (t[..k] + t[k + 1..]) == ([x] + t)[..k + 1] + ([x] + t)[k + 2..]
  {
    assert ([x] + t)[..k + 1] == [x] + t[..k];
    assert ([x] + t)[k + 2..] == t[k + 1..];
  }

  /** With distinct ids, filtering an id out deletes exactly its one entry and
      keeps the others in their order. */
  lemma {:induction false} RemovedAt(s: seq<Entry>, id: Id)
    requires DistinctIds(s)
    ensures Removed(s, id) ==
              match IndexOf(s, EntryId, id)
              case Some(k) => s[..k] + s[k + 1..]
              case None => s
  {
    if s != [] {
      RemovedAt(s[1..], id);
      if s[0].id == id {
        RemovedAbsent(s[1..], id);
      }
    }
  }

  lemma {:induction false} RemovedAbsent(s: seq<Entry>, id: Id)
    requires forall i :: 0 <= i < |s| ==> s[i].id != id
    ensures Removed(s, id) == s
  {
    if s != [] {
      RemovedAbsent(s[1..], id);
    }
  }

  // Each action keeps the list well formed.

  lemma AddedWellFormed(s: seq<Entry>, item: MenuItem)
    requires WellFormed(s)
    ensures WellFormed(Added(s, item))
    ensures |Added(s, item)| == |s| + (if IndexOf(s, EntryId, item.id).Some? then 0 else 1)
  {
    AddedAt(s, item);
  }

  lemma IncreasedWellFormed(s: seq<Entry>, id: Id)
    requires WellFormed(s)
    ensures WellFormed(Increased(s, id))
    ensures |Increased(s, id)| == |s|
  {
    IncreasedAt(s, id);
  }

  lemma DecreasedWellFormed(s: seq<Entry>, id: Id)
    requires WellFormed(s)
    ensures WellFormed(Decreased(s, id))
  {
    DecreasedAt(s, id);
    DeletePreservesWellFormed(s, id);
  }

  lemma RemovedWellFormed(s: seq<Entry>, id: Id)
    requires WellFormed(s)
    ensures WellFormed(Removed(s, id))
    ensures |Removed(s, id)| == |s| - (if IndexOf(s, EntryId, id).Some? then 1 else 0)
  {
    RemovedAt(s, id);
    DeletePreservesWellFormed(s, id);
  }

  lemma DeletePreservesWellFormed(s: seq<Entry>, id: Id)
    requires WellFormed(s)
    ensures IndexOf(s, EntryId, id).Some? ==>
              var k := IndexOf(s, EntryId, id).value; WellFormed(s[..k] + s[k + 1..])
  {
    if IndexOf(s, EntryId, id).Some? {
      var k := IndexOf(s, EntryId, id).value;
      var d := s[..k] + s[k + 1..];
      assert forall i :: 0 <= i < |d| ==> d[i] == s[if i < k then i else i + 1];
    }
  }

  // How each action moves the displayed total.

  lemma {:induction false} TotalUpdate(s: seq<Entry>, k: nat, e: Entry)
    requires k < |s|
    ensures Total(s[k := e]) == Total(s) - s[k].price * s[k].quantity + e.price * e.quantity
  {
    if k > 0 {
      assert s[k := e][1..] == s[1..][k - 1 := e];
      TotalUpdate(s[1..], k - 1, e);
    }
  }

  lemma {:induction false} TotalAppend(s: seq<Entry>, e: Entry)
    ensures Total(s + [e]) == Total(s) + e.price * e.quantity
  {
    if s == [] {
      assert s + [e] == [e];
    } else {
      assert (s + [e])[1..] == s[1..] + [e];
      TotalAppend(s[1..], e);
    }
  }

  lemma {:induction false} TotalDelete(s: seq<Entry>, k: nat)
    requires k < |s|
    ensures Total(s[..k] + s[k + 1..]) == Total(s) - s[k].price * s[k].quantity
  {
    if k == 0 {
      assert s[..0] + s[1..] == s[1..];
    } else {
      assert (s[..k] + s[k + 1..])[1..] == s[1..][..k - 1] + s[1..][k..];
      TotalDelete(s[1..], k - 1);
    }
  }

  /** Picking an item adds one unit at the price the list already holds for it,
      or at the menu price for a new entry. */
  lemma AddedTotal(s: seq<Entry>, item: MenuItem)
    ensures Total(Added(s, item)) == Total(s) +
              match IndexOf(s, EntryId, item.id)
              case Some(k) => s[k].price
              case None => item.price
  {
    AddedAt(s, item);
    match IndexOf(s, EntryId, item.id)
    case Some(k) =>
      TotalUpdate(s, k, s[k].(quantity := s[k].quantity + 1));
      assert s[k].price * (s[k].quantity + 1) == s[k].price * s[k].quantity + s[k].price;
    case None =>
      TotalAppend(s, NewEntry(item));
  }

  /** "+" adds one unit's price, or nothing when the id is not selected. */
  lemma IncreasedTotal(s: seq<Entry>, id: Id)
    ensures Total(Increased(s, id)) == Total(s) +
              match IndexOf(s, EntryId, id)
              case Some(k) => s[k].price
              case None => 0
  {
    IncreasedAt(s, id);
    match IndexOf(s, EntryId, id)
    case Some(k) =>
      TotalUpdate(s, k, s[k].(quantity := s[k].quantity + 1));
      assert s[k].price * (s[k].quantity + 1) == s[k].price * s[k].quantity + s[k].price;
    case None =>
  }

  /** "-" takes off one unit's price, whether it decrements or drops the last unit. */
  lemma DecreasedTotal(s: seq<Entry>, id: Id)
    requires WellFormed(s)
    ensures Total(Decreased(s, id)) == Total(s) -
              match IndexOf(s, EntryId, id)
              case Some(k) => s[k].price
              case None => 0
  {
    DecreasedAt(s, id);
    match IndexOf(s, EntryId, id)
    case Some(k) =>
      if s[k].quantity > 1 {
        TotalUpdate(s, k, s[k].(quantity := s[k].quantity - 1));
        assert s[k].price * (s[k].quantity - 1) == s[k].price * s[k].quantity - s[k].price;
      } else {
        TotalDelete(s, k);
      }
    case None =>
  }

  /** "Remove" takes off the entry's price times its quantity. */
  lemma RemovedTotal(s: seq<Entry>, id: Id)
    requires DistinctIds(s)
    ensures Total(Removed(s, id)) == Total(s) -
              match IndexOf(s, EntryId, id)
              case Some(k) => s[k].price * s[k].quantity
              case None => 0
  {
    RemovedAt(s, id);
    match IndexOf(s, EntryId, id)
    case Some(k) =>
      TotalDelete(s, k);
    case None =>
  }

  /** A well-formed selection never shows a negative total. */
  lemma {:induction false} TotalNonNegative(s: seq<Entry>)
    requires WellFormed(s)
    ensures Total(s) >= 0
  {
    if s != [] {
      assert WellFormed(s[1..]);
      TotalNonNegative(s[1..]);
    }
  }

  /** When the menu still has the prices the selection captured, the total the
      server computes for the submitted payload is the total the page showed. */
  /** The server's sum of subtotals over lines priced from the page's lines equals
      the page's total, as long as the menu prices are the captured ones. */
  lemma {:induction false} ServerTotalMatchesLines(menu: Menu, s: seq<Entry>, items: seq<OrderLine>)
    requires |items| == |s|
    requires forall i :: 0 <= i < |s| ==> PricedFrom(menu, LineRequest(s[i].id, s[i].quantity), items[i])
    requires forall i :: 0 <= i < |s| ==> Resolve(menu, s[i].id).Some? && Resolve(menu, s[i].id).value.price == s[i].price
    ensures SubtotalSum(items) == Total(s)
  {
    if s != [] {
      assert PricedFrom(menu, LineRequest(s[0].id, s[0].quantity), items[0]);
      ServerTotalMatchesLines(menu, s[1..], items[1..]);
    }
  }

  /** Submitting the selection: when the server prices the payload line by line
      against a menu whose prices are the ones the page captured, the order
      total it records is the total the page showed. */
  lemma ServerTotalMatchesCart(menu: Menu, s: seq<Entry>, items: seq<OrderLine>)
    requires s != [] && |items| == |s|
    requires forall i :: 0 <= i < |s| ==> PricedFrom(menu, Payload(s).value[i], items[i])
    requires forall i :: 0 <= i < |s| ==> Resolve(menu, s[i].id).Some? && Resolve(menu, s[i].id).value.price == s[i].price
    ensures SubtotalSum(items) == Total(s)
  {
    forall i | 0 <= i < |s| ensures PricedFrom(menu, LineRequest(s[i].id, s[i].quantity), items[i]) {
      assert Payload(s).value[i] == LineRequest(s[i].id, s[i].quantity);
    }
    ServerTotalMatchesLines(menu, s, items);
  }

  class Selection {
    var selectedItems: seq<Entry>

    ghost predicate Valid()
      reads this
    {
      WellFormed(selectedItems)
    }

    constructor ()
      ensures Valid() && selectedItems == []
    {
      selectedItems := [];
    }

    /** addItemToOrder: one more of an item already selected, else a new entry of one. */
    method AddItem(item: MenuItem)
      requires Valid()
      modifies this
      ensures Valid()
      ensures selectedItems == Added(old(selectedItems), item)
    {
      AddedAt(selectedItems, item);
      AddedWellFormed(selectedItems, item);
      var k := IndexOf(selectedItems, EntryId, item.id);
      if k.Some? {
        var e := selectedItems[k.value];
        selectedItems := selectedItems[k.value := e.(quantity := e.quantity + 1)];
      } else {
        selectedItems := selectedItems + [NewEntry(item)];
      }
    }

    /** increaseQuantity: one more of the entry with `itemId`; nothing when there is none. */
    method IncreaseQuantity(itemId: Id)
      requires Valid()
      modifies this
      ensures Valid()
      ensures selectedItems == Increased(old(selectedItems), itemId)
    {
      IncreasedAt(selectedItems, itemId);
      IncreasedWellFormed(selectedItems, itemId);
      var k := IndexOf(selectedItems, EntryId, itemId);
      if k.Some? {
        var e := selectedItems[k.value];
        selectedItems := selectedItems[k.value := e.(quantity := e.quantity + 1)];
      }
    }

    /** decreaseQuantity: one fewer of the entry with `itemId`, removing it when one is left. */
    method DecreaseQuantity(itemId: Id)
      requires Valid()
      modifies this
      ensures Valid()
      ensures selectedItems == Decreased(old(selectedItems), itemId)
    {
      DecreasedAt(selectedItems, itemId);
      RemovedAt(selectedItems, itemId);
      DecreasedWellFormed(selectedItems, itemId);
      var k := IndexOf(selectedItems, EntryId, itemId);
      if k.Some? {
        var e := selectedItems[k.value];
        if e.quantity > 1 {
          selectedItems := selectedItems[k.value := e.(quantity := e.quantity - 1)];
        } else {
          RemoveItem(itemId);
        }
      }
    }

    /** removeItem: the selection with every entry for `itemId` filtered out. */
    method RemoveItem(itemId: Id)
      requires Valid()
      modifies this
      ensures Valid()
      ensures selectedItems == Removed(old(selectedItems), itemId)
    {
      RemovedWellFormed(selectedItems, itemId);
      selectedItems := Removed(selectedItems, itemId);
    }

    /** After the server accepts the order, the selection is cleared. */
    method Clear()
      modifies this
      ensures Valid() && selectedItems == []
    {
      selectedItems := [];
    }
  }
}
