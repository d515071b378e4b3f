/** The menu held by the server (server.js): two groups of items, coffee and
    snacks, each item with an availability flag that staff toggle. */
module Catalog {
  import opened Common

  datatype Category = Coffee | Snack

  /** A menu item; `price` is in cents. */
  datatype MenuItem = MenuItem(id: Id, name: string, price: nat, category: Category, available: bool)

  datatype Menu = Menu(coffee: seq<MenuItem>, snacks: seq<MenuItem>)

  function ItemId(m: MenuItem): Id { m.id }

  /** Every item of the menu, coffee first, then snacks. */
  function AllItems(menu: Menu): seq<MenuItem> { menu.coffee + menu.snacks }

  /** The item an id names: the first match in the coffee group, else in the snacks group. */
  function Resolve(menu: Menu, id: Id): (r: Option<MenuItem>)
    ensures r.Some? ==> r.value in AllItems(menu) && r.value.id == id
    ensures r.Some? ==>
      exists k :: 0 <= k < |AllItems(menu)| && AllItems(menu)[k] == r.value
        && forall j :: 0 <= j < k ==> AllItems(menu)[j].id != id
    ensures r.None? <==> forall x :: x in AllItems(menu) ==> x.id != id
  {
    match IndexOf(AllItems(menu), ItemId, id)
    case Some(k) => Some(AllItems(menu)[k])
    case None => None
  }

  /** The menu after the availability update: the coffee group is searched
      first, then the snacks group, and the first item found gets the new
      flag; `None` (the not-found error) when neither group has the id. */
  function WithAvailability(menu: Menu, id: Id, available: bool): (r: Option<Menu>)
    ensures r.None? <==> Resolve(menu, id).None?
    ensures r.Some? ==> |r.value.coffee| == |menu.coffee| && |r.value.snacks| == |menu.snacks|
    ensures r.Some? ==>
      var k := IndexOf(AllItems(menu), ItemId, id).value;
      AllItems(r.value) == AllItems(menu)[k := AllItems(menu)[k].(available := available)]
  {
    IndexOfConcat(menu.coffee, menu.snacks, ItemId, id);
    match IndexOf(menu.coffee, ItemId, id)
    case Some(k) =>
      var m := menu.(coffee := menu.coffee[k := menu.coffee[k].(available := available)]);
      assert AllItems(m) == AllItems(menu)[k := AllItems(menu)[k].(available := available)];
      Some(m)
    case None =>
      match IndexOf(menu.snacks, ItemId, id)
      case Some(k) =>
        var m := menu.(snacks := menu.snacks[k := menu.snacks[k].(available := available)]);
        assert AllItems(m) == AllItems(menu)[|menu.coffee| + k := AllItems(menu)[|menu.coffee| + k].(available := available)];
        Some(m)
      case None => None
  }

  /** Read after write: once the flag is set, the id resolves to the same item
      carrying the new flag, so the next order against it sees the change. */
  lemma AvailabilityReadBack(menu: Menu, id: Id, available: bool)
    requires WithAvailability(menu, id, available).Some?
    ensures Resolve(WithAvailability(menu, id, available).value, id)
            == Some(Resolve(menu, id).value.(available := available))
  {
    var m := WithAvailability(menu, id, available).value;
    var k := IndexOf(AllItems(menu), ItemId, id).value;
    IndexOfSameKeys(AllItems(menu), AllItems(m), ItemId, id);
  }

  /** Setting the same flag twice leaves the menu as the first call left it. */
  lemma AvailabilityIdempotent(menu: Menu, id: Id, available: bool)
    requires WithAvailability(menu, id, available).Some?
    ensures WithAvailability(WithAvailability(menu, id, available).value, id, available)
            == WithAvailability(menu, id, available)
  {
    var m := WithAvailability(menu, id, available).value;
    var k := IndexOf(AllItems(menu), ItemId, id).value;
    IndexOfSameKeys(AllItems(menu), AllItems(m), ItemId, id);
    var m2 := WithAvailability(m, id, available).value;
    assert AllItems(m2) == AllItems(m);
    assert m2.coffee == AllItems(m2)[..|m.coffee|];
    assert m.coffee == AllItems(m)[..|m.coffee|];
    assert m2.snacks == AllItems(m2)[|m.coffee|..];
    assert m.snacks == AllItems(m)[|m.coffee|..];
  }
}
