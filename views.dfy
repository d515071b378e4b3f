/** What the page derives from the server's data before showing it
    (public/script.js): the items that can be ordered, the flag an
    availability toggle asks for, and lists shown newest first. */
module Views {
  import opened Common
  import opened Catalog

  /** The available items of `s`, in their order. */
  function FilterAvailable(s: seq<MenuItem>): (r: seq<MenuItem>)
    ensures |r| <= |s|
    ensures forall x :: x in r <==> x in s && x.available
  {
    if s == [] then [] else (if s[0].available then [s[0]] else []) + FilterAvailable(s[1..])
  }

  /** The filter keeps every available item as many times as the input has it
      and drops every unavailable one. */
  lemma {:induction false} FilterAvailableCounts(s: seq<MenuItem>)
    ensures forall x :: multiset(FilterAvailable(s))[x] == if x.available then multiset(s)[x] else 0
  {
    if s != [] {
      FilterAvailableCounts(s[1..]);
      assert s == [s[0]] + s[1..];
    }
  }

  lemma {:induction false} FilterAvailableAppend(a: seq<MenuItem>, b: seq<MenuItem>)
    ensures FilterAvailable(a + b) == FilterAvailable(a) + FilterAvailable(b)
  {
    if a != [] {
      assert (a + b)[1..] == a[1..] + b;
      FilterAvailableAppend(a[1..], b);
    } else {
      assert a + b == b;
    }
  }

  /** The items offered on the new-order screen: exactly the available ones,
      the coffee group's before the snacks group's, each group in menu order. */
  function AvailableItems(menu: Menu): (r: seq<MenuItem>)
    ensures forall x :: x in r <==> x in AllItems(menu) && x.available
    ensures r == FilterAvailable(menu.coffee) + FilterAvailable(menu.snacks)
  {
    FilterAvailableAppend(menu.coffee, menu.snacks);
    FilterAvailable(AllItems(menu))
  }

  /** The flag a click on an item's toggle asks for: the opposite of the flag
      in the page's copy of the menu; `None` (no request) for an unknown id. */
  function ToggleTarget(menu: Menu, id: Id): (r: Option<bool>)
    ensures r.None? <==> Resolve(menu, id).None?
    ensures r.Some? ==> r.value != Resolve(menu, id).value.available
  {
    match Resolve(menu, id)
    case None => None
    case Some(item) => Some(!item.available)
  }

  /** A toggle sent against an up-to-date menu flips the item, and a second
      toggle restores the menu it started from. */
  lemma ToggleTwiceRestores(menu: Menu, id: Id)
    requires ToggleTarget(menu, id).Some?
    ensures WithAvailability(menu, id, ToggleTarget(menu, id).value).Some?
    ensures var flipped := WithAvailability(menu, id, ToggleTarget(menu, id).value).value;
            && Resolve(flipped, id).Some?
            && Resolve(flipped, id).value.available != Resolve(menu, id).value.available
            && ToggleTarget(flipped, id).Some?
            && WithAvailability(flipped, id, ToggleTarget(flipped, id).value) == Some(menu)
  {
    var f := ToggleTarget(menu, id).value;
    var flipped := WithAvailability(menu, id, f).value;
    AvailabilityReadBack(menu, id, f);
    var k := IndexOf(AllItems(menu), ItemId, id).value;
    IndexOfSameKeys(AllItems(menu), AllItems(flipped), ItemId, id);
    var back := WithAvailability(flipped, id, !f).value;
    assert AllItems(back) == AllItems(menu);
    assert back.coffee == AllItems(back)[..|menu.coffee|];
    assert menu.coffee == AllItems(menu)[..|menu.coffee|];
    assert back.snacks == AllItems(back)[|menu.coffee|..];
    assert menu.snacks == AllItems(menu)[|menu.coffee|..];
  }

  /** Newest first: creation instants never increase along the list. */
  ghost predicate NewestFirst<T>(s: seq<T>, createdAt: T -> nat)
  {
    forall i, j :: 0 <= i < j < |s| ==> createdAt(s[i]) >= createdAt(s[j])
  }

  /** `x` placed before the first element that is not newer than it. */
  function Insert<T>(x: T, s: seq<T>, createdAt: T -> nat): (r: seq<T>)
    requires NewestFirst(s, createdAt)
    ensures NewestFirst(r, createdAt)
    ensures multiset(r) == multiset(s) + multiset{x}
  {
    if s == [] || createdAt(s[0]) <= createdAt(x) then [x] + s
    else
      var rest := Insert(x, s[1..], createdAt);
      assert s == [s[0]] + s[1..];
      assert forall j :: 0 <= j < |s[1..]| ==> createdAt(s[1..][j]) <= createdAt(s[0]) by {
        forall j | 0 <= j < |s[1..]| ensures createdAt(s[1..][j]) <= createdAt(s[0]) {
          assert s[1..][j] == s[j + 1];
        }
      }
      BoundedByMultiset(rest, s[1..], x, createdAt, createdAt(s[0]));
      [s[0]] + rest
  }

  /** A rearrangement of `s` plus `x` keeps every bound that `s` and `x` keep. */
  lemma BoundedByMultiset<T>(r: seq<T>, s: seq<T>, x: T, createdAt: T -> nat, bound: nat)
    requires multiset(r) == multiset(s) + multiset{x}
    requires createdAt(x) <= bound
    requires forall j :: 0 <= j < |s| ==> createdAt(s[j]) <= bound
    ensures forall i :: 0 <= i < |r| ==> createdAt(r[i]) <= bound
  {
    forall i | 0 <= i < |r| ensures createdAt(r[i]) <= bound {
      assert r[i] in multiset(r);
      if r[i] != x {
        assert r[i] in multiset(s);
        var j :| 0 <= j < |s| && s[j] == r[i];
      }
    }
  }

  /** The order in which orders (and invoices) are listed: the same records,
      newest first. */
  function SortNewestFirst<T>(s: seq<T>, createdAt: T -> nat): (r: seq<T>)
    ensures NewestFirst(r, createdAt)
    ensures multiset(r) == multiset(s)
  {
    if s == [] then []
    else
      assert s == [s[0]] + s[1..];
      Insert(s[0], SortNewestFirst(s[1..], createdAt), createdAt)
  }
}
