/** Values shared by the server store and the browser cart: identifiers,
    an optional value, and the first-match search that every handler uses
    (JavaScript's `Array.prototype.find` over records keyed by `id`). */
module Common {

  /** Record identifiers are strings throughout (menu ids such as "1", uuids). */
  type Id = string

  datatype Option<T> = None | Some(value: T)

  /** Index of the first element of `s` whose key is `id`; `None` when there is none. */
  function IndexOf<T>(s: seq<T>, key: T -> Id, id: Id): (r: Option<nat>)
    ensures r.Some? ==> r.value < |s| && key(s[r.value]) == id
    ensures r.Some? ==> forall j :: 0 <= j < r.value ==> key(s[j]) != id
    ensures r.None? <==> forall j :: 0 <= j < |s| ==> key(s[j]) != id
  {
    if |s| == 0 then None
    else if key(s[0]) == id then Some(0)
    else match IndexOf(s[1..], key, id)
      case None => None
      case Some(k) => Some(k + 1)
  }

  /** The first match is determined by the keys alone: two sequences with the
      same keys at the same positions have the same first match. */
  lemma IndexOfSameKeys<T>(a: seq<T>, b: seq<T>, key: T -> Id, id: Id)
    requires |a| == |b|
    requires forall i :: 0 <= i < |a| ==> key(a[i]) == key(b[i])
    ensures IndexOf(a, key, id) == IndexOf(b, key, id)
  {
  }

  /** Searching a concatenation searches the first part, then the second. */
  lemma IndexOfConcat<T>(a: seq<T>, b: seq<T>, key: T -> Id, id: Id)
    ensures IndexOf(a + b, key, id) ==
              match IndexOf(a, key, id)
              case Some(k) => Some(k)
              case None =>
                match IndexOf(b, key, id)
                case Some(k) => Some(|a| + k)
                case None => None
  {
    var ab := a + b;
    assert forall j :: 0 <= j < |a| ==> ab[j] == a[j];
    assert forall j :: |a| <= j < |ab| ==> ab[j] == b[j - |a|];
    match IndexOf(a, key, id)
    case Some(k) =>
      assert ab[k] == a[k];
    case None =>
      match IndexOf(b, key, id)
      case Some(k) =>
        assert ab[|a| + k] == b[k];
      case None =>
  }
}
