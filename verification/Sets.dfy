/** Walking through a set, in any order or in the order of its keys. */
module Sets {
  import opened Options

  method AnyOf<T>(items: set<T>) returns (item: T)
    requires items != {}
    ensures item in items
  {
    item :| item in items;
  }

  method Least(keys: set<int>) returns (least: int)
    requires keys != {}
    ensures least in keys && forall key :: key in keys ==> least <= key
  {
    least := AnyOf(keys);
    var pending := keys - {least};
    while pending != {}
      invariant pending < keys && least in keys
      invariant forall key :: key in keys && key !in pending ==> least <= key
      decreases pending
    {
      var key := AnyOf(pending);
      if key < least { least := key; }
      pending := pending - {key};
    }
  }

  ghost predicate Ascending(s: seq<int>) {
    forall i, j :: 0 <= i < j < |s| ==> s[i] < s[j]
  }

  /** The keys in order, the first `limit` of them if there is one. */
  method InOrder(keys: set<int>, limit: Option<nat>) returns (order: seq<int>)
    ensures Ascending(order) && (forall key :: key in order ==> key in keys)
    ensures forall i :: 0 <= i < |order| ==> order[i] in keys
    ensures limit.Some? ==> |order| <= limit.value
    ensures limit.None? || |order| < limit.value ==> forall key :: key in keys ==> key in order
    ensures order != [] ==> forall key :: key in keys && key < order[|order| - 1] ==> key in order
    ensures order == [] ==> keys == {} || limit == Some(0)
  {
    order := [];
    var pending := keys;
    while pending != {} && (limit.Some? ==> |order| < limit.value)
      invariant Ascending(order) && pending <= keys && (limit.Some? ==> |order| <= limit.value)
      invariant forall key :: key in keys <==> key in order || key in pending
      invariant forall i, key :: 0 <= i < |order| && key in pending ==> order[i] < key
      invariant order == [] ==> pending == keys
      decreases pending
    {
      var key := Least(pending);
      order := order + [key];
      pending := pending - {key};
    }
  }
}
