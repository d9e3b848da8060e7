/**
 * The lookup and parse helpers of the file-data component: resolving menu
 * ids to menu items and turning quantity tokens into integers. The menu is
 * passed in rather than re-read from `menu_items.csv`.
 */
module FileData {
  import opened Wrappers
  import opened JavaInt
  import opened Entities

  /** Every token parsed as a Java `int`, or None when any one of them is malformed. */
  function ParseAll(tokens: seq<string>): (r: Option<seq<int>>)
    ensures r.Some? <==> forall i :: 0 <= i < |tokens| ==> ParseInt(tokens[i]).Some?
    ensures r.Some? ==> |r.value| == |tokens|
    ensures r.Some? ==> forall i :: 0 <= i < |tokens| ==> ParseInt(tokens[i]) == Some(r.value[i])
  {
    if tokens == [] then Some([])
    else
      match ParseAll(tokens[..|tokens| - 1])
      case None => None
      case Some(front) =>
        match ParseInt(tokens[|tokens| - 1])
        case None => None
        case Some(v) => Some(front + [v])
  }

  lemma ParseAllSnoc(tokens: seq<string>, k: nat)
    requires k < |tokens|
    ensures ParseAll(tokens[..k + 1]) ==
      match (ParseAll(tokens[..k]), ParseInt(tokens[k]))
      case (Some(front), Some(v)) => Some(front + [v])
      case _ => None
  {
    assert tokens[..k + 1][..k] == tokens[..k];
  }

  /** Two well-formed tokens parse to the two values, in order. */
  lemma ParseAllExample(s: string, x: int, t: string, y: int)
    requires ParseInt(s) == Some(x) && ParseInt(t) == Some(y)
    ensures ParseAll([s, t]) == Some([x, y])
  {
    var r := ParseAll([s, t]);
    assert [s, t][0] == s && [s, t][1] == t;
    assert r.Some? && |r.value| == 2;
    assert r.value[0] == x && r.value[1] == y;
    assert r.value == [x, y];
  }

  /** The first item of the menu, in menu order, whose id is `id`. */
  function FirstMatch(menu: seq<MenuItem>, id: int): (r: Option<MenuItem>)
    ensures r.Some? ==> r.value in menu && r.value.menuID == id
    ensures r.None? <==> forall i :: 0 <= i < |menu| ==> menu[i].menuID != id
  {
    if menu == [] then None
    else if menu[0].menuID == id then Some(menu[0])
    else FirstMatch(menu[1..], id)
  }

  /** The item found at the first position with a matching id is the first match. */
  lemma {:induction false} FirstMatchAt(menu: seq<MenuItem>, id: int, k: nat)
    requires k < |menu| && menu[k].menuID == id
    requires forall i :: 0 <= i < k ==> menu[i].menuID != id
    ensures FirstMatch(menu, id) == Some(menu[k])
  {
    if k > 0 {
      FirstMatchAt(menu[1..], id, k - 1);
    }
  }

  /** The first match of each id, in the order of the ids; ids with no match add nothing. */
  function Resolve(menu: seq<MenuItem>, ids: seq<int>): (r: seq<MenuItem>)
    ensures |r| <= |ids|
    ensures forall i :: 0 <= i < |r| ==> r[i] in menu
  {
    if ids == [] then [] else Resolve(menu, ids[..|ids| - 1]) + Found(FirstMatch(menu, ids[|ids| - 1]))
  }

  /** The item found, as a list of zero or one items. */
  function Found(m: Option<MenuItem>): (r: seq<MenuItem>)
    ensures |r| <= 1 && (m.Some? <==> |r| == 1)
    ensures m.Some? ==> r[0] == m.value
  {
    match m
    case None => []
    case Some(item) => [item]
  }

  /** Resolving a concatenation of id lists concatenates the results. */
  lemma {:induction false} ResolveConcat(menu: seq<MenuItem>, a: seq<int>, b: seq<int>)
    ensures Resolve(menu, a + b) == Resolve(menu, a) + Resolve(menu, b)
  {
    if b == [] {
      assert a + b == a;
    } else {
      var front, x := b[..|b| - 1], b[|b| - 1];
      assert b == front + [x];
      assert a + b == (a + front) + [x];
      calc {
        Resolve(menu, a + b);
      == { ResolveSnoc(menu, a + front, x); }
        Resolve(menu, a + front) + Found(FirstMatch(menu, x));
      == { ResolveConcat(menu, a, front); }
        Resolve(menu, a) + (Resolve(menu, front) + Found(FirstMatch(menu, x)));
      == { ResolveSnoc(menu, front, x); }
        Resolve(menu, a) + Resolve(menu, b);
      }
    }
  }

  /** An id that no menu item carries is skipped wherever it stands. */
  lemma ResolveSkipsUnknown(menu: seq<MenuItem>, a: seq<int>, id: int, b: seq<int>)
    requires forall i :: 0 <= i < |menu| ==> menu[i].menuID != id
    ensures Resolve(menu, a + [id] + b) == Resolve(menu, a + b)
  {
    calc {
      Resolve(menu, a + [id] + b);
    == { ResolveConcat(menu, a + [id], b); }
      Resolve(menu, a + [id]) + Resolve(menu, b);
    == { ResolveSnoc(menu, a, id); }
      Resolve(menu, a) + Resolve(menu, b);
    == { ResolveConcat(menu, a, b); }
      Resolve(menu, a + b);
    }
  }

  lemma ResolveSnoc(menu: seq<MenuItem>, ids: seq<int>, id: int)
    ensures Resolve(menu, ids + [id]) == Resolve(menu, ids) + Found(FirstMatch(menu, id))
  {
  }

  /**
   * When every id has a match, nothing is skipped: the i-th result is the
   * first menu item carrying the i-th id.
   */
  lemma {:induction false} ResolveAllMatched(menu: seq<MenuItem>, ids: seq<int>)
    requires forall i :: 0 <= i < |ids| ==> FirstMatch(menu, ids[i]).Some?
    ensures |Resolve(menu, ids)| == |ids|
    ensures forall i :: 0 <= i < |ids| ==> Some(Resolve(menu, ids)[i]) == FirstMatch(menu, ids[i])
    ensures forall i :: 0 <= i < |ids| ==> Resolve(menu, ids)[i].menuID == ids[i]
  {
    if ids != [] {
      ResolveAllMatched(menu, ids[..|ids| - 1]);
    }
  }

  /**
   * `getMenuItemsByIds`: parses each id in turn and appends the first menu
   * item with that id; an id without a match is skipped, and a malformed id
   * aborts the whole call (None).
   */
  method GetMenuItemsByIds(menu: seq<MenuItem>, menuIDs: seq<string>) returns (selected: Option<seq<MenuItem>>)
    ensures selected.Some? <==> ParseAll(menuIDs).Some?
    ensures selected.Some? ==> selected.value == Resolve(menu, ParseAll(menuIDs).value)
  {
    var items: seq<MenuItem> := [];
    ghost var ids: seq<int> := [];
    for k := 0 to |menuIDs|
      invariant ParseAll(menuIDs[..k]) == Some(ids)
      invariant items == Resolve(menu, ids)
    {
      var parsed := ParseInt(menuIDs[k]);
      if parsed.None? {
        return None;
      }
      var id := parsed.value;
      var j := 0;
      while j < |menu| && menu[j].menuID != id
        invariant 0 <= j <= |menu|
        invariant forall i :: 0 <= i < j ==> menu[i].menuID != id
      {
        j := j + 1;
      }
      if j < |menu| {
        FirstMatchAt(menu, id, j);
        items := items + [menu[j]];
      }
      ResolveSnoc(menu, ids, id);
      ParseAllSnoc(menuIDs, k);
      ids := ids + [id];
    }
    assert menuIDs[..|menuIDs|] == menuIDs;
    selected := Some(items);
  }

  /**
   * `getQuantities`: the integer value of each token, in order, or None
   * when any token is not a valid `int`.
   */
  method GetQuantities(quantities: seq<string>) returns (quantityList: Option<seq<int>>)
    ensures quantityList.Some? <==> forall i :: 0 <= i < |quantities| ==> ParseInt(quantities[i]).Some?
    ensures quantityList.Some? ==> |quantityList.value| == |quantities|
    ensures quantityList.Some? ==> forall i :: 0 <= i < |quantities| ==> ParseInt(quantities[i]) == Some(quantityList.value[i])
    ensures quantityList == ParseAll(quantities)
  {
    var list: seq<int> := [];
    for k := 0 to |quantities|
      invariant |list| == k
      invariant forall i :: 0 <= i < k ==> ParseInt(quantities[i]) == Some(list[i])
    {
      var parsed := ParseInt(quantities[k]);
      if parsed.None? {
        assert ParseAll(quantities).None?;
        return None;
      }
      list := list + [parsed.value];
    }
    var all := ParseAll(quantities);
    assert all.Some? && |all.value| == |list|;
    assert forall i :: 0 <= i < |list| ==> all.value[i] == list[i];
    assert all.value == list;
    quantityList := Some(list);
  }

  /** The lookup example: with Pizza as item 1, `["1", "99"]` yields Pizza alone. */
  lemma ResolveExample()
    ensures Resolve([MenuItem(1, "Pizza", 1000), MenuItem(2, "Coffee", 300)], [1, 99])
         == [MenuItem(1, "Pizza", 1000)]
  {
  }
}
