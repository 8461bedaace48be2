/** The checked-flag rule of AdminMenuAuthorityService.getItems: for each
    menu, whether an authority level may use it. An authority's menus are
    kept as one string, `menuIdList`, searched for the entry `^|<id>,`;
    when the authority has no row the list is null. */
module MenuAuthority {
  import opened JsValues
  import opened Strings

  /** One element of the answer: the menu and whether it is checked. */
  datatype MenuAuthorityItem = MenuAuthorityItem(id: int, checked: bool)

  /** The text getItems searches for. */
  function Entry(id: int): string {
    "^|" + IntText(id) + ","
  }

  /** `item.getId().equals(1) || StringUtils.contains(menuIdList, "^|" + id + ",")`,
      where `contains` on null is false. */
  predicate IsChecked(id: int, menuIdList: Option<string>) {
    id == 1 || (menuIdList.Some? && Contains(menuIdList.value, Entry(id)))
  }

  /** getItems: one item per menu, in the menu list's order. */
  function CheckedItems(menuIds: seq<int>, menuIdList: Option<string>): (items: seq<MenuAuthorityItem>)
    ensures |items| == |menuIds|
    ensures forall i :: 0 <= i < |menuIds| ==>
      items[i].id == menuIds[i] && (items[i].checked <==> IsChecked(menuIds[i], menuIdList))
  {
    seq(|menuIds|, i requires 0 <= i < |menuIds| => MenuAuthorityItem(menuIds[i], IsChecked(menuIds[i], menuIdList)))
  }

  /** Menu 1 is checked whatever the list holds. */
  lemma FirstMenuAlwaysChecked(menuIds: seq<int>, menuIdList: Option<string>, i: int)
    requires 0 <= i < |menuIds| && menuIds[i] == 1
    ensures CheckedItems(menuIds, menuIdList)[i].checked
  {
  }

  /** Without an authority row only menu 1 is checked. */
  lemma NoListOnlyFirstMenu(menuIds: seq<int>, i: int)
    requires 0 <= i < |menuIds|
    ensures CheckedItems(menuIds, None)[i].checked <==> menuIds[i] == 1
  {
  }

  /** The stored form of a set of menu ids: one `^|<id>,` entry per id. */
  function Encode(ids: seq<int>): string
    decreases |ids|
  {
    if ids == [] then "" else Entry(ids[0]) + Encode(ids[1..])
  }

  /** Two numerals followed by ',' agree up to that ',' only if they are equal. */
  lemma CommaDelimited(x: string, a: string, r: string)
    requires ',' !in x && ',' !in a
    requires StartsWith(a + "," + r, x + ",")
    ensures x == a
  {
    var s := a + "," + r;
    IndexOfFirst(a, ',', r);
    IndexOfFirst(x, ',', "");
    assert x + "," + "" == x + ",";
    IndexOfPrefix(s, x + ",", ',');
    assert s[..|x| + 1] == x + ",";
    assert s[..|x|] == a;
    assert (x + ",")[..|x|] == x;
  }

  /** An entry begins the encoded text exactly when it is the first id's. */
  lemma EntryAtStart(a: int, x: int, r: string)
    ensures StartsWith(Entry(a) + r, Entry(x)) <==> a == x
  {
    if StartsWith(Entry(a) + r, Entry(x)) {
      var s := Entry(a) + r;
      assert s == "^|" + (IntText(a) + "," + r);
      assert Entry(x) == "^|" + (IntText(x) + ",");
      assert s[2..][..|IntText(x)| + 1] == s[..|Entry(x)|][2..];
      assert StartsWith(IntText(a) + "," + r, IntText(x) + ",");
      CommaDelimited(IntText(x), IntText(a), r);
      IntTextInjective(a, x);
    }
  }

  /** On a well-formed list the rule is exact membership: `^|12,` marks
      menu 12 and no other, so menus 1 and 2 are not matched by it. */
  lemma {:induction false} EncodedMembership(ids: seq<int>, x: int)
    ensures Contains(Encode(ids), Entry(x)) <==> x in ids
    decreases |ids|
  {
    if ids == [] {
      assert !StartsWith("", Entry(x));
    } else {
      var a, rest := ids[0], Encode(ids[1..]);
      var s := Entry(a) + rest;
      EntryAtStart(a, x, rest);
      assert s[1..] == ("|" + IntText(a) + ",") + rest;
      assert '^' !in "|" + IntText(a) + ",";
      ContainsSkipsPrefix("|" + IntText(a) + ",", rest, Entry(x));
      EncodedMembership(ids[1..], x);
      assert ids == [a] + ids[1..];
    }
  }

  /** getItems on a stored list: a menu is checked exactly when it is menu 1
      or listed. */
  lemma CheckedIffListed(menuIds: seq<int>, listed: seq<int>, i: int)
    requires 0 <= i < |menuIds|
    ensures CheckedItems(menuIds, Some(Encode(listed)))[i].checked <==> menuIds[i] == 1 || menuIds[i] in listed
  {
    EncodedMembership(listed, menuIds[i]);
  }

  lemma DelimitersExample()
    ensures Encode([12]) == "^|12,"
    ensures !IsChecked(2, Some("^|12,")) && IsChecked(12, Some("^|12,"))
    ensures !Contains("^|12,", Entry(1))
  {
    assert NatText(12) == NatText(1) + [DigitChar(2)];
    assert IntText(12) == "12";
    assert Encode([12]) == "^|12,";
    EncodedMembership([12], 1);
    EncodedMembership([12], 2);
    EncodedMembership([12], 12);
  }
}
