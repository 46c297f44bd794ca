/** Item names, the comma-joined product request, and the in-memory menu. */
module Menu {
  import opened Prelude

  datatype MenuItem = MenuItem(itemType: int, price: real)

  /** The printed name; a type outside 0 to 10 panics. Type 10 prints the name of type 0. */
  function ItemTypeName(t: int): string
    requires 0 <= t <= 10
  {
    ["CAPPUCCINO", "COFFEE_BLACK", "COFFEE_WITH_ROOM", "ESPRESSO", "ESPRESSO_DOUBLE", "LATTE",
     "CAKEPOP", "CROISSANT", "MUFFIN", "CROISSANT_CHOCOLATE", "CAPPUCCINO"][t]
  }

  const ENTRIES: map<string, MenuItem> := map[
    "CAPPUCCINO" := MenuItem(0, 4.5),
    "COFFEE_BLACK" := MenuItem(1, 3.0),
    "COFFEE_WITH_ROOM" := MenuItem(2, 3.0),
    "ESPRESSO" := MenuItem(3, 3.5),
    "ESPRESSO_DOUBLE" := MenuItem(4, 4.5),
    "LATTE" := MenuItem(5, 4.5),
    "CAKEPOP" := MenuItem(6, 2.5),
    "CROISSANT" := MenuItem(7, 3.25),
    "MUFFIN" := MenuItem(8, 3.0),
    "CROISSANT_CHOCOLATE" := MenuItem(9, 3.5)]

  predicate Orderable(items: seq<int>) {
    forall i :: 0 <= i < |items| ==> 0 <= items[i] <= 10
  }

  // ------------------------------------------------------------------------
  // Joining, trimming and splitting

  /** The client's reduction: a comma before every name. */
  function Joined(names: seq<string>): string {
    if names == [] then "" else Joined(names[..|names| - 1]) + "," + names[|names| - 1]
  }

  function TrimLeft(s: string): string {
    if s != "" && s[0] == ',' then TrimLeft(s[1..]) else s
  }

  /** Pieces between commas; the empty string has one empty piece. */
  function Split(s: string): (pieces: seq<string>)
    ensures pieces != []
  {
    if s == "" then [""]
    else
      var rest := Split(s[1..]);
      if s[0] == ',' then [""] + rest else [[s[0]] + rest[0]] + rest[1..]
  }

  predicate CommaFree(s: string) {
    ',' !in s
  }

  lemma {:induction false} SplitPlain(name: string)
    requires CommaFree(name)
    ensures Split(name) == [name]
  {
    if name != "" {
      assert name[0] in name && [name[0]] + name[1..] == name;
      SplitPlain(name[1..]);
    }
  }

  lemma {:induction false} SplitLast(s: string, name: string)
    requires CommaFree(name)
    ensures Split(s + "," + name) == Split(s) + [name]
  {
    var whole := s + "," + name;
    if s == "" {
      assert whole[1..] == name;
      SplitPlain(name);
    } else {
      assert whole[1..] == s[1..] + "," + name;
      SplitLast(s[1..], name);
      var rest := Split(s[1..]);
      assert Split(whole[1..])[0] == rest[0] && Split(whole[1..])[1..] == rest[1..] + [name];
    }
  }

  lemma {:induction false} TrimAppend(s: string, t: string)
    requires TrimLeft(s) != ""
    ensures TrimLeft(s + t) == TrimLeft(s) + t
  {
    if s[0] == ',' {
      assert (s + t)[1..] == s[1..] + t;
      TrimAppend(s[1..], t);
    }
  }

  /** Splitting the trimmed request gives back the names, for any comma-free names of which the first is not empty. */
  lemma {:induction false} SplitJoined(names: seq<string>)
    requires names != [] && names[0] != "" && forall i :: 0 <= i < |names| ==> CommaFree(names[i])
    ensures Split(TrimLeft(Joined(names))) == names && TrimLeft(Joined(names)) != ""
  {
    hide Split;
    var n := |names| - 1;
    var last := names[n];
    if n == 0 {
      assert Joined(names[..0]) == "";
      assert ("," + last)[1..] == last;
      assert last[0] in last;
      SplitPlain(last);
    } else {
      SplitJoined(names[..n]);
      assert names[..n] + [last] == names;
      OneMoreName(Joined(names[..n]), last);
    }
  }

  lemma OneMoreName(earlier: string, last: string)
    requires TrimLeft(earlier) != "" && CommaFree(last)
    ensures Split(TrimLeft(earlier + "," + last)) == Split(TrimLeft(earlier)) + [last]
    ensures TrimLeft(earlier + "," + last) != ""
  {
    hide Split, TrimLeft;
    TrimAppend(earlier, "," + last);
    assert earlier + "," + last == earlier + ("," + last);
    assert TrimLeft(earlier) + ("," + last) == TrimLeft(earlier) + "," + last;
    SplitLast(TrimLeft(earlier), last);
  }

  // ------------------------------------------------------------------------
  // The product service

  /** The menu entries of the names, or none when a name is not on the menu and its lookup panics. */
  function Answer(names: seq<string>): Option<seq<MenuItem>> {
    if names == [] then Some([])
    else
      var n := |names| - 1;
      var before := Answer(names[..n]);
      if before.Some? && names[n] in ENTRIES then Some(before.value + [ENTRIES[names[n]]]) else None
  }

  method GetByTypes(itemTypes: seq<string>) returns (results: Option<seq<MenuItem>>)
    ensures results == Answer(itemTypes)
    ensures results.Some? <==> forall i :: 0 <= i < |itemTypes| ==> itemTypes[i] in ENTRIES
  {
    var found: seq<MenuItem> := [];
    for i := 0 to |itemTypes|
      invariant Answer(itemTypes[..i]) == Some(found)
      invariant forall j :: 0 <= j < i ==> itemTypes[j] in ENTRIES
    {
      assert itemTypes[..i + 1][..i] == itemTypes[..i];
      if itemTypes[i] !in ENTRIES {
        AnswerNone(itemTypes, i);
        return None;
      }
      found := found + [ENTRIES[itemTypes[i]]];
    }
    assert itemTypes[..|itemTypes|] == itemTypes;
    results := Some(found);
  }

  lemma {:induction false} AnswerNone(names: seq<string>, i: nat)
    requires i < |names| && names[i] !in ENTRIES
    ensures Answer(names).None?
  {
    if i < |names| - 1 {
      AnswerNone(names[..|names| - 1], i);
    }
  }

  function Names(items: seq<int>): seq<string>
    requires Orderable(items)
  {
    seq(|items|, i requires 0 <= i < |items| => ItemTypeName(items[i]))
  }

  /** The client's request, sent to the service and answered from the menu. */
  method GetItemsByType(items: seq<int>) returns (results: Option<seq<MenuItem>>)
    requires Orderable(items)
    ensures results == Answer(Split(TrimLeft(Joined(Names(items)))))
  {
    var itemTypes := "";
    for i := 0 to |items|
      invariant itemTypes == Joined(Names(items)[..i])
    {
      assert Names(items)[..i + 1][..i] == Names(items)[..i];
      itemTypes := itemTypes + "," + ItemTypeName(items[i]);
    }
    assert Names(items)[..|items|] == Names(items);
    results := GetByTypes(Split(TrimLeft(itemTypes)));
  }

  /** The menu entry that answers for a requested type. */
  function EntryOf(t: int): MenuItem
    requires 0 <= t <= 10
    ensures EntryOf(t).itemType == if t == 10 then 0 else t
  {
    ENTRIES[ItemTypeName(t)]
  }

  /** What an item of types 0 to 9 costs. */
  lemma PriceList(t: int)
    requires 0 <= t < 10
    ensures EntryOf(t) ==
            match t
            case 0 => MenuItem(0, 4.5)
            case 1 => MenuItem(1, 3.0)
            case 2 => MenuItem(2, 3.0)
            case 3 => MenuItem(3, 3.5)
            case 4 => MenuItem(4, 4.5)
            case 5 => MenuItem(5, 4.5)
            case 6 => MenuItem(6, 2.5)
            case 7 => MenuItem(7, 3.25)
            case 8 => MenuItem(8, 3.0)
            case _ => MenuItem(9, 3.5)
  {
  }

  function Entries(items: seq<int>): seq<MenuItem>
    requires Orderable(items)
  {
    seq(|items|, i requires 0 <= i < |items| => EntryOf(items[i]))
  }

  lemma NamesPlain(t: int)
    requires 0 <= t <= 10
    ensures CommaFree(ItemTypeName(t)) && ItemTypeName(t) != ""
  {
  }

  /** The whole round trip: one menu entry per requested item, in order. */
  lemma EveryItemAnswered(items: seq<int>)
    requires Orderable(items) && items != []
    ensures Answer(Split(TrimLeft(Joined(Names(items))))) == Some(Entries(items))
  {
    forall i | 0 <= i < |items| ensures CommaFree(Names(items)[i]) && Names(items)[i] != "" {
      NamesPlain(items[i]);
    }
    SplitJoined(Names(items));
    AnswerNames(items);
  }

  lemma {:induction false} AnswerNames(items: seq<int>)
    requires Orderable(items)
    ensures Answer(Names(items)) == Some(Entries(items))
  {
    if items == [] {
      assert Names(items) == [] && Entries(items) == [];
    } else {
      var n := |items| - 1;
      AnswerNames(items[..n]);
      assert Names(items)[..n] == Names(items[..n]);
      assert ItemTypeName(items[n]) in ENTRIES;
      assert Entries(items[..n]) + [EntryOf(items[n])] == Entries(items);
    }
  }
}
