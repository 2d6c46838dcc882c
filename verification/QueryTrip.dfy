/** What the Rust path parser reads from a query: the listed keys, each with its values in order, and when writing and
    reading gives everything back. */
module QueryTrip {
  import opened Json
  import opened Texts
  import opened PathSpec
  import opened PathLaws
  import opened PathTrip

  /** One part of a query: a key alone or a key with a value. */
  datatype Item = Flag(key: string) | Pair(key: string, text: string)

  function ValueOf(item: Item): string {
    if item.Flag? then "" else item.text
  }

  /** A key ends at the first equals sign and a part at the next ampersand; everything else may stand in both. */
  predicate Proper(item: Item) {
    '&' !in item.key && '=' !in item.key && '&' !in ValueOf(item)
  }

  function Written(item: Item): string {
    if item.Flag? then item.key else item.key + "=" + item.text
  }

  function WrittenAll(items: seq<Item>): (parts: seq<string>)
    ensures |parts| == |items|
    ensures forall i :: 0 <= i < |items| ==> parts[i] == Written(items[i])
  {
    seq(|items|, i requires 0 <= i < |items| => Written(items[i]))
  }

  function QueryText(items: seq<Item>): string {
    Join(WrittenAll(items), '&')
  }

  function Keys(items: seq<Item>): set<string> {
    set item | item in items :: item.key
  }

  /** The values written for a key, in order. */
  function ValuesOf(items: seq<Item>, key: string): seq<string> {
    if items == [] then []
    else (if items[0].key == key then [ValueOf(items[0])] else []) + ValuesOf(items[1..], key)
  }

  /** The listed keys with their values. */
  function Listed(items: seq<Item>): map<string, seq<string>> {
    map key | key in Keys(items) :: ValuesOf(items, key)
  }

  function AsRead(item: Item): Item {
    match item
    case Flag(key) => Flag(PercentDecode(key))
    case Pair(key, text) => Pair(PercentDecode(key), PercentDecode(text))
  }

  function AllAsRead(items: seq<Item>): (read: seq<Item>)
    ensures |read| == |items|
    ensures forall i :: 0 <= i < |items| ==> read[i] == AsRead(items[i])
  {
    seq(|items|, i requires 0 <= i < |items| => AsRead(items[i]))
  }

  lemma KeysCons(items: seq<Item>)
    requires items != []
    ensures Keys(items) == {items[0].key} + Keys(items[1..])
  {
    assert forall item :: item in items <==> item == items[0] || item in items[1..];
  }

  lemma PartReads(query: map<string, seq<string>>, item: Item)
    requires Proper(item)
    ensures var read := AsRead(item);
            AddPart(query, Written(item)) == query[read.key := Values(query, read.key) + [ValueOf(read)]]
  {
    if item.Flag? {
      UntilNone(item.key, '=');
    } else {
      var s := item.key + ['='] + item.text;
      UntilIs(item.key, '=', item.text);
      assert s == Written(item) && s[..|item.key|] == item.key && s[|item.key| + 1..] == item.text;
    }
  }

  /** From `query` to `q` exactly the items were added. */
  ghost predicate Added(query: map<string, seq<string>>, q: map<string, seq<string>>, items: seq<Item>) {
    q.Keys == query.Keys + Keys(items) && forall key :: Values(q, key) == Values(query, key) + ValuesOf(items, key)
  }

  lemma ValuesCons(items: seq<Item>, before: seq<string>, key: string)
    requires items != []
    ensures before + ValuesOf(items, key)
         == (if items[0].key == key then before + [ValueOf(items[0])] else before) + ValuesOf(items[1..], key)
  {}

  lemma AddedCons(query: map<string, seq<string>>, next: map<string, seq<string>>, q: map<string, seq<string>>, items: seq<Item>)
    requires items != [] && next == query[items[0].key := Values(query, items[0].key) + [ValueOf(items[0])]]
    requires Added(next, q, items[1..])
    ensures Added(query, q, items)
  {
    KeysCons(items);
    forall key ensures Values(q, key) == Values(query, key) + ValuesOf(items, key) {
      ValuesCons(items, Values(query, key), key);
    }
  }

  lemma {:induction false} PartsRead(query: map<string, seq<string>>, items: seq<Item>)
    requires forall item <- items :: Proper(item)
    ensures Added(query, AddParts(query, WrittenAll(items)), AllAsRead(items))
    decreases |items|
  {
    var read := AllAsRead(items);
    if items != [] {
      assert items[0] in items;
      PartReads(query, items[0]);
      assert WrittenAll(items)[1..] == WrittenAll(items[1..]) && read[1..] == AllAsRead(items[1..]);
      var next := AddPart(query, WrittenAll(items)[0]);
      PartsRead(next, items[1..]);
      AddedCons(query, next, AddParts(query, WrittenAll(items)), read);
    }
  }

  lemma SplitWritten(items: seq<Item>)
    requires items != [] && forall item <- items :: Proper(item)
    ensures Split(QueryText(items), '&') == WrittenAll(items)
  {
    forall part | part in WrittenAll(items) ensures '&' !in part {
      var i :| 0 <= i < |items| && WrittenAll(items)[i] == part;
      assert items[i] in items;
    }
    SplitOfJoin(WrittenAll(items), '&');
  }

  lemma EmptyText(items: seq<Item>)
    ensures QueryText(items) == "" <==> items == [] || (|items| == 1 && Written(items[0]) == "")
  {}

  /** A single empty key is written as nothing, and so read as no key; every other list is read as its decoded items. */
  lemma QueryReads(items: seq<Item>)
    requires forall item <- items :: Proper(item)
    ensures Query(QueryText(items)) == if items == [Flag("")] then map[] else Listed(AllAsRead(items))
  {
    EmptyText(items);
    if QueryText(items) != "" {
      SplitWritten(items);
      PartsRead(map[], items);
      var q, read := Query(QueryText(items)), AllAsRead(items);
      forall key | key in q ensures q[key] == ValuesOf(read, key) { assert Values(q, key) == [] + ValuesOf(read, key); }
    } else if items != [] {
      assert items == [items[0]];
    }
  }

  /** The query does not touch how the path is matched, and is read as its decoded items. */
  lemma ReadsQuery(route: string, head: string, items: seq<Item>)
    requires '?' !in head && (forall item <- items :: Proper(item)) && items != [Flag("")]
    ensures
      var bare, full := Parse(route, head), Parse(route, head + "?" + QueryText(items));
      && (full.Some? <==> bare.Some?)
      && (full.Some? ==> full.value == bare.value.(query := Listed(AllAsRead(items))))
  {
    var text := QueryText(items);
    UntilIs(head, '?', text);
    var path := head + ['?'] + text;
    assert path == head + "?" + text && path[..|head|] == head && path[|head| + 1..] == text;
    QueryReads(items);
    UntilNone(head, '?');
    EmptyPath();
  }

  // ---------- when everything comes back ----------

  predicate PlainItem(item: Item) {
    NoEscape(item.key) && NoEscape(ValueOf(item))
  }

  /** Keys without escapes are the only ones that are read as the same set of keys: the longest key with an escape
      would have to be read from a longer one. */
  lemma {:induction false} LongerKey(items: seq<Item>, key: string, bound: nat)
    requires Keys(AllAsRead(items)) == Keys(items) && key in Keys(items) && !NoEscape(key)
    requires forall item <- items :: |item.key| <= bound
    ensures false
    decreases bound - |key|
  {
    var read :| read in AllAsRead(items) && read.key == key;
    var i :| 0 <= i < |items| && AllAsRead(items)[i] == read;
    assert items[i] in items;
    DecodeShrinks(items[i].key);
    LongerKey(items, items[i].key, bound);
  }

  function Longest(items: seq<Item>): (n: nat)
    ensures forall item <- items :: |item.key| <= n
  {
    if items == [] then 0
    else var n := Longest(items[1..]); if n < |items[0].key| then |items[0].key| else n
  }

  /** Whether the values of a key are free of escapes. */
  predicate PlainValues(items: seq<Item>, key: string) {
    forall item <- items | item.key == key :: NoEscape(ValueOf(item))
  }

  lemma PlainValuesCons(items: seq<Item>, key: string)
    requires items != []
    ensures PlainValues(items, key) <==>
              (items[0].key == key ==> NoEscape(ValueOf(items[0]))) && PlainValues(items[1..], key)
  {
    assert forall item :: item in items <==> item == items[0] || item in items[1..];
  }

  lemma HeadAndTail(a: seq<string>, b: seq<string>, x: seq<string>, y: seq<string>)
    requires |a| == |x|
    ensures a + b == x + y <==> a == x && b == y
  {
    if a + b == x + y { assert a == (a + b)[..|a|] && b == (a + b)[|a|..]; }
  }

  lemma {:induction false} ValuesSame(items: seq<Item>, key: string)
    requires forall item <- items :: NoEscape(item.key)
    ensures ValuesOf(AllAsRead(items), key) == ValuesOf(items, key) <==> PlainValues(items, key)
  {
    if items != [] {
      var item, read := items[0], AllAsRead(items)[0];
      assert item in items && AllAsRead(items)[1..] == AllAsRead(items[1..]);
      DecodeShrinks(item.key);
      DecodeShrinks(ValueOf(item));
      ValuesSame(items[1..], key);
      PlainValuesCons(items, key);
      HeadAndTail(if read.key == key then [ValueOf(read)] else [], ValuesOf(AllAsRead(items[1..]), key),
                  if item.key == key then [ValueOf(item)] else [], ValuesOf(items[1..], key));
    }
  }

  lemma PlainKeysSame(items: seq<Item>)
    ensures (forall item <- items :: NoEscape(item.key)) <==> Keys(AllAsRead(items)) == Keys(items)
  {
    if forall item <- items :: NoEscape(item.key) {
      forall i | 0 <= i < |items| ensures AllAsRead(items)[i].key == items[i].key {
        assert items[i] in items;
        DecodeShrinks(items[i].key);
      }
      SameKeys(items, AllAsRead(items));
    } else if Keys(AllAsRead(items)) == Keys(items) {
      var item :| item in items && !NoEscape(item.key);
      LongerKey(items, item.key, Longest(items));
    }
  }

  lemma SameKeys(a: seq<Item>, b: seq<Item>)
    requires |a| == |b| && forall i :: 0 <= i < |a| ==> a[i].key == b[i].key
    ensures Keys(a) == Keys(b)
  {
    forall key ensures key in Keys(a) <==> key in Keys(b) {
      if key in Keys(a) {
        var i :| 0 <= i < |a| && a[i].key == key;
        assert b[i] in b;
      }
      if key in Keys(b) {
        var i :| 0 <= i < |b| && b[i].key == key;
        assert a[i] in a;
      }
    }
  }

  lemma ListedSame(items: seq<Item>)
    ensures Listed(AllAsRead(items)) == Listed(items) <==> forall item <- items :: PlainItem(item)
  {
    PlainKeysSame(items);
    var read := AllAsRead(items);
    assert Listed(read).Keys == Keys(read) && Listed(items).Keys == Keys(items);
    if forall item <- items :: NoEscape(item.key) {
      forall key | key in Keys(items)
        ensures Listed(read)[key] == Listed(items)[key] <==> PlainValues(items, key)
      {
        ValuesSame(items, key);
      }
      if Listed(read) == Listed(items) {
        forall item | item in items ensures PlainItem(item) { assert PlainValues(items, item.key); }
      }
    }
  }

  /** Reading a written query gives every key back with its values in order if and only if nothing in it has an escape. */
  lemma QueryRoundTrip(route: string, head: string, items: seq<Item>)
    requires '?' !in head && (forall item <- items :: Proper(item)) && items != [Flag("")]
    requires Parse(route, head).Some?
    ensures Parse(route, head + "?" + QueryText(items)) == Some(Parse(route, head).value.(query := Listed(items)))
       <==> forall item <- items :: PlainItem(item)
  {
    ReadsQuery(route, head, items);
    ListedSame(items);
  }
}
