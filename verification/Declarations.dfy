/** Keys a guest or a node declares (internal/proxmox: vmconfig): a key counts
    when exactly one entry declares it, and that entry is valid. */
module Declarations {
  import opened Options
  import opened Sorting
  import opened Strings

  const TAG_PREFIX: string := "vtpm_mds.io."
  const MAX_TOPOLOGY_KEYS: nat := 64

  /** ok: the key and the value are valid. */
  datatype Entry = Entry(key: string, value: string, ok: bool)

  // ----- the specification

  /** The entries for a key, in order. */
  function EntriesFor(entries: seq<Entry>, key: string): seq<Entry> {
    if entries == [] then []
    else
      var last := entries[|entries| - 1];
      EntriesFor(entries[..|entries| - 1], key) + if last.key == key then [last] else []
  }

  /** One valid entry declares the key, and no other entry names it. */
  predicate Declares(entries: seq<Entry>, key: string) {
    var list := EntriesFor(entries, key);
    |list| == 1 && list[0].ok
  }

  lemma EntriesForMore(entries: seq<Entry>, e: Entry, key: string)
    ensures EntriesFor(entries + [e], key) == EntriesFor(entries, key) + if e.key == key then [e] else []
  {
    assert (entries + [e])[..|entries|] == entries;
  }

  /** The same, without the list: exactly one place names the key. */
  lemma {:induction false} DeclaresMeaning(entries: seq<Entry>, key: string)
    ensures |EntriesFor(entries, key)| > 0 <==> exists i :: 0 <= i < |entries| && entries[i].key == key
    ensures Declares(entries, key) <==>
              exists i :: 0 <= i < |entries| && entries[i].key == key && entries[i].ok
                          && forall j :: 0 <= j < |entries| && entries[j].key == key ==> j == i
  {
    if entries != [] {
      var n := |entries| - 1;
      DeclaresMeaning(entries[..n], key);
      assert forall i :: 0 <= i < n ==> entries[..n][i] == entries[i];
      if entries[n].key == key && entries[n].ok && |EntriesFor(entries[..n], key)| == 0 {
        assert Declares(entries, key);
        assert forall j :: 0 <= j < |entries| && entries[j].key == key ==> j == n;
      }
      if entries[n].key != key && Declares(entries[..n], key) {
        var i :| 0 <= i < n && entries[..n][i].key == key && entries[..n][i].ok
                 && forall j :: 0 <= j < n && entries[..n][j].key == key ==> j == i;
        assert forall j :: 0 <= j < |entries| && entries[j].key == key ==> j == i;
      }
    }
  }

  /** The entries that parse, in order. */
  function Parsed(fields: seq<string>, parse: string -> Option<Entry>): seq<Entry> {
    if fields == [] then []
    else
      var e := parse(fields[|fields| - 1]);
      Parsed(fields[..|fields| - 1], parse) + if e.Some? then [e.value] else []
  }

  lemma ParsedMore(fields: seq<string>, field: string, parse: string -> Option<Entry>)
    ensures Parsed(fields + [field], parse)
            == Parsed(fields, parse) + if parse(field).Some? then [parse(field).value] else []
  {
    assert (fields + [field])[..|fields|] == fields;
  }

  // ----- grouping

  /** The entries seen so far, by key. */
  ghost predicate Grouped(groups: map<string, seq<Entry>>, entries: seq<Entry>) {
    forall key :: (key in groups <==> EntriesFor(entries, key) != [])
      && (key in groups ==> groups[key] == EntriesFor(entries, key))
  }

  function GroupOf(groups: map<string, seq<Entry>>, key: string): seq<Entry> {
    if key in groups then groups[key] else []
  }

  lemma GroupedMore(groups: map<string, seq<Entry>>, entries: seq<Entry>, e: Entry)
    requires Grouped(groups, entries)
    ensures Grouped(groups[e.key := GroupOf(groups, e.key) + [e]], entries + [e])
  {
    var groups' := groups[e.key := GroupOf(groups, e.key) + [e]];
    hide EntriesFor;
    forall key
      ensures (key in groups' <==> EntriesFor(entries + [e], key) != [])
              && (key in groups' ==> groups'[key] == EntriesFor(entries + [e], key))
    {
      EntriesForMore(entries, e, key);
    }
  }

  lemma GroupedNone()
    ensures Grouped(map[], [])
  {
  }

  // ----- instance tags

  /** What makes a key or a value valid. */
  datatype Rules = Rules(validKey: string -> bool, validValue: string -> bool)

  /** One tag: None without the prefix, which is matched in any case. */
  function ParseTag(rules: Rules, tag: string): Option<Entry> {
    if !(TAG_PREFIX <= ToLower(tag)) then None
    else
      var rest := tag[|TAG_PREFIX|..];
      var n := IndexOf(rest, '.');
      if n < |rest| then
        Some(Entry(rest[..n], rest[n + 1..], rules.validKey(rest[..n]) && rules.validValue(rest[n + 1..])))
      else Some(Entry(rest, "", false))
  }

  /** The value the sole entry gives. */
  function Value(entries: seq<Entry>, key: string): string {
    if Declares(entries, key) then EntriesFor(entries, key)[0].value else ""
  }

  /** The instance tags a guest declares. */
  method InstanceTags(rules: Rules, fields: seq<string>) returns (out: map<string, string>)
    ensures forall key :: key in out <==> Declares(Parsed(fields, tag => ParseTag(rules, tag)), key)
    ensures forall key :: key in out ==> out[key] == Value(Parsed(fields, tag => ParseTag(rules, tag)), key)
  {
    ghost var parse := (tag: string) => ParseTag(rules, tag);
    var groups, order := GroupTags(rules, fields, parse);
    ghost var entries := Parsed(fields, parse);
    out := map[];
    for i := 0 to |order|
      invariant forall key :: key in out <==> key in order[..i] && Declares(entries, key)
      invariant forall key :: key in out ==> out[key] == Value(entries, key)
    {
      var key := order[i];
      assert order[..i + 1] == order[..i] + [key];
      var list := groups[key];
      if |list| > 1 {
      } else if !list[0].ok {
      } else {
        out := out[key := list[0].value];
      }
    }
    assert order[..|order|] == order;
    assert forall key :: Declares(entries, key) ==> key in groups;
  }

  /** The first loop: the tags by key, and the keys in the order met. */
  method GroupTags(rules: Rules, fields: seq<string>, ghost parse: string -> Option<Entry>)
    returns (groups: map<string, seq<Entry>>, order: seq<string>)
    requires forall tag :: parse(tag) == ParseTag(rules, tag)
    ensures Grouped(groups, Parsed(fields, parse))
    ensures forall key :: key in order <==> key in groups
  {
    hide Grouped, ParseTag, EntriesFor, Parsed;
    groups, order := map[], [];
    GroupedNone();
    ParsedNone(parse);
    for i := 0 to |fields|
      invariant Grouped(groups, Parsed(fields[..i], parse))
      invariant forall key :: key in order <==> key in groups
    {
      assert fields[..i + 1] == fields[..i] + [fields[i]];
      ParsedMore(fields[..i], fields[i], parse);
      var e := ParseTag(rules, fields[i]);
      if e.None? {
        assert Parsed(fields[..i], parse) + [] == Parsed(fields[..i], parse);
        continue;
      }
      GroupedMore(groups, Parsed(fields[..i], parse), e.value);
      var key := e.value.key;
      if key !in groups {
        order := order + [key];
      }
      groups := groups[key := GroupOf(groups, key) + [e.value]];
    }
    assert fields[..|fields|] == fields;
  }

  lemma ParsedNone(parse: string -> Option<Entry>)
    ensures Parsed([], parse) == []
  {
  }

  // ----- the node description

  /** How a description's lines are read: None for a line that declares
      nothing, otherwise key and value as written. */
  datatype Reader = Reader(line: string -> Option<(string, string)>, validKey: string -> bool,
                           validValue: string -> bool)

  /** One line: zone is short for availability-zone; an invalid key counts as no
      line at all. */
  function ParseLine(reader: Reader, line: string): Option<Entry> {
    match reader.line(line)
    case None => None
    case Some((k, value)) =>
      var key := if k == "zone" then "availability-zone" else k;
      if reader.validKey(key) then Some(Entry(key, value, reader.validValue(value))) else None
  }

  /** The keys that sort before a key and are declared. */
  ghost function DeclaredBefore(entries: seq<Entry>, keys: set<string>, key: string): set<string> {
    set k | k in keys && Declares(entries, k) && Lt(k, key)
  }

  /** The declared keys among these. */
  ghost function Declared(entries: seq<Entry>, keys: seq<string>): set<string> {
    set k | k in keys && Declares(entries, k)
  }

  lemma DeclaredMore(entries: seq<Entry>, keys: seq<string>, key: string)
    requires key !in keys
    ensures Declared(entries, keys + [key]) == Declared(entries, keys) + if Declares(entries, key) then {key} else {}
    ensures |Declared(entries, keys + [key])| == |Declared(entries, keys)| + if Declares(entries, key) then 1 else 0
  {
    assert Declared(entries, keys + [key]) == Declared(entries, keys) + if Declares(entries, key) then {key} else {};
  }

  /** In sorted order, what comes before a key is what sorts before it. */
  lemma SortedBefore(entries: seq<Entry>, keys: seq<string>, all: set<string>, i: nat)
    requires StrictlySorted(keys, Le) && i < |keys| && forall k :: k in keys <==> k in all
    ensures DeclaredBefore(entries, all, keys[i]) == Declared(entries, keys[..i])
    ensures keys[i] !in keys[..i]
  {
    forall k | Declares(entries, k) ensures (k in all && Lt(k, keys[i])) <==> k in keys[..i] {
      if k in keys {
        var j :| 0 <= j < |keys| && keys[j] == k;
        if j < i {
          assert keys[..i][j] == k;
        } else if j > i {
          assert Le(keys[i], k) && keys[i] != k;
          if Lt(k, keys[i]) {
            LeAntisymmetric(k, keys[i]);
          }
        }
      }
    }
  }

  /** The keys of the map, sorted. */
  method SortedKeys(groups: map<string, seq<Entry>>) returns (keys: seq<string>)
    ensures StrictlySorted(keys, Le) && forall k :: k in keys <==> k in groups
  {
    var rest := groups.Keys;
    var list: seq<string> := [];
    while rest != {}
      invariant rest <= groups.Keys && Distinct(list)
      invariant forall k :: k in list <==> k in groups && k !in rest
    {
      var k :| k in rest;
      rest := rest - {k};
      list := list + [k];
    }
    keys := Sort(list, Le);
    SortedDistinct(list);
  }

  lemma SortedDistinct(list: seq<string>)
    requires Distinct(list)
    ensures StrictlySorted(Sort(list, Le), Le) && forall k :: k in Sort(list, Le) <==> k in list
  {
    OrderIsTotal();
    SortSorted(list, Le);
    SortDistinct(list, Sort(list, Le));
    SameElements(list, Sort(list, Le));
  }

  lemma OrderIsTotal()
    ensures TotalPreorder(Le)
  {
    forall a, b ensures Le(a, b) || Le(b, a) {
      LeTotal(a, b);
    }
    forall a, b, c | Le(a, b) && Le(b, c) ensures Le(a, c) {
      LeTransitive(a, b, c);
    }
  }

  /** The lines by key. */
  method GroupLines(reader: Reader, lines: seq<string>, ghost parse: string -> Option<Entry>)
    returns (groups: map<string, seq<Entry>>)
    requires forall line :: parse(line) == ParseLine(reader, line)
    ensures Grouped(groups, Parsed(lines, parse))
  {
    hide Grouped, ParseLine, EntriesFor, Parsed;
    groups := map[];
    GroupedNone();
    ParsedNone(parse);
    for i := 0 to |lines|
      invariant Grouped(groups, Parsed(lines[..i], parse))
    {
      assert lines[..i + 1] == lines[..i] + [lines[i]];
      ParsedMore(lines[..i], lines[i], parse);
      var e := ParseLine(reader, lines[i]);
      if e.None? {
        assert Parsed(lines[..i], parse) + [] == Parsed(lines[..i], parse);
        continue;
      }
      GroupedMore(groups, Parsed(lines[..i], parse), e.value);
      groups := groups[e.value.key := GroupOf(groups, e.value.key) + [e.value]];
    }
    assert lines[..|lines|] == lines;
  }

  ghost function KeysOf(entries: seq<Entry>): set<string> {
    set e | e in entries :: e.key
  }

  ghost predicate InTopology(entries: seq<Entry>, out: map<string, string>) {
    forall key ::
      && (key in out <==> Declares(entries, key) && |DeclaredBefore(entries, KeysOf(entries), key)| < MAX_TOPOLOGY_KEYS)
      && (key in out ==> out[key] == Value(entries, key))
  }

  /** The topology keys a node declares: of those declared, the first 64 in
      order. */
  method DescriptionTopology(reader: Reader, lines: seq<string>) returns (out: map<string, string>)
    ensures InTopology(Parsed(lines, line => ParseLine(reader, line)), out)
  {
    ghost var parse := (line: string) => ParseLine(reader, line);
    var groups := GroupLines(reader, lines, parse);
    var keys := SortedKeys(groups);
    out := Select(Parsed(lines, parse), groups, keys);
    SelectedAll(Parsed(lines, parse), groups, keys, out);
  }

  /** What the second loop has selected from these keys. */
  ghost predicate Selected(entries: seq<Entry>, all: set<string>, keys: seq<string>, out: map<string, string>) {
    && (forall key :: key in out <==>
        key in keys && Declares(entries, key) && |DeclaredBefore(entries, all, key)| < MAX_TOPOLOGY_KEYS)
    && (forall key :: key in out ==> out[key] == Value(entries, key))
    && |out| == if |Declared(entries, keys)| < MAX_TOPOLOGY_KEYS then |Declared(entries, keys)| else MAX_TOPOLOGY_KEYS
  }

  lemma SelectedMore(entries: seq<Entry>, all: set<string>, keys: seq<string>, out: map<string, string>, i: nat,
                     out': map<string, string>)
    requires StrictlySorted(keys, Le) && i < |keys| && forall k :: k in keys <==> k in all
    requires Selected(entries, all, keys[..i], out)
    requires out' == if Declares(entries, keys[i]) && |out| < MAX_TOPOLOGY_KEYS
             then out[keys[i] := Value(entries, keys[i])] else out
    ensures Selected(entries, all, keys[..i + 1], out')
  {
    hide Declares, Value, Lt, Le, StrictlySorted, Declared, DeclaredBefore;
    assert keys[..i + 1] == keys[..i] + [keys[i]];
    SortedBefore(entries, keys, all, i);
    DeclaredMore(entries, keys[..i], keys[i]);
    assert keys[i] !in out;
    assert |out[keys[i] := Value(entries, keys[i])]| == |out| + 1;
  }

  method Select(ghost entries: seq<Entry>, groups: map<string, seq<Entry>>, keys: seq<string>)
    returns (out: map<string, string>)
    requires Grouped(groups, entries) && StrictlySorted(keys, Le) && forall k :: k in keys <==> k in groups
    ensures Selected(entries, groups.Keys, keys, out)
  {
    hide EntriesFor, Selected, StrictlySorted, Le;
    out := map[];
    SelectedNone(entries, groups.Keys);
    for i := 0 to |keys|
      invariant Selected(entries, groups.Keys, keys[..i], out)
    {
      var values := groups[keys[i]];
      ghost var before := out;
      if |values| > 1 {
      } else if !values[0].ok {
      } else if |out| >= MAX_TOPOLOGY_KEYS {
      } else {
        out := out[keys[i] := values[0].value];
      }
      SelectedMore(entries, groups.Keys, keys, before, i, out);
    }
    assert keys[..|keys|] == keys;
  }

  lemma SelectedNone(entries: seq<Entry>, all: set<string>)
    ensures Selected(entries, all, [], map[])
  {
    assert Declared(entries, []) == {};
  }

  lemma SelectedAll(entries: seq<Entry>, groups: map<string, seq<Entry>>, keys: seq<string>, out: map<string, string>)
    requires Grouped(groups, entries) && Selected(entries, groups.Keys, keys, out)
             && forall k :: k in keys <==> k in groups
    ensures InTopology(entries, out)
  {
    hide Lt;
    forall key ensures key in groups <==> key in KeysOf(entries) {
      DeclaresMeaning(entries, key);
    }
    assert groups.Keys == KeysOf(entries);
  }
}
