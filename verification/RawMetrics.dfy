/** The raw_metrics field of a CSV row: parsing and printing it (analysis/common.py), and merging a launch's probe
    byte totals into a row (analysis/memory.py). */
module RawMetrics {
  import opened Options

  // --- Splitting and joining at semicolons ---

  // The parts with one more character at the end.
  function Grown(parts: seq<string>, c: char): (r: seq<string>)
    requires parts != []
    ensures r != []
  {
    if c == ';' then parts + [""] else parts[..|parts| - 1] + [parts[|parts| - 1] + [c]]
  }

  // str.split at semicolons: the empty string is one empty part.
  function Split(s: string): (parts: seq<string>)
    ensures parts != []
  {
    if s == "" then [""] else Grown(Split(s[..|s| - 1]), s[|s| - 1])
  }

  function Joined(parts: seq<string>): string {
    if parts == [] then ""
    else if |parts| == 1 then parts[0]
    else Joined(parts[..|parts| - 1]) + ";" + parts[|parts| - 1]
  }

  predicate Without(s: string, c: char) {
    forall i :: 0 <= i < |s| ==> s[i] != c
  }

  lemma GrownConcat(a: seq<string>, b: seq<string>, c: char)
    requires b != []
    ensures Grown(a + b, c) == a + Grown(b, c)
  {
    assert (a + b)[..|a + b| - 1] == a + b[..|b| - 1];
  }

  lemma {:induction false} SplitConcat(a: string, b: string)
    ensures Split(a + ";" + b) == Split(a) + Split(b)
  {
    hide Grown;
    var s := a + ";" + b;
    if b == "" {
      assert s[..|s| - 1] == a;
      GrownBySeparator(Split(a));
    } else {
      SplitConcat(a, b[..|b| - 1]);
      assert s[..|s| - 1] == a + ";" + b[..|b| - 1];
      GrownConcat(Split(a), Split(b[..|b| - 1]), b[|b| - 1]);
    }
  }

  lemma GrownBySeparator(parts: seq<string>)
    requires parts != []
    ensures Grown(parts, ';') == parts + [""]
  {
  }

  lemma {:induction false} GrownJoined(parts: seq<string>, c: char)
    requires parts != []
    ensures Joined(Grown(parts, c)) == Joined(parts) + [c]
  {
    var r, n := Grown(parts, c), |parts| - 1;
    if c == ';' {
      assert r[..|r| - 1] == parts;
    } else {
      assert r[..n] == parts[..n];
    }
  }

  lemma GrownOne(part: string, c: char)
    requires c != ';'
    ensures Grown([part], c) == [part + [c]]
  {
  }

  lemma {:induction false} SplitFront(front: string, c: char)
    ensures Split(front + [c]) == Grown(Split(front), c)
    ensures Without(front + [c], ';') ==> Without(front, ';') && c != ';'
  {
    var s := front + [c];
    assert s[..|s| - 1] == front;
    assert s[|front|] == c;
    assert forall i :: 0 <= i < |front| ==> s[i] == front[i];
  }

  lemma {:induction false} SplitOne(s: string)
    requires Without(s, ';')
    ensures Split(s) == [s]
  {
    if s != "" {
      hide Grown, Split, Without;
      var front, c := s[..|s| - 1], s[|s| - 1];
      assert s == front + [c];
      SplitFront(front, c);
      SplitOne(front);
      GrownOne(front, c);
    }
  }

  lemma {:induction false} JoinedLast(parts: seq<string>, last: string)
    requires parts != []
    ensures Joined(parts + [last]) == Joined(parts) + ";" + last
  {
    assert (parts + [last])[..|parts|] == parts;
  }

  lemma {:induction false} SplitJoined(parts: seq<string>)
    requires parts != [] && forall i :: 0 <= i < |parts| ==> Without(parts[i], ';')
    ensures Split(Joined(parts)) == parts
  {
    hide Split, Joined, Without;
    var front, last := parts[..|parts| - 1], parts[|parts| - 1];
    assert parts == front + [last];
    SplitOne(last);
    if front == [] {
      JoinedOne(last);
    } else {
      SplitJoined(front);
      JoinedLast(front, last);
      SplitConcat(Joined(front), last);
    }
  }

  lemma {:induction false} JoinedSplit(s: string)
    ensures Joined(Split(s)) == s
    ensures forall i :: 0 <= i < |Split(s)| ==> Without(Split(s)[i], ';')
  {
    hide Joined;
    if s == "" {
      JoinedOne("");
    } else {
      JoinedSplit(s[..|s| - 1]);
      GrownJoined(Split(s[..|s| - 1]), s[|s| - 1]);
      assert s == s[..|s| - 1] + [s[|s| - 1]];
    }
  }

  lemma JoinedOne(part: string)
    ensures Joined([part]) == part
  {
  }

  // --- Dictionaries in insertion order ---

  datatype Entry = Entry(key: string, value: string)
  type Dict = seq<Entry>

  predicate Has(d: Dict, key: string) {
    exists i :: 0 <= i < |d| && d[i].key == key
  }

  // Assignment replaces a value in place, or appends a new key.
  function Set(d: Dict, key: string, value: string): (r: Dict)
    ensures |r| == if Has(d, key) then |d| else |d| + 1
    ensures forall i :: 0 <= i < |d| ==> r[i] == if d[i].key == key then Entry(key, value) else d[i]
    ensures !Has(d, key) ==> r[|d|] == Entry(key, value)
  {
    var updated := seq(|d|, i requires 0 <= i < |d| => if d[i].key == key then Entry(key, value) else d[i]);
    if Has(d, key) then updated else updated + [Entry(key, value)]
  }

  predicate Distinct(d: Dict) {
    forall i, j :: 0 <= i < j < |d| ==> d[i].key != d[j].key
  }

  function KeysOf(d: Dict): (keys: seq<string>)
    ensures |keys| == |d| && forall i :: 0 <= i < |d| ==> keys[i] == d[i].key
  {
    seq(|d|, i requires 0 <= i < |d| => d[i].key)
  }

  lemma SetAbsent(d: Dict, key: string, value: string)
    requires !Has(d, key)
    ensures Set(d, key, value) == d + [Entry(key, value)]
  {
  }

  lemma SetDistinct(d: Dict, key: string, value: string)
    requires Distinct(d)
    ensures Distinct(Set(d, key, value)) && Has(Set(d, key, value), key)
  {
    var r := Set(d, key, value);
    if Has(d, key) {
      var i :| 0 <= i < |d| && d[i].key == key;
      assert r[i].key == key;
    } else {
      assert r[|d|].key == key;
    }
  }

  // --- One part of the field ---

  // str.partition at the first equals sign.
  function KeyOf(part: string): (key: string)
    ensures |key| <= |part|
  {
    if part == "" || part[0] == '=' then "" else [part[0]] + KeyOf(part[1..])
  }

  function ValueOf(part: string): string {
    if |KeyOf(part)| == |part| then "" else part[|KeyOf(part)| + 1..]
  }

  function Part(key: string, value: string): string {
    if value != "" then key + "=" + value else key
  }

  lemma {:induction false} KeyOfPart(key: string, rest: string)
    requires Without(key, '=') && (rest == "" || rest[0] == '=')
    ensures KeyOf(key + rest) == key
  {
    if key == "" {
      assert key + rest == rest;
    } else {
      KeyOfPart(key[1..], rest);
      assert (key + rest)[1..] == key[1..] + rest;
    }
  }

  lemma PartBack(key: string, value: string)
    requires Without(key, '=')
    ensures KeyOf(Part(key, value)) == key && ValueOf(Part(key, value)) == value
  {
    if value == "" {
      KeyOfPart(key, "");
      assert key + "" == key;
    } else {
      KeyOfPart(key, "=" + value);
      assert key + "=" + value == key + ("=" + value);
    }
  }

  lemma {:induction false} KeyOfIsPrefix(part: string)
    ensures Without(KeyOf(part), '=') && KeyOf(part) == part[..|KeyOf(part)|]
    ensures |KeyOf(part)| < |part| ==> part[|KeyOf(part)|] == '='
  {
    if part != "" && part[0] != '=' {
      KeyOfIsPrefix(part[1..]);
    }
  }

  // --- The field ---

  function ParsedParts(parts: seq<string>): Dict {
    if parts == [] then [] else
      var d, part := ParsedParts(parts[..|parts| - 1]), parts[|parts| - 1];
      if part == "" then d else Set(d, KeyOf(part), ValueOf(part))
  }

  function Parsed(raw: string): Dict {
    ParsedParts(Split(raw))
  }

  function Parts(d: Dict): (parts: seq<string>)
    ensures |parts| == |d| && forall i :: 0 <= i < |d| ==> parts[i] == Part(d[i].key, d[i].value)
  {
    seq(|d|, i requires 0 <= i < |d| => Part(d[i].key, d[i].value))
  }

  function Formatted(d: Dict): string {
    Joined(Parts(d))
  }

  method Partition(part: string) returns (key: string, value: string)
    ensures key == KeyOf(part) && value == ValueOf(part)
  {
    var i := 0;
    while i < |part| && part[i] != '='
      invariant i <= |part| && KeyOf(part) == part[..i] + KeyOf(part[i..])
    {
      assert part[..i + 1] == part[..i] + [part[i]];
      i := i + 1;
    }
    key := part[..i];
    assert KeyOf(part) == key + "";
    value := if i < |part| then part[i + 1..] else "";
  }

  method ParseRawMetrics(raw: string) returns (order: seq<string>, values: Dict)
    ensures values == Parsed(raw) && order == KeysOf(values)
  {
    hide KeyOf, ValueOf, Has;
    order, values := [], [];
    var parts := Split(raw);
    for i := 0 to |parts|
      invariant values == ParsedParts(parts[..i]) && order == KeysOf(values)
    {
      assert parts[..i + 1][..i] == parts[..i];
      if parts[i] != "" {
        var key, value := Partition(parts[i]);
        if !Has(values, key) {
          order := order + [key];
        }
        values := Set(values, key, value);
      }
    }
    assert parts[..|parts|] == parts;
  }

  // Keys that are not listed yet are added to the order; an order that starts the dictionary's becomes the whole.
  method FormatRawMetrics(order: seq<string>, d: Dict) returns (text: string, extended: seq<string>)
    requires Distinct(d) && order <= KeysOf(d)
    ensures extended == KeysOf(d) && text == Formatted(d)
  {
    extended := order;
    for i := 0 to |d|
      invariant extended == if i <= |order| then order else KeysOf(d)[..i]
    {
      if d[i].key !in extended {
        extended := extended + [d[i].key];
      }
    }
    var parts := [];
    for i := 0 to |extended|
      invariant parts == Parts(d)[..i]
    {
      parts := parts + [Part(extended[i], d[i].value)];
    }
    assert parts == Parts(d);
    text := Joined(parts);
  }

  // --- Printing and parsing are inverse ---

  // What parsing makes, and printing can show: names without separators, values without semicolons.
  ghost predicate Clean(d: Dict) {
    && Distinct(d)
    && (forall i :: 0 <= i < |d| ==> Without(d[i].key, '=') && Without(d[i].key, ';') && Without(d[i].value, ';'))
  }

  // An entry with an empty name and an empty value prints as nothing.
  const NAMELESS := Entry("", "")

  function Named(d: Dict): (r: Dict)
    ensures |r| <= |d|
  {
    if d == [] then [] else Named(d[..|d| - 1]) + if d[|d| - 1] == NAMELESS then [] else [d[|d| - 1]]
  }

  lemma {:induction false} NamedAppend(d: Dict, e: Entry)
    ensures Named(d + [e]) == if e == NAMELESS then Named(d) else Named(d) + [e]
    ensures NAMELESS in d + [e] <==> NAMELESS in d || e == NAMELESS
  {
    assert (d + [e])[..|d + [e]| - 1] == d;
  }

  lemma {:induction false} NamedHolds(d: Dict, e: Entry)
    ensures e in Named(d) <==> e in d && e != NAMELESS
  {
    if d != [] {
      NamedHolds(d[..|d| - 1], e);
      assert d == d[..|d| - 1] + [d[|d| - 1]];
    }
  }

  lemma {:induction false} NamedLength(d: Dict)
    ensures NAMELESS !in d ==> Named(d) == d
    ensures NAMELESS in d ==> |Named(d)| < |d|
  {
    if d != [] {
      hide Named;
      var front, last := d[..|d| - 1], d[|d| - 1];
      assert d == front + [last];
      NamedLength(front);
      NamedAppend(front, last);
    }
  }

  lemma {:induction false} NamedIsAll(d: Dict)
    ensures NAMELESS !in d ==> Named(d) == d
    ensures NAMELESS in d ==> |Named(d)| < |d|
    ensures forall e :: e in Named(d) <==> e in d && e != NAMELESS
  {
    hide Named;
    NamedLength(d);
    forall e ensures e in Named(d) <==> e in d && e != NAMELESS {
      NamedHolds(d, e);
    }
  }

  lemma PartIsClean(key: string, value: string)
    requires Without(key, ';') && Without(value, ';')
    ensures Without(Part(key, value), ';')
    ensures Part(key, value) == "" <==> key == "" && value == ""
  {
  }

  lemma {:induction false} NamedHas(d: Dict, key: string)
    ensures Has(Named(d), key) ==> Has(d, key)
  {
    NamedIsAll(d);
    if Has(Named(d), key) {
      var i :| 0 <= i < |Named(d)| && Named(d)[i].key == key;
      assert Named(d)[i] in d;
    }
  }

  lemma {:induction false} ParsedAppend(parts: seq<string>, part: string)
    ensures ParsedParts(parts + [part])
            == if part == "" then ParsedParts(parts) else Set(ParsedParts(parts), KeyOf(part), ValueOf(part))
  {
    assert (parts + [part])[..|parts|] == parts;
  }

  lemma CleanParts(front: Dict, last: Entry)
    requires Clean(front + [last])
    ensures Clean(front) && !Has(front, last.key)
    ensures Without(last.key, '=') && Without(last.key, ';') && Without(last.value, ';')
  {
    hide Without;
    var d := front + [last];
    assert forall i :: 0 <= i < |front| ==> front[i] == d[i];
    assert d[|front|] == last;
  }

  lemma PartsAppend(front: Dict, last: Entry)
    ensures Parts(front + [last]) == Parts(front) + [Part(last.key, last.value)]
  {
    hide Part;
  }

  lemma {:induction false} PrintedPartsParse(d: Dict)
    requires Clean(d)
    ensures ParsedParts(Parts(d)) == Named(d)
  {
    if d != [] {
      hide Without, Part, KeyOf, ValueOf, Clean, Parts, ParsedParts, Named, Has, Set;
      var front, last := d[..|d| - 1], d[|d| - 1];
      assert d == front + [last];
      CleanParts(front, last);
      PrintedPartsParse(front);
      PartBack(last.key, last.value);
      PartIsClean(last.key, last.value);
      PartsAppend(front, last);
      ParsedAppend(Parts(front), Part(last.key, last.value));
      NamedAppend(front, last);
      NamedHas(front, last.key);
      SetAbsent(Named(front), last.key, last.value);
    }
  }

  lemma SplitFormatted(d: Dict)
    requires Clean(d) && d != []
    ensures Split(Formatted(d)) == Parts(d)
  {
    hide Without, Part, Split, Joined;
    forall i | 0 <= i < |d| ensures Without(Parts(d)[i], ';') {
      PartIsClean(d[i].key, d[i].value);
    }
    SplitJoined(Parts(d));
  }

  /** A printed dictionary parses back to itself, names, values and order, but for the nameless empty entry. */
  lemma {:induction false} PrintedFieldParses(d: Dict)
    requires Clean(d)
    ensures Parsed(Formatted(d)) == Named(d)
    ensures NAMELESS !in d <==> Parsed(Formatted(d)) == d
  {
    hide Part, Clean, Named;
    NamedIsAll(d);
    if d != [] {
      SplitFormatted(d);
      PrintedPartsParse(d);
    }
  }

  lemma SetClean(d: Dict, key: string, value: string)
    requires Clean(d) && Without(key, '=') && Without(key, ';') && Without(value, ';')
    ensures Clean(Set(d, key, value))
  {
    hide Without, Has;
    SetDistinct(d, key, value);
  }

  lemma {:induction false} PartSemicolonFree(part: string)
    requires Without(part, ';')
    ensures Without(KeyOf(part), '=') && Without(KeyOf(part), ';') && Without(ValueOf(part), ';')
  {
    KeyOfIsPrefix(part);
  }

  lemma {:induction false} ParsedPartsClean(parts: seq<string>)
    requires forall i :: 0 <= i < |parts| ==> Without(parts[i], ';')
    ensures Clean(ParsedParts(parts))
  {
    if parts != [] {
      hide Clean, KeyOf, ValueOf, Without;
      ParsedPartsClean(parts[..|parts| - 1]);
      var part := parts[|parts| - 1];
      PartSemicolonFree(part);
      SetClean(ParsedParts(parts[..|parts| - 1]), KeyOf(part), ValueOf(part));
    }
  }

  lemma ParsedClean(raw: string)
    ensures Clean(Parsed(raw))
  {
    JoinedSplit(raw);
    ParsedPartsClean(Split(raw));
  }

  // A field as the writers print it: no empty part, no name twice, no equals sign without a value.
  predicate Canonical(parts: seq<string>) {
    && (forall i :: 0 <= i < |parts| ==> parts[i] != "" && |KeyOf(parts[i])| != |parts[i]| - 1)
    && (forall i, j :: 0 <= i < j < |parts| ==> KeyOf(parts[i]) != KeyOf(parts[j]))
  }

  lemma {:induction false} PartForth(part: string)
    requires |KeyOf(part)| != |part| - 1
    ensures Part(KeyOf(part), ValueOf(part)) == part
  {
    KeyOfIsPrefix(part);
    hide KeyOf;
    var n := |KeyOf(part)|;
    if n < |part| {
      assert part == part[..n] + "=" + part[n + 1..];
    }
  }

  lemma {:induction false} CanonicalPartsPrint(parts: seq<string>)
    requires Canonical(parts)
    ensures |ParsedParts(parts)| == |parts|
    ensures forall i :: 0 <= i < |parts| ==> ParsedParts(parts)[i] == Entry(KeyOf(parts[i]), ValueOf(parts[i]))
  {
    hide KeyOf, ValueOf;
    if parts != [] {
      var front, last := parts[..|parts| - 1], parts[|parts| - 1];
      CanonicalPartsPrint(front);
      SetAbsent(ParsedParts(front), KeyOf(last), ValueOf(last));
    }
  }

  /** A canonical field is printed back unchanged after parsing. */
  lemma {:induction false} ParsedFieldPrints(raw: string)
    requires Canonical(Split(raw))
    ensures Formatted(Parsed(raw)) == raw
  {
    hide KeyOf, ValueOf, Joined, Split, Part;
    var parts, d := Split(raw), Parsed(raw);
    CanonicalPartsPrint(parts);
    forall i | 0 <= i < |parts| ensures Parts(d)[i] == parts[i] {
      PartForth(parts[i]);
    }
    assert Parts(d) == parts;
    JoinedSplit(raw);
  }

  // --- Merging probe totals ---

  function SetAll(d: Dict, entries: seq<Entry>): Dict {
    if entries == [] then d
    else Set(SetAll(d, entries[..|entries| - 1]), entries[|entries| - 1].key, entries[|entries| - 1].value)
  }

  // The entries whose names are not among those set.
  function Others(d: Dict, names: set<string>): Dict {
    if d == [] then [] else Others(d[..|d| - 1], names) + if d[|d| - 1].key in names then [] else [d[|d| - 1]]
  }

  lemma {:induction false} OthersPointwise(d: Dict, r: Dict, names: set<string>)
    requires |d| == |r| && forall i :: 0 <= i < |d| ==> d[i] == r[i] || (d[i].key in names && r[i].key in names)
    ensures Others(d, names) == Others(r, names)
  {
    if d != [] {
      OthersPointwise(d[..|d| - 1], r[..|r| - 1], names);
    }
  }

  lemma {:induction false} SetKeepsOthers(d: Dict, key: string, value: string, names: set<string>)
    requires key in names
    ensures Others(Set(d, key, value), names) == Others(d, names)
  {
    hide Has;
    var r := Set(d, key, value);
    OthersPointwise(d, r[..|d|], names);
    if |r| > |d| {
      assert r[..|r| - 1] == r[..|d|];
    } else {
      assert r[..|d|] == r;
    }
  }

  // Every other metric keeps its value and its place among the others.
  lemma {:induction false} SetAllKeepsOthers(d: Dict, entries: seq<Entry>, names: set<string>)
    requires forall i :: 0 <= i < |entries| ==> entries[i].key in names
    ensures Others(SetAll(d, entries), names) == Others(d, names)
  {
    hide Set;
    if entries != [] {
      SetAllKeepsOthers(d, entries[..|entries| - 1], names);
      SetKeepsOthers(SetAll(d, entries[..|entries| - 1]), entries[|entries| - 1].key,
                     entries[|entries| - 1].value, names);
    }
  }

  lemma SetHolds(d: Dict, key: string, value: string, e: Entry)
    ensures Entry(key, value) in Set(d, key, value)
    ensures e in d && e.key != key ==> e in Set(d, key, value)
    ensures e in Set(d, key, value) ==> e in d || e == Entry(key, value)
  {
    var r := Set(d, key, value);
    if Has(d, key) {
      var i :| 0 <= i < |d| && d[i].key == key;
      assert r[i] == Entry(key, value);
    } else {
      assert r[|d|] == Entry(key, value);
    }
    if e in d && e.key != key {
      var i :| 0 <= i < |d| && d[i] == e;
      assert r[i] == e;
    }
  }

  lemma {:induction false} SetAllHolds(d: Dict, entries: seq<Entry>, e: Entry)
    requires Distinct(entries)
    ensures e in entries ==> e in SetAll(d, entries)
    ensures e in d && !Has(entries, e.key) ==> e in SetAll(d, entries)
    ensures e in SetAll(d, entries) ==> e in d || e in entries
  {
    hide Set;
    if entries != [] {
      var front, last := entries[..|entries| - 1], entries[|entries| - 1];
      SetAllHolds(d, front, e);
      SetHolds(SetAll(d, front), last.key, last.value, e);
      assert entries == front + [last];
    }
  }

  // Setting what is there changes nothing.
  lemma SetSame(d: Dict, e: Entry)
    requires Distinct(d) && e in d
    ensures Set(d, e.key, e.value) == d
  {
    var i :| 0 <= i < |d| && d[i] == e;
    assert Has(d, e.key);
  }

  lemma {:induction false} SetAllSame(d: Dict, entries: seq<Entry>)
    requires Distinct(d) && forall e :: e in entries ==> e in d
    ensures SetAll(d, entries) == d
  {
    hide Set;
    if entries != [] {
      assert entries[|entries| - 1] in entries;
      SetAllSame(d, entries[..|entries| - 1]);
      SetSame(d, entries[|entries| - 1]);
    }
  }

  lemma {:induction false} SetAllClean(d: Dict, entries: seq<Entry>)
    requires Clean(d) && Clean(entries)
    ensures Clean(SetAll(d, entries))
  {
    if entries != [] {
      hide Set, Without, Distinct;
      assert Clean(entries[..|entries| - 1]) by {
        FrontClean(entries);
      }
      SetAllClean(d, entries[..|entries| - 1]);
      SetClean(SetAll(d, entries[..|entries| - 1]), entries[|entries| - 1].key, entries[|entries| - 1].value);
    }
  }

  lemma FrontClean(d: Dict)
    requires Clean(d) && d != []
    ensures Clean(d[..|d| - 1])
  {
    hide Without;
  }

  lemma {:induction false} NamedClean(d: Dict)
    requires Clean(d)
    ensures Clean(Named(d))
  {
    PrintedPartsParse(d);
    forall i | 0 <= i < |d| ensures Without(Parts(d)[i], ';') {
      PartIsClean(d[i].key, d[i].value);
    }
    ParsedPartsClean(Parts(d));
  }

  // A field with some named entries set.
  function Merged(raw: string, entries: seq<Entry>): string {
    Formatted(SetAll(Parsed(raw), entries))
  }

  // What is parsed from a merged field: the old entries with the new ones set, but for a nameless empty one.
  lemma {:induction false} MergedParses(raw: string, entries: seq<Entry>)
    requires Clean(entries)
    ensures Clean(SetAll(Parsed(raw), entries))
    ensures Parsed(Merged(raw, entries)) == Named(SetAll(Parsed(raw), entries))
  {
    hide Parsed, Formatted, Clean, Named, SetAll;
    ParsedClean(raw);
    SetAllClean(Parsed(raw), entries);
    PrintedFieldParses(SetAll(Parsed(raw), entries));
  }

  /** Merging the same entries twice is merging them once, if and only if the field has no nameless empty metric, which
      is what a bare equals sign parses to. */
  lemma MergeIsIdempotent(raw: string, entries: seq<Entry>)
    requires Clean(entries) && entries != [] && forall i :: 0 <= i < |entries| ==> entries[i].key != ""
    ensures Merged(Merged(raw, entries), entries) == Merged(raw, entries) <==> NAMELESS !in Parsed(raw)
  {
    hide Parsed, Formatted, Named, SetAll, Without, Set;
    var d := SetAll(Parsed(raw), entries);
    MergedParses(raw, entries);
    NamedIsAll(d);
    NamedClean(d);
    forall e | e in entries ensures e in Named(d) {
      SetAllHolds(Parsed(raw), entries, e);
    }
    SetAllSame(Named(d), entries);
    SetAllHolds(Parsed(raw), entries, NAMELESS);
    assert NAMELESS in d <==> NAMELESS in Parsed(raw);
    if NAMELESS in d {
      assert entries[0] in Named(d);
      SplitFormatted(d);
      SplitFormatted(Named(d));
    }
  }

  lemma {:induction false} OthersAppend(d: Dict, e: Entry, names: set<string>)
    ensures Others(d + [e], names) == if e.key in names then Others(d, names) else Others(d, names) + [e]
  {
    assert (d + [e])[..|d + [e]| - 1] == d;
  }

  lemma {:induction false} OthersNamed(d: Dict, names: set<string>)
    ensures Others(Named(d), names) == Named(Others(d, names))
  {
    if d != [] {
      var front, last := d[..|d| - 1], d[|d| - 1];
      assert d == front + [last];
      hide Named, Others;
      OthersNamed(front, names);
      NamedAppend(front, last);
      OthersAppend(front, last, names);
      OthersAppend(Named(front), last, names);
      NamedAppend(Others(front, names), last);
    }
  }

  /** Every metric that is not set keeps its value and its place among the others; only a nameless empty one goes. */
  lemma {:induction false} MergeKeepsOthers(raw: string, entries: seq<Entry>, names: set<string>)
    requires Clean(entries) && (forall i :: 0 <= i < |entries| ==> entries[i].key in names)
    ensures Others(Parsed(Merged(raw, entries)), names) == Named(Others(Parsed(raw), names))
    ensures NAMELESS !in Parsed(raw) ==> Others(Parsed(Merged(raw, entries)), names) == Others(Parsed(raw), names)
  {
    hide Parsed, Merged, Without, Set, SetAll;
    MergedParses(raw, entries);
    SetAllKeepsOthers(Parsed(raw), entries, names);
    OthersNamed(SetAll(Parsed(raw), entries), names);
    OthersNamed(Parsed(raw), names);
    NamedIsAll(Parsed(raw));
  }

  // --- A launch's probe bytes ---

  datatype Totals = Totals(records: nat, ldGlobal: nat, stGlobal: nat, cpAsync: nat) {
    function ReadBytes(): nat { ldGlobal + cpAsync }
    function WriteBytes(): nat { stGlobal }
  }

  datatype Record = Record(ldGlobal: nat, stGlobal: nat, cpAsync: nat)

  class ProbeByteRow {
    var ldGlobalBytes: nat
    var stGlobalBytes: nat
    var cpAsyncBytes: nat
    var records: nat

    function Value(): Totals reads this {
      Totals(records, ldGlobalBytes, stGlobalBytes, cpAsyncBytes)
    }

    method Add(record: Record)
      modifies this
      ensures Value() == Totals(old(records) + 1, old(ldGlobalBytes) + record.ldGlobal,
                                old(stGlobalBytes) + record.stGlobal, old(cpAsyncBytes) + record.cpAsync)
    {
      ldGlobalBytes := ldGlobalBytes + record.ldGlobal;
      stGlobalBytes := stGlobalBytes + record.stGlobal;
      cpAsyncBytes := cpAsyncBytes + record.cpAsync;
      records := records + 1;
    }
  }

  function Decimal(n: nat): (text: string)
    ensures text != "" && Without(text, ';')
  {
    var digit := "0123456789"[n % 10];
    if n < 10 then [digit] else Decimal(n / 10) + [digit]
  }

  function ProbeEntries(t: Totals): seq<Entry> {
    [Entry("fabricperf_probe_backend", "neutrino_probe"),
     Entry("probe_merge_key", "launch_index"),
     Entry("probe_records", Decimal(t.records)),
     Entry("probe_ld_global_bytes", Decimal(t.ldGlobal)),
     Entry("probe_st_global_bytes", Decimal(t.stGlobal)),
     Entry("probe_cp_async_bytes", Decimal(t.cpAsync)),
     Entry("probe_read_bytes", Decimal(t.ReadBytes())),
     Entry("probe_write_bytes", Decimal(t.WriteBytes()))]
  }

  predicate IsName(s: string) {
    s != "" && Without(s, '=') && Without(s, ';')
  }

  lemma FirstProbeNames()
    ensures IsName("fabricperf_probe_backend") && IsName("probe_merge_key")
    ensures IsName("probe_records") && IsName("probe_read_bytes")
  {
  }

  lemma LastProbeNames()
    ensures IsName("probe_ld_global_bytes") && IsName("probe_st_global_bytes")
    ensures IsName("probe_cp_async_bytes") && IsName("probe_write_bytes")
  {
  }

  lemma ProbeNames(t: Totals)
    ensures forall i :: 0 <= i < 8 ==> IsName(ProbeEntries(t)[i].key)
  {
    hide Decimal, IsName;
    FirstProbeNames();
    LastProbeNames();
  }

  lemma ProbeNamesDiffer(t: Totals)
    ensures Distinct(ProbeEntries(t))
  {
    hide Decimal;
    assert "probe_ld_global_bytes"[6] != "probe_st_global_bytes"[6];
  }

  lemma ProbeEntriesAreClean(t: Totals)
    ensures Clean(ProbeEntries(t)) && |ProbeEntries(t)| == 8 && forall i :: 0 <= i < 8 ==> ProbeEntries(t)[i].key != ""
  {
    hide Decimal;
    ProbeNames(t);
    ProbeNamesDiffer(t);
    ProbeValues(t);
  }

  lemma ProbeValues(t: Totals)
    ensures forall i :: 0 <= i < 8 ==> Without(ProbeEntries(t)[i].value, ';')
  {
    hide Decimal;
    assert Without("neutrino_probe", ';') && Without("launch_index", ';');
  }

  // --- A row of the CSV ---

  type Fields = map<string, string>

  // What `bps_from_bytes` prints for a byte count and the text of a duration, if there is one.
  type Rate = (nat, Option<string>) -> string

  function Get(fields: Fields, name: string): Option<string> {
    if name in fields then Some(fields[name]) else None
  }

  function RawOf(fields: Fields): string {
    if "raw_metrics" in fields then fields["raw_metrics"] else ""
  }

  function MergedFields(fields: Fields, t: Totals, rate: Rate): Fields {
    var read, write := rate(t.ReadBytes(), Get(fields, "duration_s")), rate(t.WriteBytes(), Get(fields, "duration_s"));
    fields["dram_read_Bps" := read]["dram_write_Bps" := write]["xbar_read_Bps" := read]["xbar_write_Bps" := write]
          ["xbar_metric" := "fabricperf_probe_read_bytes"]["xbar_value" := Decimal(t.ReadBytes())]
          ["raw_metrics" := Merged(RawOf(fields), ProbeEntries(t))]
  }

  class Row {
    var fields: Fields
  }

  method MergeProbeBytesIntoRow(row: Row, probe: ProbeByteRow, rate: Rate) returns (merged: bool)
    modifies row
    ensures merged && row.fields == MergedFields(old(row.fields), probe.Value(), rate)
  {
    var t := probe.Value();
    var duration := Get(row.fields, "duration_s");
    var order, raw := ParseRawMetrics(RawOf(row.fields));
    ParsedClean(RawOf(row.fields));
    var read, write := rate(t.ReadBytes(), duration), rate(t.WriteBytes(), duration);
    row.fields := row.fields["dram_read_Bps" := read];
    row.fields := row.fields["dram_write_Bps" := write];
    row.fields := row.fields["xbar_read_Bps" := read];
    row.fields := row.fields["xbar_write_Bps" := write];
    row.fields := row.fields["xbar_metric" := "fabricperf_probe_read_bytes"];
    row.fields := row.fields["xbar_value" := Decimal(t.ReadBytes())];
    var all := SetEntries(raw, ProbeEntries(t));
    ProbeEntriesAreClean(t);
    SetAllClean(raw, ProbeEntries(t));
    SetAllExtends(raw, ProbeEntries(t));
    var text, extended := FormatRawMetrics(order, all);
    row.fields := row.fields["raw_metrics" := text];
    merged := true;
  }

  method SetEntries(d: Dict, entries: seq<Entry>) returns (r: Dict)
    ensures r == SetAll(d, entries)
  {
    r := d;
    for i := 0 to |entries|
      invariant r == SetAll(d, entries[..i])
    {
      assert entries[..i + 1][..i] == entries[..i];
      r := Set(r, entries[i].key, entries[i].value);
    }
    assert entries[..|entries|] == entries;
  }

  lemma {:induction false} SetAllExtends(d: Dict, entries: seq<Entry>)
    ensures KeysOf(d) <= KeysOf(SetAll(d, entries))
  {
    if entries != [] {
      SetAllExtends(d, entries[..|entries| - 1]);
      SetExtends(SetAll(d, entries[..|entries| - 1]), entries[|entries| - 1].key, entries[|entries| - 1].value);
    }
  }

  lemma SetExtends(d: Dict, key: string, value: string)
    ensures KeysOf(d) <= KeysOf(Set(d, key, value))
  {
    hide Has;
    assert KeysOf(Set(d, key, value))[..|d|] == KeysOf(d);
  }

  /** Merging a launch's totals into a row twice gives the row of merging them once, if and only if its raw metrics have
      no nameless empty entry. */
  lemma MergingARowTwice(fields: Fields, t: Totals, rate: Rate)
    ensures var once := MergedFields(fields, t, rate);
            MergedFields(once, t, rate) == once <==> NAMELESS !in Parsed(RawOf(fields))
  {
    hide Merged, ProbeEntries, Parsed, Decimal;
    var once := MergedFields(fields, t, rate);
    var twice := MergedFields(once, t, rate);
    ProbeEntriesAreClean(t);
    MergeIsIdempotent(RawOf(fields), ProbeEntries(t));
    assert RawOf(once) == Merged(RawOf(fields), ProbeEntries(t));
    assert twice["raw_metrics"] == Merged(RawOf(once), ProbeEntries(t));
    assert Get(once, "duration_s") == Get(fields, "duration_s");
  }
}
