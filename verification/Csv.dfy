/** The CSV rows of memory.cc against the grammar of section 2 of RFC 4180, with a line feed as the line break. */
module Csv {
  import opened Options

  // Characters that end or forbid a plain field.
  predicate Special(c: char) {
    c == ',' || c == '"' || c == '\n' || c == '\r'
  }

  predicate Plain(s: string) {
    forall i :: 0 <= i < |s| ==> !Special(s[i])
  }

  // --- The writer ---

  function Doubled(s: string): string {
    if s == "" then ""
    else Doubled(s[..|s| - 1]) + (if s[|s| - 1] == '"' then "\"\"" else [s[|s| - 1]])
  }

  function Quoted(s: string): string {
    "\"" + Doubled(s) + "\""
  }

  function Escaped(s: string): string {
    if Plain(s) then s else Quoted(s)
  }

  // What fputs writes: a C string ends at its first NUL.
  function UpToNul(s: string): string {
    if s == "" || s[0] == '\0' then "" else [s[0]] + UpToNul(s[1..])
  }

  // Texts with commas between them.
  function Joined(texts: seq<string>): string {
    if texts == [] then ""
    else Joined(texts[..|texts| - 1]) + (if |texts| > 1 then "," else "") + texts[|texts| - 1]
  }

  function FieldTexts(fields: seq<string>): (texts: seq<string>)
    ensures |texts| == |fields| && forall i :: 0 <= i < |fields| ==> texts[i] == UpToNul(Escaped(fields[i]))
  {
    if fields == [] then [] else FieldTexts(fields[..|fields| - 1]) + [UpToNul(Escaped(fields[|fields| - 1]))]
  }

  function RowText(fields: seq<string>): string {
    Joined(FieldTexts(fields)) + "\n"
  }

  lemma JoinedNext(fields: seq<string>, i: nat)
    requires i < |fields|
    ensures Joined(FieldTexts(fields[..i + 1]))
            == Joined(FieldTexts(fields[..i])) + (if i != 0 then "," else "") + UpToNul(Escaped(fields[i]))
  {
    hide Escaped, UpToNul;
    assert fields[..i + 1][..i] == fields[..i];
    var texts := FieldTexts(fields[..i + 1]);
    assert texts[..|texts| - 1] == FieldTexts(fields[..i]);
  }

  method NeedsQuotes(value: string) returns (quote: bool)
    ensures quote <==> !Plain(value)
  {
    for i := 0 to |value|
      invariant Plain(value[..i])
    {
      if value[i] == ',' || value[i] == '"' || value[i] == '\n' || value[i] == '\r' {
        return true;
      }
    }
    quote := false;
  }

  method CsvEscape(value: string) returns (out: string)
    ensures out == Escaped(value)
  {
    var quote := NeedsQuotes(value);
    if !quote {
      return value;
    }
    out := "\"";
    for i := 0 to |value|
      invariant out == "\"" + Doubled(value[..i])
    {
      assert value[..i + 1][..i] == value[..i];
      if value[i] == '"' {
        out := out + "\"\"";
      } else {
        out := out + [value[i]];
      }
    }
    assert value[..|value|] == value;
    out := out + "\"";
  }

  lemma NoTexts()
    ensures Joined(FieldTexts([])) == ""
  {
  }

  class CsvFile {
    var text: string

    method Puts(s: string)
      modifies this
      ensures text == old(text) + UpToNul(s)
    {
      var i := 0;
      while i < |s| && s[i] != '\0'
        invariant i <= |s| && text + UpToNul(s[i..]) == old(text) + UpToNul(s)
      {
        text := text + [s[i]];
        i := i + 1;
      }
    }

    method WriteRow(fields: seq<string>)
      modifies this
      ensures text == old(text) + RowText(fields)
    {
      hide Joined, FieldTexts, Escaped, UpToNul;
      NoTexts();
      for i := 0 to |fields|
        invariant text == old(text) + Joined(FieldTexts(fields[..i]))
      {
        JoinedNext(fields, i);
        if i != 0 {
          text := text + ",";
        }
        var escaped := CsvEscape(fields[i]);
        Puts(escaped);
      }
      assert fields[..|fields|] == fields;
      text := text + "\n";
    }
  }

  // --- The grammar, as a reader ---

  datatype Read<T> = Read(value: T, rest: string)

  // *TEXTDATA: everything up to the next special character.
  function ReadPlain(s: string): Read<string> {
    if s == "" || Special(s[0]) then Read("", s)
    else var r := ReadPlain(s[1..]); Read([s[0]] + r.value, r.rest)
  }

  // Behind the opening quote: text with doubled quotes, then the closing quote.
  function ReadQuoted(s: string): Option<Read<string>> {
    if s == "" then None
    else if s[0] == '"' && (|s| == 1 || s[1] != '"') then Some(Read("", s[1..]))
    else
      match ReadQuoted(if s[0] == '"' then s[2..] else s[1..])
      case None => None
      case Some(r) => Some(Read([s[0]] + r.value, r.rest))
  }

  function ReadField(s: string): Option<Read<string>> {
    if s != "" && s[0] == '"' then ReadQuoted(s[1..]) else Some(ReadPlain(s))
  }

  lemma {:induction false} ReadQuotedShrinks(s: string)
    ensures ReadQuoted(s).Some? ==> |ReadQuoted(s).value.rest| < |s|
  {
    if s != "" && !(s[0] == '"' && (|s| == 1 || s[1] != '"')) {
      ReadQuotedShrinks(if s[0] == '"' then s[2..] else s[1..]);
    }
  }

  lemma {:induction false} ReadPlainShrinks(s: string)
    ensures |ReadPlain(s).rest| <= |s|
  {
    if s != "" && !Special(s[0]) {
      ReadPlainShrinks(s[1..]);
    }
  }

  lemma ReadFieldShrinks(s: string)
    ensures ReadField(s).Some? ==> |ReadField(s).value.rest| <= |s|
  {
    if s != "" {
      ReadQuotedShrinks(s[1..]);
    }
    ReadPlainShrinks(s);
  }

  // field *(COMMA field), and the line break if there is one.
  function ReadRecord(s: string): Option<Read<seq<string>>>
    decreases |s|
  {
    match ReadField(s)
    case None => None
    case Some(f) => (
      ReadFieldShrinks(s);
      if f.rest == "" then Some(Read([f.value], ""))
      else if f.rest[0] == '\n' then Some(Read([f.value], f.rest[1..]))
      else if f.rest[0] != ',' then None
      else
        match ReadRecord(f.rest[1..])
        case None => None
        case Some(r) => Some(Read([f.value] + r.value, r.rest)))
  }

  lemma {:induction false} ReadRecordShrinks(s: string)
    requires s != ""
    ensures ReadRecord(s).Some? ==> |ReadRecord(s).value.rest| < |s|
    decreases |s|
  {
    ReadFieldShrinks(s);
    if s[0] == '"' {
      ReadQuotedShrinks(s[1..]);
    } else if !Special(s[0]) {
      ReadPlainShrinks(s[1..]);
    }
    var f := ReadField(s);
    if f.Some? && f.value.rest != "" && f.value.rest[0] == ',' && f.value.rest[1..] != "" {
      ReadRecordShrinks(f.value.rest[1..]);
    }
  }

  function ReadFile(s: string): Option<seq<seq<string>>>
    decreases |s|
  {
    if s == "" then Some([])
    else
      match ReadRecord(s)
      case None => None
      case Some(r) => (
        ReadRecordShrinks(s);
        match ReadFile(r.rest)
        case None => None
        case Some(more) => Some([r.value] + more))
  }

  // --- Reading back ---

  predicate NulFree(s: string) {
    forall i :: 0 <= i < |s| ==> s[i] != '\0'
  }

  lemma {:induction false} UpToNulAll(s: string)
    requires NulFree(s)
    ensures UpToNul(s) == s
  {
    if s != "" {
      UpToNulAll(s[1..]);
    }
  }

  lemma {:induction false} DoubledNulFree(s: string)
    requires NulFree(s)
    ensures NulFree(Doubled(s))
  {
    if s != "" {
      DoubledNulFree(s[..|s| - 1]);
    }
  }

  lemma {:induction false} DoubledFront(s: string)
    requires s != ""
    ensures Doubled(s) == (if s[0] == '"' then "\"\"" else [s[0]]) + Doubled(s[1..])
  {
    if |s| > 1 {
      DoubledFront(s[..|s| - 1]);
      assert s[..|s| - 1][1..] == s[1..][..|s| - 2];
    }
  }

  lemma {:induction false} JoinedFront(texts: seq<string>)
    requires |texts| > 1
    ensures Joined(texts) == texts[0] + "," + Joined(texts[1..])
  {
    var n := |texts| - 1;
    if n == 1 {
      assert texts[..1][..0] == [] && texts[1..][..0] == [];
    } else {
      JoinedFront(texts[..n]);
      assert texts[..n][1..] == texts[1..][..n - 1];
      assert texts[1..][n - 1] == texts[n];
    }
  }

  // A text stands for a field: the field itself, if plain, or its quoted form.
  predicate Encodes(text: string, field: string) {
    (text == field && Plain(field)) || text == Quoted(field)
  }

  predicate EncodesAll(texts: seq<string>, fields: seq<string>) {
    |texts| == |fields| && forall i :: 0 <= i < |texts| ==> Encodes(texts[i], fields[i])
  }

  predicate EndsField(rest: string) {
    rest == "" || rest[0] == ',' || rest[0] == '\n'
  }

  lemma {:induction false} ReadQuotedBack(field: string, rest: string)
    requires rest == "" || rest[0] != '"'
    ensures ReadQuoted(Doubled(field) + "\"" + rest) == Some(Read(field, rest))
  {
    var s := Doubled(field) + "\"" + rest;
    if field == "" {
      assert s[1..] == rest;
    } else {
      DoubledFront(field);
      ReadQuotedBack(field[1..], rest);
      var tail := Doubled(field[1..]) + "\"" + rest;
      assert s == (if field[0] == '"' then "\"\"" else [field[0]]) + tail;
      assert (if field[0] == '"' then s[2..] else s[1..]) == tail;
      assert field == [field[0]] + field[1..];
    }
  }

  lemma {:induction false} ReadPlainBack(field: string, rest: string)
    requires Plain(field) && EndsField(rest)
    ensures ReadPlain(field + rest) == Read(field, rest)
  {
    if field == "" {
      assert field + rest == rest;
    } else {
      ReadPlainBack(field[1..], rest);
      assert (field + rest)[1..] == field[1..] + rest;
      assert field == [field[0]] + field[1..];
    }
  }

  lemma ReadFieldBack(text: string, field: string, rest: string)
    requires Encodes(text, field) && EndsField(rest)
    ensures ReadField(text + rest) == Some(Read(field, rest))
  {
    hide ReadPlain, ReadQuoted, Doubled;
    if text == Quoted(field) {
      ReadQuotedBack(field, rest);
      assert (text + rest)[1..] == Doubled(field) + "\"" + rest;
    } else {
      ReadPlainBack(field, rest);
      assert field != "" ==> !Special(field[0]);
    }
  }

  /** Whatever text the grammar allows for a list of fields, the reader returns those fields. */
  lemma {:induction false} ReadRecordBack(texts: seq<string>, fields: seq<string>, tail: string)
    requires |fields| > 0 && EncodesAll(texts, fields)
    ensures ReadRecord(Joined(texts) + "\n" + tail) == Some(Read(fields, tail))
    decreases |fields|
  {
    hide ReadField, Encodes;
    var s := Joined(texts) + "\n" + tail;
    if |fields| == 1 {
      var rest := "\n" + tail;
      assert texts[..0] == [] && s == texts[0] + rest;
      ReadFieldBack(texts[0], fields[0], rest);
      assert rest[1..] == tail && fields == [fields[0]];
    } else {
      var more := Joined(texts[1..]) + "\n" + tail;
      JoinedFront(texts);
      assert s == texts[0] + ("," + more);
      ReadFieldBack(texts[0], fields[0], "," + more);
      assert ("," + more)[1..] == more;
      ReadRecordBack(texts[1..], fields[1..], tail);
      assert fields == [fields[0]] + fields[1..];
    }
  }

  lemma WrittenFieldEncodes(field: string)
    requires NulFree(field)
    ensures Encodes(UpToNul(Escaped(field)), field)
  {
    DoubledNulFree(field);
    UpToNulAll(Escaped(field));
  }

  function FileText(rows: seq<seq<string>>): string {
    if rows == [] then "" else RowText(rows[0]) + FileText(rows[1..])
  }

  /** A file of written rows reads back as exactly those rows: any number of rows of at least one field each, with any
      characters but NUL in the fields. */
  lemma {:induction false} WrittenRowsReadBack(rows: seq<seq<string>>)
    requires forall r :: 0 <= r < |rows| ==> |rows[r]| > 0 && forall i :: 0 <= i < |rows[r]| ==> NulFree(rows[r][i])
    ensures ReadFile(FileText(rows)) == Some(rows)
  {
    hide Joined, ReadRecord, UpToNul, Escaped, Encodes;
    if rows != [] {
      var texts, rest := FieldTexts(rows[0]), FileText(rows[1..]);
      forall i | 0 <= i < |texts| ensures Encodes(texts[i], rows[0][i]) {
        WrittenFieldEncodes(rows[0][i]);
      }
      ReadRecordBack(texts, rows[0], rest);
      assert FileText(rows) == Joined(texts) + "\n" + rest;
      WrittenRowsReadBack(rows[1..]);
      assert rows == [rows[0]] + rows[1..];
    }
  }

  // --- The reader is the grammar ---

  lemma {:induction false} ReadPlainIsPlain(s: string)
    ensures var r := ReadPlain(s); Plain(r.value) && s == r.value + r.rest
  {
    if s != "" && !Special(s[0]) {
      ReadPlainIsPlain(s[1..]);
    }
  }

  // The first character of quoted text, doubled or not, and the rest.
  lemma ReadQuotedFront(s: string) returns (head: string, tail: string)
    requires ReadQuoted(s).Some? && !(s[0] == '"' && (|s| == 1 || s[1] != '"'))
    ensures s == head + tail && |tail| < |s| && head == if s[0] == '"' then "\"\"" else [s[0]]
    ensures ReadQuoted(tail).Some?
    ensures ReadQuoted(s).value == Read([s[0]] + ReadQuoted(tail).value.value, ReadQuoted(tail).value.rest)
  {
    head, tail := if s[0] == '"' then "\"\"" else [s[0]], if s[0] == '"' then s[2..] else s[1..];
  }

  lemma {:induction false} QuotedGrows(c: char, head: string, v: string, rest: string)
    requires head == if c == '"' then "\"\"" else [c]
    ensures Doubled([c] + v) + "\"" + rest == head + (Doubled(v) + "\"" + rest)
  {
    hide Doubled;
    DoubledFront([c] + v);
    assert ([c] + v)[1..] == v;
  }

  lemma {:induction false} ReadQuotedIsQuoted(s: string)
    requires ReadQuoted(s).Some?
    ensures var r := ReadQuoted(s).value; s == Doubled(r.value) + "\"" + r.rest
  {
    if s[0] == '"' && (|s| == 1 || s[1] != '"') {
      assert s == "\"" + s[1..];
    } else {
      var head, tail := ReadQuotedFront(s);
      hide Doubled, ReadQuoted;
      ReadQuotedIsQuoted(tail);
      var t := ReadQuoted(tail).value;
      QuotedGrows(s[0], head, t.value, t.rest);
    }
  }

  lemma ReadFieldIsGrammar(s: string) returns (text: string)
    requires ReadField(s).Some?
    ensures Encodes(text, ReadField(s).value.value) && s == text + ReadField(s).value.rest
  {
    hide ReadPlain, ReadQuoted, Doubled;
    if s != "" && s[0] == '"' {
      ReadQuotedIsQuoted(s[1..]);
      text := Quoted(ReadField(s).value.value);
      assert s == "\"" + s[1..];
    } else {
      ReadPlainIsPlain(s);
      text := ReadPlain(s).value;
    }
  }

  lemma JoinedOne(text: string)
    ensures Joined([text]) == text
  {
    assert [text][..0] == [];
  }

  /** Conversely, what the reader accepts as a record is text that the grammar allows for the fields it returns. */
  lemma {:induction false} ReadRecordIsGrammar(s: string) returns (texts: seq<string>)
    requires ReadRecord(s).Some?
    ensures var r := ReadRecord(s).value;
            && EncodesAll(texts, r.value) && |texts| > 0
            && (s == Joined(texts) + "\n" + r.rest || (r.rest == "" && s == Joined(texts)))
    decreases |s|
  {
    hide ReadField, Encodes, Joined;
    var f := ReadField(s).value;
    var text := ReadFieldIsGrammar(s);
    texts := [text];
    JoinedOne(text);
    if f.rest != "" && f.rest[0] == '\n' {
      assert f.rest == "\n" + f.rest[1..];
    } else if f.rest != "" {
      ReadFieldShrinks(s);
      var more := ReadRecordIsGrammar(f.rest[1..]);
      texts := [text] + more;
      JoinedFront(texts);
      assert texts[1..] == more && f.rest == "," + f.rest[1..];
    }
  }

  // --- What the writer does to a field ---

  // The characters that make the writer quote a field.
  predicate NeedsQuote(c: char) {
    c in {',', '"', '\n', '\r'}
  }

  function QuotesIn(s: string): nat {
    if s == "" then 0 else QuotesIn(s[..|s| - 1]) + if s[|s| - 1] == '"' then 1 else 0
  }

  lemma {:induction false} DoubledLength(s: string)
    ensures |Doubled(s)| == |s| + QuotesIn(s)
  {
    if s != "" {
      DoubledLength(s[..|s| - 1]);
    }
  }

  /** A field is left as it is exactly if it has no comma, quote, CR or LF. Any other is put between quotes, with one
      more character for each quote in it. */
  lemma {:induction false} EscapedTells(s: string)
    ensures if forall i :: 0 <= i < |s| ==> !NeedsQuote(s[i]) then Escaped(s) == s
            else && |Escaped(s)| == |s| + QuotesIn(s) + 2
                 && Escaped(s)[0] == '"' && Escaped(s)[|Escaped(s)| - 1] == '"'
  {
    DoubledLength(s);
    assert forall c :: Special(c) <==> NeedsQuote(c);
  }

  /** What fputs writes of a string is all of it up to its first NUL. */
  lemma {:induction false} UpToNulTells(s: string)
    ensures var t := UpToNul(s);
            NulFree(t) && |t| <= |s| && t == s[..|t|] && (|t| < |s| ==> s[|t|] == '\0')
  {
    if s != "" && s[0] != '\0' {
      UpToNulTells(s[1..]);
    }
  }

  // --- Fields with NUL never read back ---

  lemma {:induction false} ReadPlainNul(s: string)
    requires NulFree(s)
    ensures NulFree(ReadPlain(s).value) && NulFree(ReadPlain(s).rest)
  {
    if s != "" && !Special(s[0]) {
      ReadPlainNul(s[1..]);
    }
  }

  lemma {:induction false} ReadQuotedNul(s: string)
    requires NulFree(s) && ReadQuoted(s).Some?
    ensures NulFree(ReadQuoted(s).value.value) && NulFree(ReadQuoted(s).value.rest)
  {
    if !(s[0] == '"' && (|s| == 1 || s[1] != '"')) {
      ReadQuotedNul(if s[0] == '"' then s[2..] else s[1..]);
    }
  }

  lemma ReadFieldNul(s: string)
    requires NulFree(s) && ReadField(s).Some?
    ensures NulFree(ReadField(s).value.value) && NulFree(ReadField(s).value.rest)
  {
    hide ReadPlain, ReadQuoted;
    if s != "" && s[0] == '"' {
      ReadQuotedNul(s[1..]);
    } else {
      ReadPlainNul(s);
    }
  }

  predicate AllNulFree(fields: seq<string>) {
    forall i :: 0 <= i < |fields| ==> NulFree(fields[i])
  }

  lemma {:induction false} ReadRecordNul(s: string)
    requires NulFree(s) && ReadRecord(s).Some?
    ensures AllNulFree(ReadRecord(s).value.value) && NulFree(ReadRecord(s).value.rest)
    decreases |s|
  {
    hide ReadField;
    var f := ReadField(s).value;
    ReadFieldNul(s);
    ReadFieldShrinks(s);
    if f.rest != "" && f.rest[0] == ',' {
      ReadRecordNul(f.rest[1..]);
    }
  }

  lemma {:induction false} ReadFileNul(s: string)
    requires NulFree(s) && ReadFile(s).Some?
    ensures forall r :: 0 <= r < |ReadFile(s).value| ==> AllNulFree(ReadFile(s).value[r])
    decreases |s|
  {
    if s != "" {
      hide ReadRecord, AllNulFree;
      ReadRecordNul(s);
      ReadRecordShrinks(s);
      ReadFileNul(ReadRecord(s).value.rest);
    }
  }

  lemma {:induction false} JoinedNulFree(texts: seq<string>)
    requires AllNulFree(texts)
    ensures NulFree(Joined(texts))
  {
    if texts != [] {
      JoinedNulFree(texts[..|texts| - 1]);
    }
  }

  lemma {:induction false} FileIsNulFree(rows: seq<seq<string>>)
    ensures NulFree(FileText(rows))
  {
    if rows != [] {
      hide Joined, UpToNul, Escaped;
      var texts := FieldTexts(rows[0]);
      forall i | 0 <= i < |texts| ensures NulFree(texts[i]) {
        UpToNulTells(Escaped(rows[0][i]));
      }
      JoinedNulFree(texts);
      FileIsNulFree(rows[1..]);
    }
  }

  /** Exactly the files whose fields hold no NUL read back: one NUL anywhere, and what is read differs. */
  lemma {:induction false} FilesReadBackExactly(rows: seq<seq<string>>)
    requires forall r :: 0 <= r < |rows| ==> |rows[r]| > 0
    ensures ReadFile(FileText(rows)) == Some(rows) <==> forall r :: 0 <= r < |rows| ==> AllNulFree(rows[r])
  {
    hide ReadFile, FileText, NulFree;
    FileIsNulFree(rows);
    if ReadFile(FileText(rows)).Some? {
      ReadFileNul(FileText(rows));
    }
    if forall r :: 0 <= r < |rows| ==> AllNulFree(rows[r]) {
      WrittenRowsReadBack(rows);
    }
  }
}
