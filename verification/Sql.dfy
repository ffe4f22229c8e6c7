/** Statements sent to the search servers (river/format_query.go, sphinx/sphinx.go), a reader for them, and the
    round trip between the two. */
module Sql {
  import opened Types
  import opened Decimal

  function PrintInt(n: int): string {
    if n < 0 then "-" + PrintNat(-n) else PrintNat(n)
  }

  /* ---------- quoting ---------- */

  /** strings.Replace of a one-character pattern, everywhere. */
  function ReplaceAll(s: string, pattern: char, substitute: string): string {
    if s == [] then [] else (if s[0] == pattern then substitute else [s[0]]) + ReplaceAll(s[1..], pattern, substitute)
  }

  const NUL: char := '\0'

  /** Three passes over the whole string: backslashes, quotes, NULs. */
  function QuoteString(val: string): string {
    "'" + ReplaceAll(ReplaceAll(ReplaceAll(val, '\\', "\\\\"), '\'', "\\'"), NUL, "") + "'"
  }

  function EscapedChar(c: char): string {
    if c == '\\' then "\\\\" else if c == '\'' then "\\'" else if c == NUL then "" else [c]
  }

  function Escaped(s: string): string {
    if s == [] then [] else EscapedChar(s[0]) + Escaped(s[1..])
  }

  function WithoutNULs(s: string): string {
    if s == [] then [] else (if s[0] == NUL then [] else [s[0]]) + WithoutNULs(s[1..])
  }

  lemma {:induction false} ReplaceAllAppend(a: string, b: string, pattern: char, substitute: string)
    ensures ReplaceAll(a + b, pattern, substitute) == ReplaceAll(a, pattern, substitute) + ReplaceAll(b, pattern, substitute)
  {
    if a == [] {
      assert a + b == b;
    } else {
      assert (a + b)[1..] == a[1..] + b;
      ReplaceAllAppend(a[1..], b, pattern, substitute);
    }
  }

  /** The three passes equal one escape per character: later passes do not touch what earlier ones wrote. */
  lemma {:induction false} PassesAreOneEscape(s: string)
    ensures ReplaceAll(ReplaceAll(ReplaceAll(s, '\\', "\\\\"), '\'', "\\'"), NUL, "") == Escaped(s)
  {
    if s != [] {
      PassesAreOneEscape(s[1..]);
      var head := if s[0] == '\\' then "\\\\" else [s[0]];
      var rest := ReplaceAll(s[1..], '\\', "\\\\");
      ReplaceAllAppend(head, rest, '\'', "\\'");
      var head2, rest2 := ReplaceAll(head, '\'', "\\'"), ReplaceAll(rest, '\'', "\\'");
      ReplaceAllAppend(head2, rest2, NUL, "");
      EscapeOfHead(s[0]);
    }
  }

  lemma EscapeOfHead(c: char)
    ensures ReplaceAll(ReplaceAll(if c == '\\' then "\\\\" else [c], '\'', "\\'"), NUL, "") == EscapedChar(c)
  {
    if c == '\\' {
      assert "\\\\"[1..] == "\\" && "\\"[1..] == "";
      assert ReplaceAll("\\", '\'', "\\'") == "\\" && ReplaceAll("\\\\", '\'', "\\'") == "\\\\";
      assert ReplaceAll("\\", NUL, "") == "\\" && ReplaceAll("\\\\", NUL, "") == "\\\\";
    } else if c == '\'' {
      assert "\\'"[1..] == "'" && "'"[1..] == "";
      assert ReplaceAll("'", '\'', "\\'") == "\\'";
      assert ReplaceAll("'", NUL, "") == "'" && ReplaceAll("\\'", NUL, "") == "\\'";
    } else {
      assert [c][1..] == "";
      assert ReplaceAll([c], '\'', "\\'") == [c];
    }
  }

  /* ---------- reading back ---------- */

  /** A value read from the front of a text, and what follows it. */
  datatype Parsed<T> = Parsed(value: T, rest: string)

  type Reader<!T> = string -> Option<Parsed<T>>

  /** Reads up to the closing quote; a backslash makes the next character literal. */
  function ReadQuoted(text: string): Option<Parsed<string>> {
    if text == [] then None
    else if text[0] == '\'' then Some(Parsed("", text[1..]))
    else if text[0] == '\\' then
      if |text| < 2 then None
      else match ReadQuoted(text[2..])
           case None => None
           case Some(p) => Some(Parsed([text[1]] + p.value, p.rest))
    else match ReadQuoted(text[1..])
         case None => None
         case Some(p) => Some(Parsed([text[0]] + p.value, p.rest))
  }

  lemma EscapedCharIsRead(c: char, tail: string)
    requires ReadQuoted(tail).Some?
    ensures ReadQuoted(EscapedChar(c) + tail)
         == Some(Parsed((if c == NUL then [] else [c]) + ReadQuoted(tail).value.value, ReadQuoted(tail).value.rest))
  {
    var text := EscapedChar(c) + tail;
    if c == '\\' || c == '\'' {
      assert text[0] == '\\' && text[1] == c && text[2..] == tail;
    } else if c == NUL {
      assert text == tail;
      assert [] + ReadQuoted(tail).value.value == ReadQuoted(tail).value.value;
    } else {
      assert text[0] == c && text[1..] == tail;
    }
  }

  lemma ClosingIsRead(rest: string)
    ensures ReadQuoted("'" + rest) == Some(Parsed("", rest))
  {
    assert ("'" + rest)[1..] == rest;
  }

  lemma EscapedUnfolds(s: string, rest: string)
    requires s != []
    ensures Escaped(s) + rest == EscapedChar(s[0]) + (Escaped(s[1..]) + rest)
    ensures WithoutNULs(s) == (if s[0] == NUL then [] else [s[0]]) + WithoutNULs(s[1..])
  {
    hide EscapedChar;
  }

  lemma {:induction false} EscapedIsRead(s: string, rest: string)
    ensures ReadQuoted(Escaped(s) + ("'" + rest)) == Some(Parsed(WithoutNULs(s), rest))
  {
    if s == [] {
      ClosingIsRead(rest);
      assert Escaped(s) + ("'" + rest) == "'" + rest;
    } else {
      hide ReadQuoted, Escaped, WithoutNULs, EscapedChar;
      EscapedIsRead(s[1..], rest);
      EscapedUnfolds(s, "'" + rest);
      EscapedCharIsRead(s[0], Escaped(s[1..]) + ("'" + rest));
    }
  }

  /** Escaping round trip: reading a quoted string stops exactly at its final quote, whatever follows, and
      gives the string back without its NUL characters. */
  lemma QuotedIsRead(s: string, rest: string)
    ensures (QuoteString(s) + rest)[0] == '\'' && (QuoteString(s) + rest)[1..] == Escaped(s) + ("'" + rest)
    ensures ReadQuoted((QuoteString(s) + rest)[1..]) == Some(Parsed(WithoutNULs(s), rest))
  {
    PassesAreOneEscape(s);
    EscapedIsRead(s, rest);
    hide ReplaceAll, Escaped, ReadQuoted, WithoutNULs;
    assert QuoteString(s) + rest == "'" + (Escaped(s) + ("'" + rest));
  }

  /** What may follow a name or a value in a statement. */
  predicate Stops(rest: string) {
    rest == [] || rest[0] in {' ', ',', ')'}
  }

  /** The longest prefix of characters that satisfy a test. */
  function Span(text: string, test: char -> bool): nat {
    if text == [] || !test(text[0]) then 0 else 1 + Span(text[1..], test)
  }

  lemma {:induction false} SpanIsBounded(text: string, test: char -> bool)
    ensures Span(text, test) <= |text|
    ensures forall k :: 0 <= k < Span(text, test) ==> test(text[k])
  {
    if text != [] && test(text[0]) {
      SpanIsBounded(text[1..], test);
    }
  }

  lemma {:induction false} SpanOf(text: string, rest: string, test: char -> bool)
    requires forall k :: 0 <= k < |text| ==> test(text[k])
    requires rest == [] || !test(rest[0])
    ensures Span(text + rest, test) == |text|
  {
    if text == [] {
      assert text + rest == rest;
    } else {
      assert (text + rest)[1..] == text[1..] + rest;
      SpanOf(text[1..], rest, test);
    }
  }

  function ReadNat(text: string): Option<Parsed<nat>> {
    SpanIsBounded(text, IsDigit);
    var n := Span(text, IsDigit);
    if n == 0 then None
    else Some(Parsed(DecimalValue(text[..n]), text[n..]))
  }

  predicate IsNameChar(c: char) {
    'a' <= c <= 'z' || 'A' <= c <= 'Z' || '0' <= c <= '9' || c == '_'
  }

  predicate IsName(name: string) {
    name != [] && forall k :: 0 <= k < |name| ==> IsNameChar(name[k])
  }

  function ReadName(text: string): Option<Parsed<string>> {
    SpanIsBounded(text, IsNameChar);
    var n := Span(text, IsNameChar);
    if n == 0 then None else Some(Parsed(text[..n], text[n..]))
  }

  /** A field value: an integer or a string. */
  datatype Literal = IntLit(n: int) | StrLit(s: string)

  function Render(l: Literal): string {
    match l
    case IntLit(n) => PrintInt(n)
    case StrLit(s) => QuoteString(s)
  }

  /** What the server stores for a printed value. */
  function Stored(l: Literal): Literal {
    match l
    case IntLit(n) => IntLit(n)
    case StrLit(s) => StrLit(WithoutNULs(s))
  }

  function ReadLiteral(text: string): Option<Parsed<Literal>> {
    if text == [] then None
    else if text[0] == '\'' then
      match ReadQuoted(text[1..])
      case None => None
      case Some(p) => Some(Parsed(StrLit(p.value), p.rest))
    else if text[0] == '-' then
      match ReadNat(text[1..])
      case None => None
      case Some(p) => Some(Parsed(IntLit(0 - p.value), p.rest))
    else
      match ReadNat(text)
      case None => None
      case Some(p) => Some(Parsed(IntLit(p.value), p.rest))
  }

  /** The reader gets exactly this value out of the text, whatever delimiter follows. */
  ghost predicate Reads<T(!new)>(reader: Reader<T>, text: string, value: T) {
    forall rest :: Stops(rest) ==> reader(text + rest) == Some(Parsed(value, rest))
  }

  lemma NatIsRead(n: nat)
    ensures Reads(ReadNat, PrintNat(n), n)
  {
    forall rest | Stops(rest) ensures ReadNat(PrintNat(n) + rest) == Some(Parsed(n, rest)) {
      SpanOf(PrintNat(n), rest, IsDigit);
      PrintedValue(n);
      assert (PrintNat(n) + rest)[..|PrintNat(n)|] == PrintNat(n);
      assert (PrintNat(n) + rest)[|PrintNat(n)|..] == rest;
    }
  }

  lemma NameIsRead(name: string)
    requires IsName(name)
    ensures Reads(ReadName, name, name)
  {
    forall rest | Stops(rest) ensures ReadName(name + rest) == Some(Parsed(name, rest)) {
      SpanOf(name, rest, IsNameChar);
      assert (name + rest)[..|name|] == name && (name + rest)[|name|..] == rest;
    }
  }

  lemma StringIsRead(s: string)
    ensures Reads(ReadLiteral, Render(StrLit(s)), Stored(StrLit(s)))
  {
    forall rest | Stops(rest) ensures ReadLiteral(QuoteString(s) + rest) == Some(Parsed(StrLit(WithoutNULs(s)), rest)) {
      QuotedIsRead(s, rest);
      hide QuoteString, Escaped, ReadQuoted, WithoutNULs;
    }
  }

  lemma SignedIsRead(text: string, n: nat, rest: string)
    requires text != [] && text[0] == '-' && ReadNat(text[1..]) == Some(Parsed(n, rest))
    ensures ReadLiteral(text) == Some(Parsed(IntLit(0 - n), rest))
  {
    hide ReadNat, ReadQuoted;
  }

  lemma NegativeIsRead(n: nat, rest: string)
    requires Stops(rest) && n > 0
    ensures ReadLiteral(PrintInt(0 - n) + rest) == Some(Parsed(IntLit(0 - n), rest))
  {
    NatIsRead(n);
    assert ReadNat(PrintNat(n) + rest) == Some(Parsed(n, rest));
    hide ReadNat, PrintNat, ReadLiteral;
    assert PrintInt(0 - n) + rest == "-" + (PrintNat(n) + rest);
    assert ("-" + (PrintNat(n) + rest))[1..] == PrintNat(n) + rest;
    SignedIsRead(PrintInt(0 - n) + rest, n, rest);
  }

  lemma PositiveIsRead(n: nat, rest: string)
    requires Stops(rest)
    ensures ReadLiteral(PrintInt(n) + rest) == Some(Parsed(IntLit(n), rest))
  {
    NatIsRead(n);
    assert ReadNat(PrintNat(n) + rest) == Some(Parsed(n, rest));
    hide ReadNat, PrintNat, ReadQuoted;
    var text := PrintInt(n) + rest;
    assert text[0] == PrintNat(n)[0] && IsDigit(text[0]);
  }

  lemma IntIsRead(n: int)
    ensures Reads(ReadLiteral, Render(IntLit(n)), Stored(IntLit(n)))
  {
    forall rest | Stops(rest) ensures ReadLiteral(PrintInt(n) + rest) == Some(Parsed(IntLit(n), rest)) {
      hide ReadLiteral, PrintInt;
      if n < 0 {
        NegativeIsRead(-n, rest);
      } else {
        PositiveIsRead(n, rest);
      }
    }
  }

  lemma LiteralIsRead(l: Literal)
    ensures Reads(ReadLiteral, Render(l), Stored(l))
  {
    hide Reads;
    match l
    case StrLit(s) => StringIsRead(s);
    case IntLit(n) => IntIsRead(n);
  }

  /* ---------- lists ---------- */

  function Join(parts: seq<string>, separator: string): string {
    if parts == [] then []
    else if |parts| == 1 then parts[0]
    else parts[0] + separator + Join(parts[1..], separator)
  }

  /** One or more items separated by commas. */
  function ReadList<T>(reader: Reader<T>, text: string): Option<Parsed<seq<T>>>
    decreases |text|
  {
    match reader(text)
    case None => None
    case Some(p) =>
      if p.rest != [] && p.rest[0] == ',' && |p.rest| <= |text| then
        match ReadList(reader, p.rest[1..])
        case None => None
        case Some(more) => Some(Parsed([p.value] + more.value, more.rest))
      else Some(Parsed([p.value], p.rest))
  }

  lemma {:induction false} ListIsRead<T(!new)>(reader: Reader<T>, texts: seq<string>, values: seq<T>, rest: string)
    requires |texts| == |values| > 0 && forall k :: 0 <= k < |texts| ==> Reads(reader, texts[k], values[k])
    requires Stops(rest) && (rest == [] || rest[0] != ',')
    ensures ReadList(reader, Join(texts, ",") + rest) == Some(Parsed(values, rest))
    decreases |texts|
  {
    assert Reads(reader, texts[0], values[0]);
    if |texts| == 1 {
      assert values == [values[0]];
    } else {
      ListIsRead(reader, texts[1..], values[1..], rest);
      var tail := "," + (Join(texts[1..], ",") + rest);
      assert Join(texts, ",") + rest == texts[0] + tail;
      assert Stops(tail) && tail[1..] == Join(texts[1..], ",") + rest;
      assert values == [values[0]] + values[1..];
    }
  }

  /* ---------- statements ---------- */

  datatype Command =
    | Replace(index: string, fields: seq<string>, rows: seq<seq<Literal>>)
    | Update(index: string, id: nat, fields: seq<string>, values: seq<Literal>)
    | Delete(index: string, ids: seq<nat>)

  function RowText(values: seq<string>): string {
    "(" + Join(values, ",") + ")"
  }

  function ReplaceText(index: string, fields: seq<string>, rows: seq<seq<string>>): string {
    "REPLACE INTO " + index + " (" + Join(fields, ",") + ") VALUES "
    + Join(seq(|rows|, i requires 0 <= i < |rows| => RowText(rows[i])), ",")
  }

  function AssignmentText(field: string, value: string): string {
    field + " = " + value
  }

  function UpdateText(index: string, id: nat, fields: seq<string>, values: seq<string>): string
    requires |fields| == |values|
  {
    "UPDATE " + index + " SET "
    + Join(seq(|fields|, i requires 0 <= i < |fields| => AssignmentText(fields[i], values[i])), ",")
    + " WHERE id = " + PrintNat(id)
  }

  function DeleteText(index: string, ids: seq<nat>): string {
    "DELETE FROM " + index + " WHERE id IN ("
    + Join(seq(|ids|, i requires 0 <= i < |ids| => PrintNat(ids[i])), ",") + ")"
  }

  function RenderAll(values: seq<Literal>): (texts: seq<string>)
    ensures |texts| == |values|
  {
    seq(|values|, i requires 0 <= i < |values| => Render(values[i]))
  }

  function StoredAll(values: seq<Literal>): (stored: seq<Literal>)
    ensures |stored| == |values|
  {
    seq(|values|, i requires 0 <= i < |values| => Stored(values[i]))
  }

  function RenderRows(rows: seq<seq<Literal>>): (texts: seq<seq<string>>)
    ensures |texts| == |rows|
  {
    seq(|rows|, i requires 0 <= i < |rows| => RenderAll(rows[i]))
  }

  function StoredRows(rows: seq<seq<Literal>>): (stored: seq<seq<Literal>>)
    ensures |stored| == |rows|
  {
    seq(|rows|, i requires 0 <= i < |rows| => StoredAll(rows[i]))
  }

  /** A statement can be sent when its names are names and none of its lists is empty. */
  ghost predicate Sendable(c: Command) {
    IsName(c.index) &&
    match c
    case Replace(_, fields, rows) =>
      && fields != [] && (forall k :: 0 <= k < |fields| ==> IsName(fields[k]))
      && rows != [] && (forall k :: 0 <= k < |rows| ==> rows[k] != [])
    case Update(_, _, fields, values) =>
      |fields| == |values| > 0 && forall k :: 0 <= k < |fields| ==> IsName(fields[k])
    case Delete(_, ids) => ids != []
  }

  function Print(c: Command): string
    requires c.Update? ==> |c.fields| == |c.values|
  {
    match c
    case Replace(index, fields, rows) => ReplaceText(index, fields, RenderRows(rows))
    case Update(index, id, fields, values) => UpdateText(index, id, fields, RenderAll(values))
    case Delete(index, ids) => DeleteText(index, ids)
  }

  function StoredCommand(c: Command): Command {
    match c
    case Replace(index, fields, rows) => Replace(index, fields, StoredRows(rows))
    case Update(index, id, fields, values) => Update(index, id, fields, StoredAll(values))
    case Delete(index, ids) => c
  }

  function Expect(text: string, token: string): Option<string> {
    if token <= text then Some(text[|token|..]) else None
  }

  lemma TokenIsRead(token: string, rest: string)
    ensures Expect(token + rest, token) == Some(rest)
  {
    assert (token + rest)[|token|..] == rest;
  }

  function ReadRow(text: string): Option<Parsed<seq<Literal>>> {
    match Expect(text, "(")
    case None => None
    case Some(rest) =>
      match ReadList(ReadLiteral, rest)
      case None => None
      case Some(p) =>
        match Expect(p.rest, ")")
        case None => None
        case Some(after) => Some(Parsed(p.value, after))
  }

  function ReadAssignment(text: string): Option<Parsed<(string, Literal)>> {
    match ReadName(text)
    case None => None
    case Some(name) =>
      match Expect(name.rest, " = ")
      case None => None
      case Some(rest) =>
        match ReadLiteral(rest)
        case None => None
        case Some(p) => Some(Parsed((name.value, p.value), p.rest))
  }

  function ParseReplace(text: string): Option<Command> {
    match ReadName(text)
    case None => None
    case Some(index) =>
      match Expect(index.rest, " (")
      case None => None
      case Some(a) =>
        match ReadList(ReadName, a)
        case None => None
        case Some(fields) =>
          match Expect(fields.rest, ") VALUES ")
          case None => None
          case Some(b) =>
            match ReadList(ReadRow, b)
            case None => None
            case Some(rows) =>
              if rows.rest == [] then Some(Replace(index.value, fields.value, rows.value)) else None
  }

  function FieldsOf(pairs: seq<(string, Literal)>): seq<string> {
    seq(|pairs|, i requires 0 <= i < |pairs| => pairs[i].0)
  }

  function ValuesOf(pairs: seq<(string, Literal)>): seq<Literal> {
    seq(|pairs|, i requires 0 <= i < |pairs| => pairs[i].1)
  }

  function ParseUpdate(text: string): Option<Command> {
    match ReadName(text)
    case None => None
    case Some(index) =>
      match Expect(index.rest, " SET ")
      case None => None
      case Some(a) =>
        match ReadList(ReadAssignment, a)
        case None => None
        case Some(pairs) =>
          match Expect(pairs.rest, " WHERE id = ")
          case None => None
          case Some(b) =>
            match ReadNat(b)
            case None => None
            case Some(id) =>
              if id.rest == [] then
                Some(Update(index.value, id.value,
                            FieldsOf(pairs.value), ValuesOf(pairs.value)))
              else None
  }

  function ParseDelete(text: string): Option<Command> {
    match ReadName(text)
    case None => None
    case Some(index) =>
      match Expect(index.rest, " WHERE id IN (")
      case None => None
      case Some(a) =>
        match ReadList(ReadNat, a)
        case None => None
        case Some(ids) => if ids.rest == ")" then Some(Delete(index.value, ids.value)) else None
  }

  function Parse(text: string): Option<Command> {
    if Expect(text, "REPLACE INTO ").Some? then ParseReplace(Expect(text, "REPLACE INTO ").value)
    else if Expect(text, "UPDATE ").Some? then ParseUpdate(Expect(text, "UPDATE ").value)
    else if Expect(text, "DELETE FROM ").Some? then ParseDelete(Expect(text, "DELETE FROM ").value)
    else None
  }

  /* ---------- statements are read back ---------- */

  lemma RowIsRead(values: seq<Literal>)
    requires values != []
    ensures Reads(ReadRow, RowText(RenderAll(values)), StoredAll(values))
  {
    forall k | 0 <= k < |values| ensures Reads(ReadLiteral, RenderAll(values)[k], StoredAll(values)[k]) {
      LiteralIsRead(values[k]);
    }
    forall rest | Stops(rest)
      ensures ReadRow(RowText(RenderAll(values)) + rest) == Some(Parsed(StoredAll(values), rest))
    {
      hide Join, Reads, ReadList, ReadLiteral, RenderAll, StoredAll;
      var inner := Join(RenderAll(values), ",");
      assert RowText(RenderAll(values)) + rest == "(" + (inner + (")" + rest));
      TokenIsRead("(", inner + (")" + rest));
      ListIsRead(ReadLiteral, RenderAll(values), StoredAll(values), ")" + rest);
      TokenIsRead(")", rest);
    }
  }

  /* The readers step by step: what is read at each point determines the result. */

  lemma AssignmentSteps(text: string, afterName: string, afterSign: string, field: string, p: Parsed<Literal>)
    requires ReadName(text) == Some(Parsed(field, afterName)) && Expect(afterName, " = ") == Some(afterSign)
    requires ReadLiteral(afterSign) == Some(p)
    ensures ReadAssignment(text) == Some(Parsed((field, p.value), p.rest))
  {
    hide ReadName, Expect, ReadLiteral;
  }

  lemma ReplaceSteps(text: string, afterIndex: string, list: string, afterFields: string, values: string,
                     index: string, fields: seq<string>, rows: seq<seq<Literal>>)
    requires ReadName(text) == Some(Parsed(index, afterIndex)) && Expect(afterIndex, " (") == Some(list)
    requires ReadList(ReadName, list) == Some(Parsed(fields, afterFields))
    requires Expect(afterFields, ") VALUES ") == Some(values)
    requires ReadList(ReadRow, values) == Some(Parsed(rows, ""))
    ensures ParseReplace(text) == Some(Replace(index, fields, rows))
  {
    hide ReadName, Expect, ReadList, ReadRow;
  }

  lemma DeleteSteps(text: string, afterIndex: string, list: string, index: string, ids: seq<nat>)
    requires ReadName(text) == Some(Parsed(index, afterIndex)) && Expect(afterIndex, " WHERE id IN (") == Some(list)
    requires ReadList(ReadNat, list) == Some(Parsed(ids, ")"))
    ensures ParseDelete(text) == Some(Delete(index, ids))
  {
    hide ReadName, Expect, ReadList, ReadNat;
  }

  lemma UpdateSteps(text: string, afterIndex: string, list: string, afterList: string, number: string,
                    index: string, pairs: seq<(string, Literal)>, id: nat)
    requires ReadName(text) == Some(Parsed(index, afterIndex)) && Expect(afterIndex, " SET ") == Some(list)
    requires ReadList(ReadAssignment, list) == Some(Parsed(pairs, afterList))
    requires Expect(afterList, " WHERE id = ") == Some(number) && ReadNat(number) == Some(Parsed(id, ""))
    ensures ParseUpdate(text) == Some(Update(index, id, FieldsOf(pairs), ValuesOf(pairs)))
  {
    hide ReadName, Expect, ReadList, ReadAssignment, ReadNat;
  }

  lemma Regroup(a: string, b: string, c: string, d: string)
    ensures a + b + c + d == a + (b + (c + d))
  {
    assert a + b + c + d == a + b + (c + d);
    assert a + b + (c + d) == a + (b + (c + d));
  }

  lemma AssignmentIsRead(field: string, value: Literal)
    requires IsName(field)
    ensures Reads(ReadAssignment, AssignmentText(field, Render(value)), (field, Stored(value)))
  {
    forall rest | Stops(rest)
      ensures ReadAssignment(AssignmentText(field, Render(value)) + rest) == Some(Parsed((field, Stored(value)), rest))
    {
      LiteralIsRead(value);
      assert ReadLiteral(Render(value) + rest) == Some(Parsed(Stored(value), rest));
      hide ReadName, ReadLiteral, Render, Stored, IsName, ReadAssignment, Expect, Reads;
      var sign: string := " = ";
      var afterSign := Render(value) + rest;
      NameThenToken(field, sign, afterSign);
      AssignmentSteps(field + (sign + afterSign), sign + afterSign, afterSign, field, Parsed(Stored(value), rest));
      Regroup(field, sign, Render(value), rest);
    }
  }

  lemma NameThenToken(name: string, token: string, rest: string)
    requires IsName(name) && token != [] && Stops(token)
    ensures ReadName(name + (token + rest)) == Some(Parsed(name, token + rest))
    ensures Expect(token + rest, token) == Some(rest)
  {
    NameIsRead(name);
    hide ReadName, IsName, Expect;
    assert Stops(token + rest);
    TokenIsRead(token, rest);
  }

  lemma RowsAreRead(rows: seq<seq<Literal>>)
    requires rows != [] && forall k :: 0 <= k < |rows| ==> rows[k] != []
    ensures ReadList(ReadRow, Join(seq(|rows|, i requires 0 <= i < |rows| => RowText(RenderRows(rows)[i])), ","))
         == Some(Parsed(StoredRows(rows), ""))
  {
    var texts := seq(|rows|, i requires 0 <= i < |rows| => RowText(RenderRows(rows)[i]));
    forall k | 0 <= k < |rows| ensures Reads(ReadRow, texts[k], StoredRows(rows)[k]) {
      RowIsRead(rows[k]);
    }
    hide Join, Reads, ReadList, ReadRow, RenderRows, StoredRows, RowText;
    ListIsRead(ReadRow, texts, StoredRows(rows), "");
    assert Join(texts, ",") + "" == Join(texts, ",");
  }

  lemma NamesAreRead(names: seq<string>, rest: string)
    requires names != [] && (forall k :: 0 <= k < |names| ==> IsName(names[k])) && rest != [] && rest[0] == ')'
    ensures ReadList(ReadName, Join(names, ",") + rest) == Some(Parsed(names, rest))
  {
    forall k | 0 <= k < |names| ensures Reads(ReadName, names[k], names[k]) {
      NameIsRead(names[k]);
    }
    hide Join, Reads, ReadList, ReadName, IsName;
    ListIsRead(ReadName, names, names, rest);
  }

  lemma IDsAreRead(ids: seq<nat>)
    requires ids != []
    ensures ReadList(ReadNat, Join(seq(|ids|, i requires 0 <= i < |ids| => PrintNat(ids[i])), ",") + ")")
         == Some(Parsed(ids, ")"))
  {
    var texts := seq(|ids|, i requires 0 <= i < |ids| => PrintNat(ids[i]));
    forall k | 0 <= k < |ids| ensures Reads(ReadNat, texts[k], ids[k]) {
      NatIsRead(ids[k]);
    }
    hide Join, Reads, ReadList, ReadNat, PrintNat;
    ListIsRead(ReadNat, texts, ids, ")");
  }

  function Pairs(fields: seq<string>, values: seq<Literal>): seq<(string, Literal)>
    requires |fields| == |values|
  {
    seq(|fields|, i requires 0 <= i < |fields| => (fields[i], Stored(values[i])))
  }

  lemma AssignmentsAreRead(fields: seq<string>, values: seq<Literal>, rest: string)
    requires |fields| == |values| > 0 && forall k :: 0 <= k < |fields| ==> IsName(fields[k])
    requires rest != [] && rest[0] == ' '
    ensures ReadList(ReadAssignment,
                     Join(seq(|fields|, i requires 0 <= i < |fields| => AssignmentText(fields[i], RenderAll(values)[i])), ",")
                     + rest) == Some(Parsed(Pairs(fields, values), rest))
  {
    var texts := seq(|fields|, i requires 0 <= i < |fields| => AssignmentText(fields[i], RenderAll(values)[i]));
    forall k | 0 <= k < |fields| ensures Reads(ReadAssignment, texts[k], Pairs(fields, values)[k]) {
      AssignmentIsRead(fields[k], values[k]);
      assert texts[k] == AssignmentText(fields[k], Render(values[k]));
    }
    hide Join, Reads, ReadList, ReadAssignment, AssignmentText, RenderAll, IsName;
    ListIsRead(ReadAssignment, texts, Pairs(fields, values), rest);
  }

  lemma ReplaceIsRead(index: string, fields: seq<string>, rows: seq<seq<Literal>>)
    requires Sendable(Replace(index, fields, rows))
    ensures Parse(ReplaceText(index, fields, RenderRows(rows))) == Some(Replace(index, fields, StoredRows(rows)))
  {
    var head: string, open: string, middle: string := "REPLACE INTO ", " (", ") VALUES ";
    var values := Join(seq(|rows|, i requires 0 <= i < |rows| => RowText(RenderRows(rows)[i])), ",");
    var list := Join(fields, ",") + (middle + values);
    assert ReplaceText(index, fields, RenderRows(rows)) == head + (index + (open + list)) by {
      hide Join, RowText, RenderRows, Sendable;
      Regroup(head, index, open, Join(fields, ","));
      Regroup(head + index, open, Join(fields, ","), middle + values);
    }
    RowsAreRead(rows);
    TokenIsRead(middle, values);
    NamesAreRead(fields, middle + values);
    NameThenToken(index, open, list);
    hide Join, ReadList, ReadName, ReadRow, RenderRows, StoredRows, Expect, Sendable, ParseReplace;
    ReplaceSteps(index + (open + list), open + list, list, middle + values, values, index, fields, StoredRows(rows));
    StatementIsRead(head, index + (open + list));
  }

  lemma DeleteIsRead(index: string, ids: seq<nat>)
    requires Sendable(Delete(index, ids))
    ensures Parse(DeleteText(index, ids)) == Some(Delete(index, ids))
  {
    var head: string, open: string := "DELETE FROM ", " WHERE id IN (";
    var list := Join(seq(|ids|, i requires 0 <= i < |ids| => PrintNat(ids[i])), ",") + ")";
    assert DeleteText(index, ids) == head + (index + (open + list)) by {
      hide Join, PrintNat;
    }
    IDsAreRead(ids);
    NameThenToken(index, open, list);
    hide Join, ReadList, ReadName, ReadNat, PrintNat, Expect, Sendable, ParseDelete;
    DeleteSteps(index + (open + list), open + list, list, index, ids);
    StatementIsRead(head, index + (open + list));
  }

  lemma UpdateIsRead(index: string, id: nat, fields: seq<string>, values: seq<Literal>)
    requires Sendable(Update(index, id, fields, values))
    ensures Parse(UpdateText(index, id, fields, RenderAll(values))) == Some(Update(index, id, fields, StoredAll(values)))
  {
    var head: string, assign: string, where: string := "UPDATE ", " SET ", " WHERE id = ";
    var number := PrintNat(id);
    var list := Join(seq(|fields|, i requires 0 <= i < |fields| => AssignmentText(fields[i], RenderAll(values)[i])), ",")
                + (where + number);
    assert UpdateText(index, id, fields, RenderAll(values)) == head + (index + (assign + list)) by {
      hide Join, PrintNat, AssignmentText, RenderAll;
    }
    NatIsRead(id);
    assert number + "" == number;
    assert ReadNat(number) == Some(Parsed(id, ""));
    TokenIsRead(where, number);
    AssignmentsAreRead(fields, values, where + number);
    NameThenToken(index, assign, list);
    var pairs := Pairs(fields, values);
    assert FieldsOf(pairs) == fields && ValuesOf(pairs) == StoredAll(values);
    hide Join, ReadList, ReadName, ReadNat, ReadAssignment, PrintNat, RenderAll, StoredAll, Expect, Sendable, ParseUpdate;
    UpdateSteps(index + (assign + list), assign + list, list, where + number, number, index, pairs, id);
    StatementIsRead(head, index + (assign + list));
  }

  /** The three statement heads start with different letters. */
  lemma StatementIsRead(head: string, tail: string)
    requires head in {"REPLACE INTO ", "UPDATE ", "DELETE FROM "}
    ensures Parse(head + tail) == if head == "REPLACE INTO " then ParseReplace(tail)
                                  else if head == "UPDATE " then ParseUpdate(tail) else ParseDelete(tail)
  {
    TokenIsRead(head, tail);
    assert (head + tail)[0] == head[0];
    hide ParseReplace, ParseUpdate, ParseDelete;
  }

  /** Every statement that can be sent is read back as itself, its strings without their NULs. */
  lemma PrintedIsRead(c: Command)
    requires Sendable(c)
    ensures Parse(Print(c)) == Some(StoredCommand(c))
  {
    hide Parse, ReplaceText, UpdateText, DeleteText;
    match c
    case Replace(index, fields, rows) => ReplaceIsRead(index, fields, rows);
    case Update(index, id, fields, values) => UpdateIsRead(index, id, fields, values);
    case Delete(index, ids) => DeleteIsRead(index, ids);
  }

  /** Statements with the same text mean the same. */
  lemma TextIsUnique(a: Command, b: Command)
    requires Sendable(a) && Sendable(b) && Print(a) == Print(b)
    ensures StoredCommand(a) == StoredCommand(b)
  {
    hide Parse, Print, StoredCommand;
    PrintedIsRead(a);
    PrintedIsRead(b);
  }
}
