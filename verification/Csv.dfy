/**
 The two ways the logs quote CSV fields, and a reader that follows section 2
 of RFC 4180. The writers end a record with a line feed, so the reader takes a bare line feed for a
 line break as well as the CRLF of the standard.
 */
module Csv {
  import opened Common

  /** Every quote doubled. */
  function Doubled(s: string): string {
    if s == "" then "" else (if s[0] == '"' then "\"\"" else [s[0]]) + Doubled(s[1..])
  }

  /** Always quoted. */
  function CsvField(s: string): string {
    "\"" + Doubled(s) + "\""
  }

  predicate NeedsQuotes(s: string) {
    ',' in s || '"' in s || '\n' in s
  }

  /** Quoted only when a comma, a quote or a line feed makes it necessary. */
  function CsvEscapeField(s: string): string {
    if NeedsQuotes(s) then "\"" + Doubled(s) + "\"" else s
  }

  datatype Quoting = Always | WhenNeeded

  function Written(q: Quoting, s: string): string {
    if q == Always then CsvField(s) else CsvEscapeField(s)
  }

  /** A record: fields between commas, and a line feed. */
  function WriteRecord(q: Quoting, fields: seq<string>): string
    requires fields != []
  {
    if |fields| == 1 then Written(q, fields[0]) + "\n"
    else Written(q, fields[0]) + "," + WriteRecord(q, fields[1..])
  }

  // ----- reading -----

  /** The rest of a quoted field: up to the closing quote, with doubled quotes taken as one. */
  function ReadQuoted(s: string): (r: Option<(string, string)>)
    ensures r.Some? ==> |r.value.1| < |s|
  {
    if s == "" then None
    else if s[0] != '"' then
      var r := ReadQuoted(s[1..]);
      if r.None? then None else Some(([s[0]] + r.value.0, r.value.1))
    else if |s| > 1 && s[1] == '"' then
      var r := ReadQuoted(s[2..]);
      if r.None? then None else Some((['"'] + r.value.0, r.value.1))
    else Some(("", s[1..]))
  }

  predicate AtLineBreak(s: string) {
    "\n" <= s || "\r\n" <= s
  }

  /** An unquoted field: up to a comma or a line break; quotes and lone carriage returns are not allowed in it. */
  function ReadPlain(s: string): (r: Option<(string, string)>)
    ensures r.Some? ==> |r.value.1| <= |s|
  {
    if s == "" || s[0] == ',' || AtLineBreak(s) then Some(("", s))
    else if s[0] == '"' || s[0] == '\r' then None
    else
      var r := ReadPlain(s[1..]);
      if r.None? then None else Some(([s[0]] + r.value.0, r.value.1))
  }

  function ReadField(s: string): (r: Option<(string, string)>)
    ensures r.Some? ==> |r.value.1| <= |s|
  {
    if s != "" && s[0] == '"' then ReadQuoted(s[1..]) else ReadPlain(s)
  }

  /** One record and what follows its line break. */
  function ReadRecord(s: string): Option<(seq<string>, string)>
    decreases |s|
  {
    var f := ReadField(s);
    if f.None? then None
    else
      var (field, rest) := f.value;
      if rest == "" then Some(([field], ""))
      else if "\n" <= rest then Some(([field], rest[1..]))
      else if "\r\n" <= rest then Some(([field], rest[2..]))
      else if rest[0] == ',' then
        var more := ReadRecord(rest[1..]);
        if more.None? then None else Some(([field] + more.value.0, more.value.1))
      else None
  }

  // ----- single fields -----

  lemma {:induction false} QuotedRoundTrip(s: string, rest: string)
    requires rest == "" || rest[0] != '"'
    ensures ReadQuoted(Doubled(s) + "\"" + rest) == Some((s, rest))
  {
    var text := Doubled(s) + "\"" + rest;
    if s == "" {
      assert text == "\"" + rest;
      assert text[1..] == rest;
    } else {
      QuotedRoundTrip(s[1..], rest);
      var tail := Doubled(s[1..]) + "\"" + rest;
      if s[0] == '"' {
        assert text == "\"\"" + tail;
        assert text[2..] == tail;
      } else {
        assert text == [s[0]] + tail;
        assert text[1..] == tail;
      }
      assert [s[0]] + s[1..] == s;
    }
  }

  /** A field ends at a comma or a line break. */
  predicate FieldEnd(rest: string) {
    rest != "" && (rest[0] == ',' || rest[0] == '\n')
  }

  lemma {:induction false} PlainRoundTrip(s: string, rest: string)
    requires !NeedsQuotes(s) && '\r' !in s && FieldEnd(rest)
    ensures ReadPlain(s + rest) == Some((s, rest))
  {
    var text := s + rest;
    if s == "" {
      assert text == rest;
    } else {
      assert text[1..] == s[1..] + rest;
      PlainRoundTrip(s[1..], rest);
      assert [s[0]] + s[1..] == s;
    }
  }

  /** Whatever is read unquoted holds no carriage return. */
  lemma {:induction false} PlainHasNoReturn(s: string)
    ensures ReadPlain(s).Some? ==> '\r' !in ReadPlain(s).value.0
  {
    if s == "" || s[0] == ',' || AtLineBreak(s) {
    } else if s[0] == '"' || s[0] == '\r' {
    } else {
      PlainHasNoReturn(s[1..]);
    }
  }

  /** Survives being written: always with quotes, otherwise unless a carriage return is all that would need them. */
  predicate Survives(q: Quoting, s: string) {
    q == Always || NeedsQuotes(s) || '\r' !in s
  }

  lemma FieldRoundTrip(q: Quoting, s: string, rest: string)
    requires Survives(q, s) && FieldEnd(rest)
    ensures ReadField(Written(q, s) + rest) == Some((s, rest))
  {
    if q == Always || NeedsQuotes(s) {
      QuotedFieldRoundTrip(s, rest);
    } else {
      PlainFieldRoundTrip(s, rest);
    }
  }

  lemma QuotedFieldRoundTrip(s: string, rest: string)
    requires FieldEnd(rest)
    ensures ReadField("\"" + Doubled(s) + "\"" + rest) == Some((s, rest))
  {
    var text := "\"" + Doubled(s) + "\"" + rest;
    assert text[1..] == Doubled(s) + "\"" + rest;
    QuotedRoundTrip(s, rest);
  }

  lemma PlainFieldRoundTrip(s: string, rest: string)
    requires !NeedsQuotes(s) && '\r' !in s && FieldEnd(rest)
    ensures ReadField(s + rest) == Some((s, rest))
  {
    assert s != "" ==> (s + rest)[0] == s[0] && s[0] in s;
    PlainRoundTrip(s, rest);
  }

  lemma FieldLost(q: Quoting, s: string, rest: string)
    requires !Survives(q, s) && FieldEnd(rest)
    ensures var r := ReadField(Written(q, s) + rest); r.Some? ==> r.value.0 != s
  {
    var text := Written(q, s) + rest;
    assert text == s + rest && s != "";
    assert text[0] == s[0] && s[0] in s;
    PlainHasNoReturn(text);
  }

  // ----- records -----

  lemma RecordTail(q: Quoting, fields: seq<string>, rest: string) returns (tail: string)
    requires fields != []
    ensures FieldEnd(tail) && WriteRecord(q, fields) + rest == Written(q, fields[0]) + tail
    ensures tail == if |fields| == 1 then "\n" + rest else "," + (WriteRecord(q, fields[1..]) + rest)
  {
    var first := Written(q, fields[0]);
    if |fields| == 1 {
      tail := "\n" + rest;
      Regroup(first, "\n", rest);
    } else {
      var more := WriteRecord(q, fields[1..]);
      tail := "," + (more + rest);
      Regroup(first + ",", more, rest);
      Regroup(first, ",", more + rest);
    }
  }

  /** The reader gets back the record exactly when every one of its fields survives being written. */
  lemma {:induction false} RecordRoundTrip(q: Quoting, fields: seq<string>, rest: string)
    requires fields != []
    ensures ReadRecord(WriteRecord(q, fields) + rest) == Some((fields, rest)) <==> forall f :: f in fields ==> Survives(q, f)
  {
    var text := WriteRecord(q, fields) + rest;
    var tail := RecordTail(q, fields, rest);
    if !Survives(q, fields[0]) {
      FieldLost(q, fields[0], tail);
      LostRecord(fields, text, rest);
    } else {
      FieldRoundTrip(q, fields[0], tail);
      if |fields| == 1 {
        assert tail[1..] == rest;
        assert fields == [fields[0]];
      } else {
        RecordRoundTrip(q, fields[1..], rest);
        assert tail[1..] == WriteRecord(q, fields[1..]) + rest;
        MoreFields(fields, text, tail, rest);
        assert forall f :: f in fields <==> f == fields[0] || f in fields[1..];
      }
    }
  }

  lemma LostRecord(fields: seq<string>, text: string, rest: string)
    requires fields != [] && ReadField(text).Some? ==> ReadField(text).value.0 != fields[0]
    requires fields != []
    ensures ReadRecord(text) != Some((fields, rest))
  {
    if ReadRecord(text).Some? {
      assert ReadRecord(text).value.0[0] == ReadField(text).value.0;
    }
  }

  lemma MoreFields(fields: seq<string>, text: string, tail: string, rest: string)
    requires |fields| > 1 && ReadField(text) == Some((fields[0], tail)) && "," <= tail
    ensures ReadRecord(text) == Some((fields, rest)) <==> ReadRecord(tail[1..]) == Some((fields[1..], rest))
  {
    var more := ReadRecord(tail[1..]);
    assert tail[0] == ',' && !("\n" <= tail) && !("\r\n" <= tail);
    assert ReadRecord(text) == if more.None? then None else Some(([fields[0]] + more.value.0, more.value.1));
    if more.Some? {
      SameTail(fields, more.value.0);
    }
  }

  lemma SameTail(fields: seq<string>, more: seq<string>)
    requires fields != []
    ensures [fields[0]] + more == fields <==> more == fields[1..]
  {
    assert fields == [fields[0]] + fields[1..];
    assert ([fields[0]] + more)[1..] == more;
  }

  /** With quotes around every field, any list of any strings comes back. */
  lemma QuotedRecordsRoundTrip(fields: seq<string>, rest: string)
    requires fields != []
    ensures ReadRecord(WriteRecord(Always, fields) + rest) == Some((fields, rest))
  {
    RecordRoundTrip(Always, fields, rest);
  }
}
