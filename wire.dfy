/**
 * The request the hook sends to the ABRT daemon: the line "PUT / HTTP/1.1\r\n\r\n"
 * followed by one "NAME=value\0" record per report field. A NUL byte terminates each
 * record, so every value is stripped of NUL bytes before it is written.
 */
module Wire {
  import opened Strings

  const NUL: char := '\0'

  /** The fixed request line opening every report. */
  const RequestLine: string := "PUT / HTTP/1.1\r\n\r\n"

  /** One report field: its name and its (untrusted) value. */
  datatype Field = Field(name: string, value: string)

  /** `value.gsub(/\u0000/, '')`: the value with every NUL byte removed, all else kept in order. */
  function StripNul(s: string): (r: string)
    ensures NUL !in r
    ensures NUL !in s ==> r == s
  {
    if s == [] then [] else (if s[0] == NUL then [] else [s[0]]) + StripNul(s[1..])
  }

  /** Stripping removes the NUL bytes and nothing else: every other character keeps its count. */
  lemma {:induction false} StripNulKeepsOthers(s: string)
    ensures multiset(StripNul(s)) == multiset(s)[NUL := 0]
  {
    if s != [] {
      assert s == [s[0]] + s[1..];
      StripNulKeepsOthers(s[1..]);
    }
  }

  /** Stripping works piece by piece, so the characters kept stay in their original order. */
  lemma {:induction false} StripNulAppend(a: string, b: string)
    ensures StripNul(a + b) == StripNul(a) + StripNul(b)
  {
    if a != [] {
      assert (a + b)[1..] == a[1..] + b;
      StripNulAppend(a[1..], b);
    } else {
      assert a + b == b;
    }
  }

  /** True when the text holds a NUL byte only, if at all, as its last character. */
  predicate NulOnlyAtEnd(s: string)
  {
    forall i :: 0 <= i < |s| - 1 ==> s[i] != NUL
  }

  /** The record "NAME=value\0" with the value's own NUL bytes stripped. */
  function EncodeField(f: Field): (r: string)
    ensures |r| > 0 && r[|r| - 1] == NUL
    ensures NUL !in f.name ==> NulOnlyAtEnd(r)
  {
    f.name + "=" + StripNul(f.value) + [NUL]
  }

  /**
   * The records of all fields, in the given order, with nothing between them: the first
   * field's record opens the body, and a non-empty body ends with a record terminator.
   */
  function EncodeBody(fields: seq<Field>): (r: string)
    ensures r == [] <==> fields == []
    ensures fields != [] ==> EncodeField(fields[0]) <= r && r[|r| - 1] == NUL
  {
    if fields == [] then "" else EncodeField(fields[0]) + EncodeBody(fields[1..])
  }

  /** The record of each field, one per field, as they are written one after another. */
  function Encoded(fields: seq<Field>): (r: seq<string>)
    ensures |r| == |fields|
    ensures forall i :: 0 <= i < |r| ==> r[i] == EncodeField(fields[i])
  {
    seq(|fields|, i requires 0 <= i < |fields| => EncodeField(fields[i]))
  }

  /** Writing the records one by one produces the encoded body. */
  lemma {:induction false} EncodedConcat(fields: seq<Field>)
    ensures Concat(Encoded(fields)) == EncodeBody(fields)
  {
    if fields != [] {
      assert Encoded(fields)[1..] == Encoded(fields[1..]);
      EncodedConcat(fields[1..]);
    }
  }

  /** The whole request: request line, then the encoded fields. */
  function Request(fields: seq<Field>): (r: string)
    ensures RequestLine <= r
  {
    RequestLine + EncodeBody(fields)
  }

  /** The NUL-terminated records of a body, as the daemon reads them (an unterminated tail is a last record). */
  function Records(s: string): (r: seq<string>)
    ensures forall i :: 0 <= i < |r| ==> NUL !in r[i]
    decreases |s|
  {
    if s == [] then []
    else
      var p := Before(s, NUL);
      if |p| == |s| then [s] else [p] + Records(s[|p| + 1..])
  }

  /** A record "NAME=value" split at its first '='. */
  function ParseField(record: string): (f: Field)
    ensures '=' !in f.name
    ensures f.name + "=" + f.value == record || (f.name == record && f.value == "")
  {
    var name := Before(record, '=');
    if |name| == |record| then Field(name, "")
    else
      assert record == name + "=" + record[|name| + 1..];
      Field(name, record[|name| + 1..])
  }

  /** The fields a reader of the body recovers. */
  function Decode(body: string): (r: seq<Field>)
  {
    var records := Records(body);
    seq(|records|, i requires 0 <= i < |records| => ParseField(records[i]))
  }

  /** What the fields are once encoded: the same names, values without NUL bytes. */
  function Sanitized(fields: seq<Field>): (r: seq<Field>)
    ensures |r| == |fields|
    ensures forall i :: 0 <= i < |r| ==> r[i].name == fields[i].name && NUL !in r[i].value
  {
    seq(|fields|, i requires 0 <= i < |fields| => Field(fields[i].name, StripNul(fields[i].value)))
  }

  /** A name the encoding can carry: it holds neither the terminator nor the '=' separator. */
  predicate PlainName(name: string)
  {
    NUL !in name && '=' !in name
  }

  /**
   * No injection: reading the body back yields exactly the encoded fields, one per field,
   * in order, whatever NUL bytes or forged "NAME=" text the values held.
   */
  lemma {:induction false} DecodeEncode(fields: seq<Field>)
    requires forall i :: 0 <= i < |fields| ==> PlainName(fields[i].name)
    ensures Decode(EncodeBody(fields)) == Sanitized(fields)
  {
    if fields != [] {
      var f := fields[0];
      var value := StripNul(f.value);
      assert PlainName(f.name);
      assert EncodeBody(fields) == (f.name + "=" + value) + [NUL] + EncodeBody(fields[1..]);
      DecodeRecord(f.name + "=" + value, EncodeBody(fields[1..]));
      ParseFieldOf(f.name, value);
      DecodeEncode(fields[1..]);
      SanitizedCons(fields);
    }
  }

  /** A NUL-free record followed by its terminator decodes as that record, then the rest. */
  lemma DecodeRecord(record: string, rest: string)
    requires NUL !in record
    ensures Decode(record + [NUL] + rest) == [ParseField(record)] + Decode(rest)
  {
    RecordsAfter(record, rest);
    DecodeCons(record + [NUL] + rest, record, rest);
  }

  /** Decoding goes record by record. */
  lemma DecodeCons(body: string, record: string, rest: string)
    requires Records(body) == [record] + Records(rest)
    ensures Decode(body) == [ParseField(record)] + Decode(rest)
  {
  }

  /** A record is split at the '=' that ends a plain name. */
  lemma ParseFieldOf(name: string, value: string)
    requires '=' !in name
    ensures ParseField(name + "=" + value) == Field(name, value)
  {
    BeforeDelimited(name, '=', value);
  }

  /** Sanitizing goes field by field. */
  lemma SanitizedCons(fields: seq<Field>)
    requires fields != []
    ensures Sanitized(fields) == [Field(fields[0].name, StripNul(fields[0].value))] + Sanitized(fields[1..])
  {
  }

  /** A NUL-free record followed by its terminator is read as one record. */
  lemma RecordsAfter(record: string, rest: string)
    requires NUL !in record
    ensures Records(record + [NUL] + rest) == [record] + Records(rest)
  {
    BeforeDelimited(record, NUL, rest);
    assert (record + [NUL] + rest)[|record| + 1..] == rest;
  }

  /** Every record of an encoded body is free of NUL bytes, so the daemon sees one record per field. */
  lemma {:induction false} RecordCount(fields: seq<Field>)
    requires forall i :: 0 <= i < |fields| ==> PlainName(fields[i].name)
    ensures |Records(EncodeBody(fields))| == |fields|
  {
    DecodeEncode(fields);
  }

  /** The chunks a report is written in: the request line, then one record per field. */
  function RequestChunks(fields: seq<Field>): (r: seq<string>)
    ensures |r| == |fields| + 1
  {
    [RequestLine] + Encoded(fields)
  }

  /** Writing the chunks one after another produces the whole request. */
  lemma RequestChunksConcat(fields: seq<Field>)
    ensures Concat(RequestChunks(fields)) == Request(fields)
  {
    ConcatAppend([RequestLine], Encoded(fields));
    EncodedConcat(fields);
  }

  /** With plain names, no chunk of a request holds a NUL byte except as its last character. */
  lemma RequestChunksNulOnlyAtEnd(fields: seq<Field>)
    requires forall i :: 0 <= i < |fields| ==> PlainName(fields[i].name)
    ensures forall i :: 0 <= i < |RequestChunks(fields)| ==> NulOnlyAtEnd(RequestChunks(fields)[i])
  {
    var chunks := RequestChunks(fields);
    assert NUL !in RequestLine;
    forall i | 0 <= i < |chunks| ensures NulOnlyAtEnd(chunks[i]) {
      if i > 0 {
        assert chunks[i] == EncodeField(fields[i - 1]);
      }
    }
  }

  /** The body after the request line is the encoded fields, which read back as the sanitized fields. */
  lemma RequestDecodes(fields: seq<Field>)
    requires forall i :: 0 <= i < |fields| ==> PlainName(fields[i].name)
    ensures Request(fields)[|RequestLine|..] == EncodeBody(fields)
    ensures Decode(Request(fields)[|RequestLine|..]) == Sanitized(fields)
  {
    assert Request(fields)[|RequestLine|..] == EncodeBody(fields);
    DecodeEncode(fields);
  }
}
