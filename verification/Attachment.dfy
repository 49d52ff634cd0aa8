/** Binary attachment sections: `FileAttachment::{wire_size, write_wire, read_wire}`. */
module Attachment {
  import opened Wrappers
  import opened Bytes

  /** Strings are their UTF-8 bytes, on which the lossy repair of `read_wire` is the identity. */
  datatype FileAttachment = FileAttachment(
    id: seq<u8>, name: seq<u8>, contentType: seq<u8>, data: seq<u8>)

  /** The lengths that the one-byte and four-byte prefixes can carry. */
  predicate InRange(a: FileAttachment) {
    |a.id| < 0x100 && |a.name| < 0x100 && |a.contentType| < 0x100 && |a.data| < U32_RANGE
  }

  function WireSize(a: FileAttachment): nat {
    1 + |a.id| + 1 + |a.name| + 1 + |a.contentType| + 4 + |a.data|
  }

  function WireSizes(atts: seq<FileAttachment>): nat {
    if atts == [] then 0 else WireSizes(atts[..|atts| - 1]) + WireSize(atts[|atts| - 1])
  }

  // ----- Layout of a section -----

  /** A string field: one length byte (narrowed), then the bytes. */
  function ShortField(s: seq<u8>): seq<u8> {
    [AsU8(|s|)] + s
  }

  /** The payload field: four length bytes (narrowed), then the bytes. */
  function LongField(s: seq<u8>): seq<u8> {
    Be32(|s|) + s
  }

  function Section(a: FileAttachment): seq<u8> {
    ShortField(a.id) + (ShortField(a.name) + (ShortField(a.contentType) + LongField(a.data)))
  }

  /** Writes the items one after the other. */
  function Concat<T>(write: T -> seq<u8>, items: seq<T>): seq<u8> {
    if items == [] then [] else Concat(write, items[..|items| - 1]) + write(items[|items| - 1])
  }

  function Sections(atts: seq<FileAttachment>): seq<u8> {
    Concat(Section, atts)
  }

  // ----- Reference reader, one field at a time -----

  function TakeShort(s: seq<u8>, noLength: string, noBody: string)
    : Result<(seq<u8>, seq<u8>), string>
  {
    if |s| == 0 then Err(noLength)
    else if 1 + s[0] > |s| then Err(noBody)
    else Ok((s[1..1 + s[0]], s[1 + s[0]..]))
  }

  function TakeLong(s: seq<u8>, noLength: string, noBody: string)
    : Result<(seq<u8>, seq<u8>), string>
  {
    if |s| < 4 then Err(noLength)
    else if 4 + FromBe32(s) > |s| then Err(noBody)
    else Ok((s[4..4 + FromBe32(s)], s[4 + FromBe32(s)..]))
  }

  function ReadSection(s: seq<u8>): (r: Result<(FileAttachment, seq<u8>), string>)
    ensures r.Ok? ==> InRange(r.value.0)
  {
    var (id, s1) :- TakeShort(s, "truncated id_len", "truncated id");
    var (name, s2) :- TakeShort(s1, "truncated name_len", "truncated name");
    var (contentType, s3) :- TakeShort(s2, "truncated ct_len", "truncated content_type");
    var (data, s4) :- TakeLong(s3, "truncated data_len", "truncated data");
    Ok((FileAttachment(id, name, contentType, data), s4))
  }

  type Reader<!T> = seq<u8> -> Result<(T, seq<u8>), string>

  /** Reads `count` items one after the other. */
  function Repeat<T>(read: Reader<T>, count: nat, s: seq<u8>): (r: Result<(seq<T>, seq<u8>), string>)
    ensures r.Ok? ==> |r.value.0| == count
  {
    if count == 0 then Ok(([], s))
    else
      var (items, rest) :- Repeat(read, count - 1, s);
      var (item, tail) :- read(rest);
      Ok((items + [item], tail))
  }

  /** The decode loop: exactly `count` sections, in order. */
  function ReadSections(count: nat, s: seq<u8>): Result<(seq<FileAttachment>, seq<u8>), string> {
    Repeat(ReadSection, count, s)
  }

  // ----- The program's buffer and cursor code -----

  /** Appends one section to the buffer, field by field. */
  method WriteWire(a: FileAttachment, buf: seq<u8>) returns (out: seq<u8>)
    ensures out == buf + Section(a)
    ensures |out| == |buf| + WireSize(a)
  {
    out := buf;
    out := out + [AsU8(|a.id|)];
    out := out + a.id;
    out := out + [AsU8(|a.name|)];
    out := out + a.name;
    out := out + [AsU8(|a.contentType|)];
    out := out + a.contentType;
    out := out + Be32(|a.data|);
    out := out + a.data;
    assert out == buf + Section(a);
  }

  /** Appends every section in order. */
  method WriteAll(atts: seq<FileAttachment>, buf: seq<u8>) returns (out: seq<u8>)
    ensures out == buf + Sections(atts)
    ensures |out| == |buf| + WireSizes(atts)
  {
    out := buf;
    for i := 0 to |atts|
      invariant out == buf + Sections(atts[..i])
    {
      out := WriteWire(atts[i], out);
      assert atts[..i + 1][..i] == atts[..i];
    }
    assert atts[..|atts|] == atts;
    SectionsLength(atts);
  }

  /** One string field of `read_wire`: the cursor moves past the length byte, then past the body. */
  method ReadShort(data: seq<u8>, start: nat, noLength: string, noBody: string)
    returns (r: Result<(seq<u8>, nat), string>)
    requires start <= |data|
    ensures r.Err? ==> TakeShort(data[start..], noLength, noBody) == Err(r.error)
    ensures r.Ok? ==>
              && start <= r.value.1 <= |data|
              && TakeShort(data[start..], noLength, noBody) == Ok((r.value.0, data[r.value.1..]))
  {
    var pos := start;
    if pos >= |data| {
      return Err(noLength);
    }
    var len := data[pos];
    pos := pos + 1;
    if pos + len > |data| {
      return Err(noBody);
    }
    var field := data[pos..pos + len];
    assert field == data[start..][1..1 + len];
    pos := pos + len;
    assert data[pos..] == data[start..][1 + len..];
    return Ok((field, pos));
  }

  /** The payload field of `read_wire`. */
  method ReadLong(data: seq<u8>, start: nat, noLength: string, noBody: string)
    returns (r: Result<(seq<u8>, nat), string>)
    requires start <= |data|
    ensures r.Err? ==> TakeLong(data[start..], noLength, noBody) == Err(r.error)
    ensures r.Ok? ==>
              && start <= r.value.1 <= |data|
              && TakeLong(data[start..], noLength, noBody) == Ok((r.value.0, data[r.value.1..]))
  {
    var pos := start;
    if pos + 4 > |data| {
      return Err(noLength);
    }
    var len := FromBe32([data[pos], data[pos + 1], data[pos + 2], data[pos + 3]]);
    assert len == FromBe32(data[start..]);
    pos := pos + 4;
    if pos + len > |data| {
      return Err(noBody);
    }
    var field := data[pos..pos + len];
    assert field == data[start..][4..4 + len];
    pos := pos + len;
    assert data[pos..] == data[start..][4 + len..];
    return Ok((field, pos));
  }

  /** Parses one section with a moving cursor. */
  method ReadWire(data: seq<u8>) returns (r: Result<(FileAttachment, seq<u8>), string>)
    ensures r == ReadSection(data)
  {
    assert data[0..] == data;
    var id := ReadShort(data, 0, "truncated id_len", "truncated id");
    if id.Err? { return Err(id.error); }
    var name := ReadShort(data, id.value.1, "truncated name_len", "truncated name");
    if name.Err? { return Err(name.error); }
    var ct := ReadShort(data, name.value.1, "truncated ct_len", "truncated content_type");
    if ct.Err? { return Err(ct.error); }
    var payload := ReadLong(data, ct.value.1, "truncated data_len", "truncated data");
    if payload.Err? { return Err(payload.error); }
    return Ok((FileAttachment(id.value.0, name.value.0, ct.value.0, payload.value.0),
               data[payload.value.1..]));
  }

  /** The attachment loop of `decode`. */
  method ReadAll(count: nat, data: seq<u8>) returns (r: Result<(seq<FileAttachment>, seq<u8>), string>)
    ensures r == ReadSections(count, data)
  {
    var attachments: seq<FileAttachment> := [];
    var rest := data;
    for i := 0 to count
      invariant ReadSections(i, data) == Ok((attachments, rest))
    {
      var one := ReadWire(rest);
      if one.Err? {
        FailureSticks(ReadSection, i + 1, count, data);
        return Err(one.error);
      }
      attachments := attachments + [one.value.0];
      rest := one.value.1;
    }
    return Ok((attachments, rest));
  }

  lemma {:induction false} FailureSticks<T>(read: Reader<T>, i: nat, count: nat, s: seq<u8>)
    requires i <= count && Repeat(read, i, s).Err?
    ensures Repeat(read, count, s) == Repeat(read, i, s)
    decreases count
  {
    if i < count {
      FailureSticks(read, i, count - 1, s);
    }
  }

  // ----- Properties -----

  /** The bytes written are exactly what `wire_size` announces, even when a length is narrowed. */
  lemma {:induction false} SectionsLength(atts: seq<FileAttachment>)
    ensures |Sections(atts)| == WireSizes(atts)
  {
    if atts == [] {
    } else {
      SectionsLength(atts[..|atts| - 1]);
    }
  }

  lemma TakeShortWritten(s: seq<u8>, rest: seq<u8>, a: string, b: string)
    requires |s| < 0x100
    ensures TakeShort(ShortField(s) + rest, a, b) == Ok((s, rest))
  {
    var w := ShortField(s) + rest;
    assert w[0] == |s|;
    assert w[1..1 + |s|] == s;
    assert w[1 + |s|..] == rest;
  }

  lemma TakeLongWritten(s: seq<u8>, rest: seq<u8>, a: string, b: string)
    requires |s| < U32_RANGE
    ensures TakeLong(LongField(s) + rest, a, b) == Ok((s, rest))
  {
    var w := LongField(s) + rest;
    assert w == Be32(|s|) + (s + rest);
    Be32RoundTrip(|s|, s + rest);
    assert w[4..4 + |s|] == s;
    assert w[4 + |s|..] == rest;
  }

  /** An in-range section followed by any bytes reads back as the attachment and those bytes. */
  lemma ReadWrittenSection(a: FileAttachment, rest: seq<u8>)
    requires InRange(a)
    ensures ReadSection(Section(a) + rest) == Ok((a, rest))
  {
    var r3 := LongField(a.data) + rest;
    var r2 := ShortField(a.contentType) + r3;
    var r1 := ShortField(a.name) + r2;
    assert Section(a) + rest == ShortField(a.id) + r1;
    TakeShortWritten(a.id, r1, "truncated id_len", "truncated id");
    TakeShortWritten(a.name, r2, "truncated name_len", "truncated name");
    TakeShortWritten(a.contentType, r3, "truncated ct_len", "truncated content_type");
    TakeLongWritten(a.data, rest, "truncated data_len", "truncated data");
  }

  /** A section survives the wire exactly when its four lengths fit their prefixes. */
  lemma SectionRoundTripIff(a: FileAttachment, rest: seq<u8>)
    ensures ReadSection(Section(a) + rest) == Ok((a, rest)) <==> InRange(a)
  {
    if InRange(a) {
      ReadWrittenSection(a, rest);
    }
  }

  /** The reader takes the same section, and leaves the longer rest, when bytes are appended. */
  lemma ReadIsMonotone(s: seq<u8>, more: seq<u8>)
    requires ReadSection(s).Ok?
    ensures ReadSection(s + more) == Ok((ReadSection(s).value.0, ReadSection(s).value.1 + more))
  {
    var (id, s1) := TakeShort(s, "truncated id_len", "truncated id").value;
    var (name, s2) := TakeShort(s1, "truncated name_len", "truncated name").value;
    var (ct, s3) := TakeShort(s2, "truncated ct_len", "truncated content_type").value;
    TakeShortMonotone(s, more, "truncated id_len", "truncated id");
    TakeShortMonotone(s1, more, "truncated name_len", "truncated name");
    TakeShortMonotone(s2, more, "truncated ct_len", "truncated content_type");
    TakeLongMonotone(s3, more, "truncated data_len", "truncated data");
  }

  lemma TakeShortMonotone(s: seq<u8>, more: seq<u8>, a: string, b: string)
    requires TakeShort(s, a, b).Ok?
    ensures TakeShort(s + more, a, b)
            == Ok((TakeShort(s, a, b).value.0, TakeShort(s, a, b).value.1 + more))
  {
    var t := s + more;
    assert t[0] == s[0];
    assert t[1..1 + s[0]] == s[1..1 + s[0]];
    assert t[1 + s[0]..] == s[1 + s[0]..] + more;
  }

  lemma TakeLongMonotone(s: seq<u8>, more: seq<u8>, a: string, b: string)
    requires TakeLong(s, a, b).Ok?
    ensures TakeLong(s + more, a, b)
            == Ok((TakeLong(s, a, b).value.0, TakeLong(s, a, b).value.1 + more))
  {
    var t, n := s + more, FromBe32(s);
    assert FromBe32(t) == n;
    assert t[4..4 + n] == s[4..4 + n];
    assert t[4 + n..] == s[4 + n..] + more;
  }

  /** Nothing can follow bytes that already read as a section and still be consumed by it. */
  lemma NothingToConsume(pre: seq<u8>, more: seq<u8>, a: FileAttachment, b: FileAttachment, rest: seq<u8>)
    requires ReadSection(pre) == Ok((b, rest))
    requires ReadSection(pre + more) == Ok((a, []))
    ensures more == []
  {
    ReadIsMonotone(pre, more);
    assert rest + more == [];
    assert |rest + more| == |rest| + |more|;
  }

  lemma ExactReadHasNoShorterRead(s: seq<u8>, a: FileAttachment, k: nat)
    requires ReadSection(s) == Ok((a, [])) && k < |s|
    ensures ReadSection(s[..k]).Err?
  {
    var pre, more := s[..k], s[k..];
    assert pre + more == s;
    var r := ReadSection(pre);
    if r.Ok? {
      NothingToConsume(pre, more, a, r.value.0, r.value.1);
    }
  }

  /** Every strict prefix of an in-range section is rejected. */
  lemma StrictPrefixRejected(a: FileAttachment, k: nat)
    requires InRange(a) && k < |Section(a)|
    ensures ReadSection(Section(a)[..k]).Err?
  {
    var s := Section(a);
    assert s + [] == s;
    ReadWrittenSection(a, []);
    ExactReadHasNoShorterRead(s, a, k);
  }

  /** If each written item reads back whatever follows it, then so does a written list. */
  lemma {:induction false} RepeatInvertsConcat<T>(
    read: Reader<T>, write: T -> seq<u8>, items: seq<T>, rest: seq<u8>, wire: seq<u8>)
    requires forall t, more :: t in items ==> read(write(t) + more) == Ok((t, more))
    requires wire == Concat(write, items) + rest
    ensures Repeat(read, |items|, wire) == Ok((items, rest))
  {
    if items == [] {
      assert wire == rest;
    } else {
      var front, last := items[..|items| - 1], items[|items| - 1];
      assert wire == Concat(write, front) + (write(last) + rest);
      RepeatInvertsConcat(read, write, front, write(last) + rest, wire);
      assert front + [last] == items;
    }
  }

  /** The decode loop recovers a written list in order and leaves the bytes after it. */
  lemma ReadWrittenSections(atts: seq<FileAttachment>, rest: seq<u8>, wire: seq<u8>)
    requires forall a :: a in atts ==> InRange(a)
    requires wire == Sections(atts) + rest
    ensures ReadSections(|atts|, wire) == Ok((atts, rest))
  {
    forall a, more | a in atts
      ensures ReadSection(Section(a) + more) == Ok((a, more))
    {
      ReadWrittenSection(a, more);
    }
    RepeatInvertsConcat(ReadSection, Section, atts, rest, wire);
  }

  /** What one count byte and the length prefixes can carry. */
  predicate ListFits(atts: seq<FileAttachment>) {
    |atts| < 0x100 && forall a :: a in atts ==> InRange(a)
  }

  lemma {:induction false} RecoveredListFits(
    count: nat, s: seq<u8>, atts: seq<FileAttachment>, rest: seq<u8>)
    requires ReadSections(count, s) == Ok((atts, rest))
    ensures |atts| == count && forall a :: a in atts ==> InRange(a)
  {
    if count == 0 {
    } else {
      var (front, mid) := ReadSections(count - 1, s).value;
      RecoveredListFits(count - 1, s, front, mid);
      var last := ReadSection(mid).value.0;
      assert InRange(last);
      assert atts == front + [last];
    }
  }

  lemma FittingListRecovered(atts: seq<FileAttachment>)
    requires ListFits(atts)
    ensures ReadSections(AsU8(|atts|), Sections(atts)) == Ok((atts, []))
  {
    var wire := Sections(atts);
    assert wire == wire + [];
    ReadWrittenSections(atts, [], wire);
  }

  /**
   * With the narrowed count byte in front, the list is recovered exactly when there are at most
   * 255 attachments and each of them is in range.
   */
  lemma AttachmentListRoundTripIff(atts: seq<FileAttachment>)
    ensures ReadSections(AsU8(|atts|), Sections(atts)) == Ok((atts, [])) <==> ListFits(atts)
  {
    if ListFits(atts) {
      FittingListRecovered(atts);
    } else if ReadSections(AsU8(|atts|), Sections(atts)) == Ok((atts, [])) {
      RecoveredListFits(AsU8(|atts|), Sections(atts), atts, []);
    }
  }
}
