/**
 * The write-ahead log's record format (consensus/wal.go): a checksum, a length and the data; how the
 * decoder fares on a log that was cut off anywhere, and what repair makes of it.
 */
module WalCodec {
  import opened Common

  type Byte = x: int | 0 <= x < 256

  /** maxMsgSize + 24, with maxMsgSize one MiB. */
  const MAX_MSG_SIZE := 1048600

  /** A logged message: the end of a height, or an input or event whose content does not matter here. */
  datatype Message = EndHeight(height: int) | Input(content: nat)

  datatype TimedMessage = TimedMessage(time: int, msg: Message)

  /** The protobuf encoding of messages and the CRC-32C checksum, which are not modelled further. */
  datatype Codec = Codec(marshal: TimedMessage -> seq<Byte>, unmarshal: seq<Byte> -> Option<TimedMessage>,
                         crc: seq<Byte> -> nat)

  /** Messages marshal to at least one byte and unmarshal to themselves; a checksum has 32 bits. */
  ghost predicate Lawful(c: Codec) {
    && (forall m :: |c.marshal(m)| > 0 && c.unmarshal(c.marshal(m)) == Some(m))
    && (forall d: seq<Byte> :: c.crc(d) < 0x1_0000_0000)
  }

  // ----- big-endian numbers -----

  function PutUint32(n: nat): (b: seq<Byte>)
    requires n < 0x1_0000_0000
    ensures |b| == 4 && Uint32(b) == n
  {
    [n / 0x100_0000, n / 0x1_0000 % 0x100, n / 0x100 % 0x100, n % 0x100]
  }

  function Uint32(b: seq<Byte>): nat
    requires |b| == 4
  {
    b[0] as int * 0x100_0000 + b[1] as int * 0x1_0000 + b[2] as int * 0x100 + b[3] as int
  }

  // ----- readers -----

  /**
   * What a log is read through. A group reader fills the buffer or reports the end; a file read
   * that ends early leaves the rest of the buffer zero and reports nothing.
   */
  datatype Reader = GroupReader | FileReader

  datatype Read = Got(bytes: seq<Byte>, rest: seq<Byte>) | End | Failed

  function ReadFull(rd: Reader, s: seq<Byte>, n: nat): (r: Read)
    ensures r.Got? ==> |r.bytes| == n && |r.rest| <= |s| && (n > 0 ==> |r.rest| < |s|)
    ensures n > 0 && |s| >= n ==> r == Got(s[..n], s[n..])
    ensures n > 0 && (s == [] || (rd == GroupReader && |s| < n)) ==> r == End
  {
    if n == 0 then (if rd == GroupReader then Failed else Got([], s))
    else if |s| >= n then Got(s[..n], s[n..])
    else if s == [] || rd == GroupReader then End
    else Got(s + seq(n - |s|, i => 0), [])
  }

  // ----- records -----

  function Encode(c: Codec, m: TimedMessage): Option<seq<Byte>>
    requires Lawful(c)
  {
    var data := c.marshal(m);
    if |data| > MAX_MSG_SIZE then None
    else Some(PutUint32(c.crc(data)) + PutUint32(|data|) + data)
  }

  datatype Decoded = Record(msg: TimedMessage, rest: seq<Byte>) | Eof | Corrupted

  function Decode(c: Codec, rd: Reader, s: seq<Byte>): (r: Decoded)
    ensures r.Record? ==> |r.rest| < |s|
    ensures s == [] ==> r == Eof
  {
    match ReadFull(rd, s, 4)
    case End => Eof
    case Failed => Corrupted
    case Got(crc, s1) =>
      match ReadFull(rd, s1, 4)
      case Got(length, s2) =>
        if Uint32(length) > MAX_MSG_SIZE then Corrupted
        else DecodeData(c, Uint32(crc), ReadFull(rd, s2, Uint32(length)))
      case _ => Corrupted
  }

  function DecodeData(c: Codec, crc: nat, r: Read): Decoded {
    if !r.Got? || c.crc(r.bytes) != crc then Corrupted
    else
      match c.unmarshal(r.bytes)
      case Some(m) => Record(m, r.rest)
      case None => Corrupted
  }

  /** Every message up to the first error, and whether that error is a clean end of file. */
  function DecodeAll(c: Codec, rd: Reader, s: seq<Byte>): (seq<TimedMessage>, bool)
    decreases |s|
  {
    match Decode(c, rd, s)
    case Record(m, rest) =>
      var (ms, clean) := DecodeAll(c, rd, rest);
      ([m] + ms, clean)
    case Eof => ([], true)
    case Corrupted => ([], false)
  }

  ghost predicate Encodable(c: Codec, ms: seq<TimedMessage>)
    requires Lawful(c)
  {
    forall i :: 0 <= i < |ms| ==> Encode(c, ms[i]).Some?
  }

  function EncodeAll(c: Codec, ms: seq<TimedMessage>): seq<Byte>
    requires Lawful(c) && Encodable(c, ms)
  {
    if ms == [] then [] else Encode(c, ms[0]).value + EncodeAll(c, ms[1..])
  }

  // ----- decoding undoes encoding -----

  lemma DecodeEncode(c: Codec, rd: Reader, m: TimedMessage, rest: seq<Byte>)
    requires Lawful(c) && Encode(c, m).Some?
    ensures Decode(c, rd, Encode(c, m).value + rest) == Record(m, rest)
  {
    var data := c.marshal(m);
    var s := Encode(c, m).value + rest;
    var crc, length := PutUint32(c.crc(data)), PutUint32(|data|);
    assert s[..4] == crc && s[4..] == length + data + rest;
    assert s[4..][..4] == length && s[4..][4..] == data + rest;
    assert (data + rest)[..|data|] == data && (data + rest)[|data|..] == rest;
  }

  lemma DecodeAllEncode(c: Codec, rd: Reader, m: TimedMessage, rest: seq<Byte>)
    requires Lawful(c) && Encode(c, m).Some?
    ensures DecodeAll(c, rd, Encode(c, m).value + rest) == ([m] + DecodeAll(c, rd, rest).0, DecodeAll(c, rd, rest).1)
  {
    DecodeEncode(c, rd, m, rest);
  }

  /** A log decodes to the messages written, and ends cleanly, through either reader. */
  lemma {:induction false} RoundTrip(c: Codec, rd: Reader, ms: seq<TimedMessage>)
    requires Lawful(c) && Encodable(c, ms)
    ensures DecodeAll(c, rd, EncodeAll(c, ms)) == (ms, true)
  {
    if ms != [] {
      DecodeEncode(c, rd, ms[0], EncodeAll(c, ms[1..]));
      RoundTrip(c, rd, ms[1..]);
      assert [ms[0]] + ms[1..] == ms;
    }
  }

  // ----- logs that were cut off -----

  /** How many of the records lie wholly within the first n bytes of the log. */
  function WholeRecords(c: Codec, ms: seq<TimedMessage>, n: nat): (k: nat)
    requires Lawful(c) && Encodable(c, ms)
    ensures k <= |ms|
  {
    if ms == [] || n < |Encode(c, ms[0]).value| then 0
    else 1 + WholeRecords(c, ms[1..], n - |Encode(c, ms[0]).value|)
  }

  /** Cutting into the next record: a clean end within its checksum, corruption after that. */
  lemma CutRecord(c: Codec, m: TimedMessage, n: nat)
    requires Lawful(c) && Encode(c, m).Some? && n < |Encode(c, m).value|
    ensures DecodeAll(c, GroupReader, Encode(c, m).value[..n]) == ([], n < 4)
  {
    var data := c.marshal(m);
    var e := Encode(c, m).value;
    var s := e[..n];
    if n >= 8 {
      assert e[4..8] == PutUint32(|data|);
      assert s[4..][..4] == s[4..8] == e[4..8];
    }
  }

  /**
   * Decoding any byte prefix of an encoded log gives every wholly contained record, in order and
   * nothing else; the end is clean exactly when fewer than four bytes of the next record are left.
   */
  lemma {:induction false} PrefixDecodes(c: Codec, ms: seq<TimedMessage>, n: nat)
    requires Lawful(c) && Encodable(c, ms) && n <= |EncodeAll(c, ms)|
    ensures var k := WholeRecords(c, ms, n);
            && |EncodeAll(c, ms[..k])| <= n
            && DecodeAll(c, GroupReader, EncodeAll(c, ms)[..n]) == (ms[..k], n - |EncodeAll(c, ms[..k])| < 4)
  {
    hide Encode, Decode, ReadFull, DecodeData, Lawful;
    if ms != [] {
      var e, tail := Encode(c, ms[0]).value, EncodeAll(c, ms[1..]);
      if n < |e| {
        assert (e + tail)[..n] == e[..n];
        CutRecord(c, ms[0], n);
      } else {
        var k := WholeRecords(c, ms[1..], n - |e|);
        PrefixDecodes(c, ms[1..], n - |e|);
        DecodeAllEncode(c, GroupReader, ms[0], tail[..n - |e|]);
        CutAfter(c, ms, n);
        hide DecodeAll;
        assert ms[..k + 1] == [ms[0]] + ms[1..][..k];
        assert ms[..k + 1][1..] == ms[1..][..k];
      }
    }
  }

  lemma CutAfter(c: Codec, ms: seq<TimedMessage>, n: nat)
    requires Lawful(c) && Encodable(c, ms) && ms != [] && |Encode(c, ms[0]).value| <= n <= |EncodeAll(c, ms)|
    ensures var e := Encode(c, ms[0]).value;
            EncodeAll(c, ms)[..n] == e + EncodeAll(c, ms[1..])[..n - |e|]
  {
    hide Encode;
  }

  /** A file read may fill up the cut record, so repair gets every whole record and at most one more. */
  lemma {:induction false} PrefixReadFromFile(c: Codec, ms: seq<TimedMessage>, n: nat)
    requires Lawful(c) && Encodable(c, ms) && n <= |EncodeAll(c, ms)|
    ensures var k := WholeRecords(c, ms, n);
            ms[..k] <= DecodeAll(c, FileReader, EncodeAll(c, ms)[..n]).0
            && |DecodeAll(c, FileReader, EncodeAll(c, ms)[..n]).0| <= k + 1
  {
    hide Encode, Decode, ReadFull, DecodeData, Lawful;
    if ms != [] {
      var e, tail := Encode(c, ms[0]).value, EncodeAll(c, ms[1..]);
      if n < |e| {
        assert (e + tail)[..n] == e[..n];
        CutRecordInFile(c, ms[0], n);
      } else {
        var k := WholeRecords(c, ms[1..], n - |e|);
        PrefixReadFromFile(c, ms[1..], n - |e|);
        DecodeAllEncode(c, FileReader, ms[0], tail[..n - |e|]);
        CutAfter(c, ms, n);
        hide DecodeAll;
        assert ms[..k + 1] == [ms[0]] + ms[1..][..k];
      }
    }
  }

  lemma CutRecordInFile(c: Codec, m: TimedMessage, n: nat)
    requires Lawful(c) && Encode(c, m).Some? && n < |Encode(c, m).value|
    ensures |DecodeAll(c, FileReader, Encode(c, m).value[..n]).0| <= 1
  {
    var data := c.marshal(m);
    var e := Encode(c, m).value;
    var s := e[..n];
    if n >= 8 {
      assert e[4..8] == PutUint32(|data|);
      assert s[4..][..4] == s[4..8] == e[4..8];
    }
  }

  // ----- repair -----

  /** What repair keeps: the decoded messages up to the first that cannot be encoded again. */
  function Kept(c: Codec, ms: seq<TimedMessage>): (k: nat)
    requires Lawful(c)
    ensures k <= |ms| && Encodable(c, ms[..k])
    ensures k < |ms| ==> Encode(c, ms[k]).None?
  {
    if ms == [] || Encode(c, ms[0]).None? then 0
    else
      var k := Kept(c, ms[1..]);
      assert ms[..1 + k] == [ms[0]] + ms[1..][..k];
      1 + k
  }

  function Repaired(c: Codec, s: seq<Byte>): seq<Byte>
    requires Lawful(c)
  {
    var ms := DecodeAll(c, FileReader, s).0;
    EncodeAll(c, ms[..Kept(c, ms)])
  }

  lemma {:induction false} EncodeAllAppend(c: Codec, ms: seq<TimedMessage>, m: TimedMessage)
    requires Lawful(c) && Encodable(c, ms) && Encode(c, m).Some?
    ensures EncodeAll(c, ms + [m]) == EncodeAll(c, ms) + Encode(c, m).value
  {
    if ms == [] {
      assert [m][1..] == [];
    } else {
      assert (ms + [m])[1..] == ms[1..] + [m];
      EncodeAllAppend(c, ms[1..], m);
    }
  }

  lemma EncodeNothing(c: Codec)
    requires Lawful(c)
    ensures EncodeAll(c, []) == []
  {
  }

  /** repairWalFile: copies what it can decode, up to the first error. */
  method RepairWalFile(c: Codec, src: seq<Byte>) returns (dst: seq<Byte>, ok: bool)
    requires Lawful(c)
    ensures dst == Repaired(c, src)
    ensures ok <==> Encodable(c, DecodeAll(c, FileReader, src).0)
  {
    dst := [];
    ok := true;
    var input := src;
    ghost var done: seq<TimedMessage> := [];
    ghost var all := DecodeAll(c, FileReader, src).0;
    hide Encode, Decode, Kept, Lawful, EncodeAll;
    assert EncodeAll(c, []) == [] by { EncodeNothing(c); }
    while true
      invariant Encodable(c, done) && dst == EncodeAll(c, done) && ok
      invariant all == done + DecodeAll(c, FileReader, input).0
      decreases |input|
    {
      var d := Decode(c, FileReader, input);
      assert all[..|done|] == done;
      if !d.Record? {
        assert all == done;
        KeptIsFirst(c, all, |done|);
        break;
      }
      assert all[|done|] == d.msg;
      var e := Encode(c, d.msg);
      if e.None? {
        KeptIsFirst(c, all, |done|);
        ok := false;
        break;
      }
      EncodeAllAppend(c, done, d.msg);
      dst := dst + e.value;
      done := done + [d.msg];
      input := d.rest;
    }
  }

  lemma KeptIsFirst(c: Codec, ms: seq<TimedMessage>, k: nat)
    requires Lawful(c) && k <= |ms| && Encodable(c, ms[..k]) && (k < |ms| ==> Encode(c, ms[k]).None?)
    ensures Kept(c, ms) == k
  {
    var n := Kept(c, ms);
    hide Encode, Lawful;
    forall i | 0 <= i < k ensures Encode(c, ms[i]).Some? {
      assert ms[..k][i] == ms[i];
    }
    forall i | 0 <= i < n ensures Encode(c, ms[i]).Some? {
      assert ms[..n][i] == ms[i];
    }
  }

  /** Whatever the damage, a repaired log decodes to its end through either reader. */
  lemma RepairDecodesCleanly(c: Codec, rd: Reader, s: seq<Byte>)
    requires Lawful(c)
    ensures var ms := DecodeAll(c, FileReader, s).0;
            DecodeAll(c, rd, Repaired(c, s)) == (ms[..Kept(c, ms)], true)
  {
    var ms := DecodeAll(c, FileReader, s).0;
    RoundTrip(c, rd, ms[..Kept(c, ms)]);
  }

  /** Repairing again changes nothing. */
  lemma RepairIsIdempotent(c: Codec, s: seq<Byte>)
    requires Lawful(c)
    ensures Repaired(c, Repaired(c, s)) == Repaired(c, s)
  {
    var ms := DecodeAll(c, FileReader, s).0;
    var kept := ms[..Kept(c, ms)];
    RepairDecodesCleanly(c, FileReader, s);
    assert kept[..|kept|] == kept;
    KeptIsFirst(c, kept, |kept|);
  }

  /** Repairing a log that was cut off loses none of its whole records. */
  lemma RepairKeepsWholeRecords(c: Codec, ms: seq<TimedMessage>, n: nat)
    requires Lawful(c) && Encodable(c, ms) && n <= |EncodeAll(c, ms)|
    ensures ms[..WholeRecords(c, ms, n)] <= DecodeAll(c, GroupReader, Repaired(c, EncodeAll(c, ms)[..n])).0
  {
    var s := EncodeAll(c, ms)[..n];
    var all := DecodeAll(c, FileReader, s).0;
    PrefixReadFromFile(c, ms, n);
    RepairDecodesCleanly(c, GroupReader, s);
    hide Encode, Decode, DecodeAll, EncodeAll, WholeRecords;
  }
}
