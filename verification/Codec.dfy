/**
User messages: fields are written into a buffer of fixed size and read back one after another.
A byte is 0 to 255, a long is a 32-bit integer in two's complement, low byte first, and a
string is a C string: it holds no zero byte and is written with one at its end.
*/
module Codec {
  import opened Options

  type Byte = b: int | 0 <= b < 256

  type Int32 = i: int | -0x8000_0000 <= i < 0x8000_0000

  type CString = s: seq<Byte> | 0 !in s

  /** The size of the array behind READ_STRING. */
  const STRING_SIZE: nat := 2048

  datatype Field = FByte(byte: Byte) | FLong(long: Int32) | FString(str: CString)

  // ---------- one field ----------

  function LongByte(data: Int32, k: nat): Byte
    requires k < 4
  {
    if k == 0 then data % 0x100
    else if k == 1 then data / 0x100 % 0x100
    else if k == 2 then data / 0x1_0000 % 0x100
    else data / 0x100_0000 % 0x100
  }

  function Encode(f: Field): (bytes: seq<Byte>)
    ensures |bytes| >= 1
  {
    match f
    case FByte(b) => [b]
    case FLong(l) => [LongByte(l, 0), LongByte(l, 1), LongByte(l, 2), LongByte(l, 3)]
    case FString(s) => s + [0]
  }

  function EncodeAll(fields: seq<Field>): seq<Byte>
  {
    if fields == [] then [] else EncodeAll(fields[..|fields| - 1]) + Encode(fields[|fields| - 1])
  }

  // ---------- writing ----------

  datatype Output = Output(bytes: seq<Byte>, overflow: bool)

  /** A field that does not fit sets the flag; a string still leaves an empty string if it can. */
  function Put(capacity: nat, o: Output, f: Field): (r: Output)
    requires |o.bytes| <= capacity
    ensures |r.bytes| <= capacity
  {
    if |o.bytes| + |Encode(f)| <= capacity then o.(bytes := o.bytes + Encode(f))
    else if f.FString? && |o.bytes| < capacity then Output(o.bytes + [0], true)
    else o.(overflow := true)
  }

  function PutAll(capacity: nat, fields: seq<Field>): (r: Output)
    ensures |r.bytes| <= capacity
  {
    if fields == [] then Output([], false)
    else Put(capacity, PutAll(capacity, fields[..|fields| - 1]), fields[|fields| - 1])
  }

  /** The flag tells exactly whether everything fitted; if so the buffer holds the encoding. */
  lemma {:induction false} OverflowIffTooLong(capacity: nat, fields: seq<Field>)
    ensures PutAll(capacity, fields).overflow <==> |EncodeAll(fields)| > capacity
    ensures !PutAll(capacity, fields).overflow ==> PutAll(capacity, fields).bytes == EncodeAll(fields)
  {
    if fields != [] {
      OverflowIffTooLong(capacity, fields[..|fields| - 1]);
    }
  }

  /** A buffer pointer is an array and an offset; a null buffer has room for nothing. */
  lemma TakeMore(s: seq<Byte>, at: nat, n: nat)
    requires at + n <= |s|
    ensures s[..at + n] == s[..at] + s[at..at + n]
  {
  }

  class BufferWriter {
    var buffer: array?<Byte>
    var at: nat
    var remaining: nat
    var overflow: bool
    var overallLength: nat

    ghost predicate Valid()
      reads this
    {
      if buffer == null then remaining == overallLength else at + remaining == overallLength <= buffer.Length
    }

    ghost function Capacity(): nat
      reads this
    {
      if buffer == null then 0 else overallLength
    }

    ghost function Result(): Output
      requires Valid()
      reads this, buffer
    {
      Output(if buffer == null then [] else buffer[..at], overflow)
    }

    constructor (buffer: array?<Byte>, bufferLen: nat)
      requires buffer != null ==> bufferLen <= buffer.Length
      ensures Valid() && this.buffer == buffer && Result() == Output([], false)
      ensures Capacity() == if buffer == null then 0 else bufferLen
    {
      this.buffer := buffer;
      at, remaining, overflow, overallLength := 0, bufferLen, false, bufferLen;
      new;
      assert buffer != null ==> buffer[..0] == [];
    }

    /** Field f has been put after the old contents, and nothing behind them has changed. */
    twostate predicate HasPut(f: Field)
      requires old(Valid())
      reads this, buffer
    {
      && Valid() && buffer == old(buffer) && Capacity() == old(Capacity())
      && Result() == Put(Capacity(), old(Result()), f)
      && (buffer != null ==> forall i :: at <= i < buffer.Length ==> buffer[i] == old(buffer[i]))
    }

    method WriteByte(data: Byte)
      requires Valid()
      modifies this, buffer
      ensures HasPut(FByte(data))
    {
      if buffer == null || remaining == 0 {
        overflow := true;
        return;
      }
      buffer[at] := data;
      at := at + 1;
      remaining := remaining - 1;
      assert buffer[..at] == old(buffer[..at]) + [data];
    }

    method WriteLong(data: Int32)
      requires Valid()
      modifies this, buffer
      ensures HasPut(FLong(data))
    {
      if buffer == null || remaining < 4 {
        overflow := true;
        return;
      }
      buffer[at] := LongByte(data, 0);
      buffer[at + 1] := LongByte(data, 1);
      buffer[at + 2] := LongByte(data, 2);
      buffer[at + 3] := LongByte(data, 3);
      at := at + 4;
      remaining := remaining - 4;
      assert buffer[..at] == old(buffer[..at]) + Encode(FLong(data));
    }

    /** strcpy to the buffer pointer. */
    method CopyString(str: CString)
      requires buffer != null && at + |str| + 1 <= buffer.Length
      modifies buffer
      ensures buffer[at..at + |str| + 1] == Encode(FString(str))
      ensures buffer[..at] == old(buffer[..at])
      ensures forall i :: at + |str| + 1 <= i < buffer.Length ==> buffer[i] == old(buffer[i])
    {
      for i := 0 to |str|
        invariant buffer[at..at + i] == str[..i]
        invariant buffer[..at] == old(buffer[..at])
        invariant forall k :: at + i <= k < buffer.Length ==> buffer[k] == old(buffer[k])
      {
        buffer[at + i] := str[i];
      }
      buffer[at + |str|] := 0;
    }

    /** A string that fits. */
    method PutString(text: CString)
      requires Valid() && buffer != null && |text| + 1 <= remaining
      modifies this`at, this`remaining, buffer
      ensures Valid() && at == old(at) + |text| + 1
      ensures buffer[..at] == old(buffer[..at]) + Encode(FString(text))
      ensures forall i :: at <= i < buffer.Length ==> buffer[i] == old(buffer[i])
    {
      CopyString(text);
      TakeMore(buffer[..], at, |text| + 1);
      remaining := remaining - (|text| + 1);
      at := at + |text| + 1;
    }

    /** A null string is written as an empty one. */
    method WriteString(str: Option<CString>)
      requires Valid()
      modifies this, buffer
      ensures HasPut(FString(if str.Some? then str.value else []))
    {
      if buffer == null || remaining == 0 {
        overflow := true;
        return;
      }
      var text: CString := [];
      if str.Some? {
        text := str.value;
      }
      if |text| + 1 > remaining {
        overflow := true;
        text := [];
      }
      PutString(text);
    }

    /** A null buffer never counts as used. */
    method GetSpaceUsed() returns (used: int)
      requires Valid()
      ensures used == |Result().bytes|
    {
      used := overallLength - remaining;
    }
  }

  // ---------- reading ----------

  datatype Cursor = Cursor(at: nat, bad: bool)

  datatype Number = Number(value: int, cursor: Cursor)

  datatype Text = Text(chars: seq<Byte>, at: nat)

  function Signed(b: Byte): int
  {
    if b < 128 then b else b - 256
  }

  /** A character stored back as a byte. */
  function Unsigned(c: int): Byte
    requires -128 <= c < 128
  {
    if c < 0 then c + 256 else c
  }

  function ReadByteAt(data: seq<Byte>, c: Cursor): Number
  {
    if c.at + 1 > |data| then Number(-1, c.(bad := true)) else Number(data[c.at], c.(at := c.at + 1))
  }

  function ReadCharAt(data: seq<Byte>, c: Cursor): Number
  {
    if c.at + 1 > |data| then Number(-1, c.(bad := true)) else Number(Signed(data[c.at]), c.(at := c.at + 1))
  }

  /** The sum of the shifted bytes, wrapped to 32 bits. */
  function FromBytes(b0: int, b1: int, b2: int, b3: int): Int32
  {
    var r := (b0 + 0x100 * b1 + 0x1_0000 * b2 + 0x100_0000 * b3) % 0x1_0000_0000;
    if r < 0x8000_0000 then r else r - 0x1_0000_0000
  }

  function ReadLongAt(data: seq<Byte>, c: Cursor): Number
  {
    if c.at + 4 > |data| then Number(-1, c.(bad := true))
    else
      Number(FromBytes(data[c.at], data[c.at + 1], data[c.at + 2], data[c.at + 3]), c.(at := c.at + 4))
  }

  /** The characters READ_STRING still takes when it has l of them, and where it stops. It stops
      at a zero, at a byte that reads as -1, at the end of the data and when its array is full. */
  function Scan(data: seq<Byte>, at: nat, l: nat): (r: Text)
    requires l < STRING_SIZE - 1
    ensures at <= r.at <= at + |r.chars| + 1 && 0 !in r.chars
    decreases |data| - at
  {
    if at + 1 > |data| then Text([], at)
    else if data[at] == 255 || data[at] == 0 then Text([], at + 1)
    else if l + 1 == STRING_SIZE - 1 then Text([data[at]], at + 1)
    else
      var rest := Scan(data, at + 1, l + 1);
      Text([data[at]] + rest.chars, rest.at)
  }

  class MessageReader {
    var buf: array<Byte>
    var size: nat
    var read: nat
    var bad: bool

    ghost predicate Valid()
      reads this
    {
      size <= buf.Length
    }

    ghost function Data(): seq<Byte>
      requires Valid()
      reads this, buf
    {
      buf[..size]
    }

    ghost function At(): Cursor
      reads this
    {
      Cursor(read, bad)
    }

    constructor BeginRead(buf: array<Byte>, size: nat)
      requires size <= buf.Length
      ensures Valid() && Data() == buf[..size] && At() == Cursor(0, false)
    {
      this.buf, this.size, read, bad := buf, size, 0, false;
    }

    method ReadOk() returns (ok: bool)
      ensures ok == !At().bad
    {
      ok := !bad;
    }

    method ReadChar() returns (c: int)
      requires Valid()
      modifies this`read, this`bad
      ensures Number(c, At()) == ReadCharAt(Data(), old(At()))
    {
      if read + 1 > size {
        bad := true;
        return -1;
      }
      c := Signed(buf[read]);
      read := read + 1;
    }

    method ReadByte() returns (c: int)
      requires Valid()
      modifies this`read, this`bad
      ensures Number(c, At()) == ReadByteAt(Data(), old(At()))
    {
      if read + 1 > size {
        bad := true;
        return -1;
      }
      c := buf[read];
      read := read + 1;
    }

    method ReadLong() returns (c: int)
      requires Valid()
      modifies this`read, this`bad
      ensures Number(c, At()) == ReadLongAt(Data(), old(At()))
    {
      if read + 4 > size {
        bad := true;
        return -1;
      }
      c := FromBytes(buf[read], buf[read + 1], buf[read + 2], buf[read + 3]);
      read := read + 4;
    }

    /** The end of the data ends a string without making the message bad. */
    method ReadString() returns (s: seq<Byte>)
      requires Valid()
      modifies this`read, this`bad
      ensures Text(s, At().at) == Scan(Data(), old(read), 0) && At().bad == old(bad)
    {
      s := [];
      ghost var data, start := Data(), read;
      while |s| < STRING_SIZE - 1
        invariant |s| <= STRING_SIZE - 1 && bad == old(bad) && Data() == data
        invariant ScanOn(data, s, read) == ScanOn(data, [], start)
      {
        if read + 1 > size {
          break;
        }
        SignedByte(data[read]);
        var c := ReadChar();
        if c == -1 || c == 0 {
          break;
        }
        s := s + [Unsigned(c)];
      }
      ScanOnIs(data, [], start);
    }
  }

  lemma SignedByte(b: Byte)
    ensures Signed(b) == -1 <==> b == 255
    ensures Signed(b) == 0 <==> b == 0
    ensures Unsigned(Signed(b)) == b
  {
  }

  /** The scan as the loop does it, with the characters s taken so far. */
  function ScanOn(data: seq<Byte>, s: seq<Byte>, at: nat): Text
    requires |s| <= STRING_SIZE - 1
    decreases |data| - at
  {
    if |s| == STRING_SIZE - 1 || at + 1 > |data| then Text(s, at)
    else if data[at] == 255 || data[at] == 0 then Text(s, at + 1)
    else ScanOn(data, s + [data[at]], at + 1)
  }

  lemma {:induction false} ScanOnIs(data: seq<Byte>, s: seq<Byte>, at: nat)
    requires |s| < STRING_SIZE - 1
    ensures ScanOn(data, s, at) == Text(s + Scan(data, at, |s|).chars, Scan(data, at, |s|).at)
    decreases |data| - at
  {
    if at < |data| && data[at] != 255 && data[at] != 0 && |s| + 1 < STRING_SIZE - 1 {
      ScanOnIs(data, s + [data[at]], at + 1);
    }
  }

  // ---------- round trips ----------

  lemma LongSplit(n: int)
    ensures n % 0x100 + 0x100 * (n / 0x100 % 0x100) + 0x1_0000 * (n / 0x1_0000 % 0x100)
            + 0x100_0000 * (n / 0x100_0000 % 0x100) == n % 0x1_0000_0000
  {
    assert n / 0x1_0000 == n / 0x100 / 0x100;
    assert n / 0x100_0000 == n / 0x1_0000 / 0x100;
    assert n / 0x1_0000_0000 == n / 0x100_0000 / 0x100;
  }

  lemma FromParts(b0: int, b1: int, b2: int, b3: int, l: Int32)
    requires b0 + 0x100 * b1 + 0x1_0000 * b2 + 0x100_0000 * b3 == l % 0x1_0000_0000
    ensures FromBytes(b0, b1, b2, b3) == l
  {
  }

  lemma LongRoundTrip(l: Int32)
    ensures FromBytes(LongByte(l, 0), LongByte(l, 1), LongByte(l, 2), LongByte(l, 3)) == l
  {
    LongSplit(l);
    FromParts(l % 0x100, l / 0x100 % 0x100, l / 0x1_0000 % 0x100, l / 0x100_0000 % 0x100, l);
  }

  /** A long is written with its low byte first. */
  lemma LowByteFirst(l: Int32)
    ensures var e := Encode(FLong(l));
            && |e| == 4
            && (e[0] as int) + 0x100 * (e[1] as int) + 0x1_0000 * (e[2] as int) + 0x100_0000 * (e[3] as int)
               == l % 0x1_0000_0000
  {
    LongSplit(l);
  }

  /** Scanning runs through k bytes that end no string. */
  lemma {:induction false} ScanThrough(data: seq<Byte>, at: nat, l: nat, k: nat)
    requires l + k < STRING_SIZE - 1 && at + k <= |data|
    requires forall i :: at <= i < at + k ==> data[i] != 0 && data[i] != 255
    ensures Scan(data, at, l).chars == data[at..at + k] + Scan(data, at + k, l + k).chars
    ensures Scan(data, at, l).at == Scan(data, at + k, l + k).at
    decreases k
  {
    if k > 0 {
      ScanThrough(data, at + 1, l + 1, k - 1);
      assert data[at..at + k] == [data[at]] + data[at + 1..at + k];
    }
  }

  /** The strings that READ_STRING returns whole, terminator included. */
  predicate Readable(s: CString)
  {
    |s| <= 2046 && 255 !in s
  }

  lemma StringComesBack(data: seq<Byte>, at: nat, s: CString)
    requires at + |s| < |data| && data[at..at + |s|] == s && data[at + |s|] == 0 && Readable(s)
    ensures Scan(data, at, 0) == Text(s, at + |s| + 1)
  {
    forall i | at <= i < at + |s|
      ensures data[i] != 0 && data[i] != 255
    {
      assert data[i] == s[i - at];
    }
    ScanThrough(data, at, 0, |s|);
    assert Scan(data, at + |s|, |s|) == Text([], at + |s| + 1);
    assert s + [] == s;
  }

  /** At most as many characters as the array holds. */
  lemma {:induction false} ScanShort(data: seq<Byte>, at: nat, l: nat)
    requires l < STRING_SIZE - 1
    ensures |Scan(data, at, l).chars| <= STRING_SIZE - 1 - l
    ensures |Scan(data, at, l).chars| == STRING_SIZE - 1 - l ==> Scan(data, at, l).at == at + STRING_SIZE - 1 - l
    ensures 255 !in Scan(data, at, l).chars
    decreases STRING_SIZE - l
  {
    if l + 1 < STRING_SIZE - 1 {
      ScanShort(data, at + 1, l + 1);
    }
  }

  /** A string comes back whole, with the cursor behind it, exactly if it is at most 2046 long
      and holds no byte 255. */
  lemma StringRoundTrip(data: seq<Byte>, at: nat, s: CString)
    requires at + |s| < |data| && data[at..at + |s|] == s && data[at + |s|] == 0
    ensures Scan(data, at, 0) == Text(s, at + |s| + 1) <==> Readable(s)
  {
    if Readable(s) {
      StringComesBack(data, at, s);
    } else {
      ScanShort(data, at, 0);
    }
  }

  datatype Kind = KByte | KLong | KString

  function KindOf(f: Field): Kind
  {
    match f
    case FByte(_) => KByte
    case FLong(_) => KLong
    case FString(_) => KString
  }

  datatype Value = Int(value: int) | Str(chars: seq<Byte>)

  /** What one read returns, and where it leaves the cursor. */
  datatype Reading = Reading(value: Value, cursor: Cursor)

  function ReadField(data: seq<Byte>, c: Cursor, k: Kind): Reading
  {
    match k
    case KByte => Reading(Int(ReadByteAt(data, c).value), ReadByteAt(data, c).cursor)
    case KLong => Reading(Int(ReadLongAt(data, c).value), ReadLongAt(data, c).cursor)
    case KString => Reading(Str(Scan(data, c.at, 0).chars), c.(at := Scan(data, c.at, 0).at))
  }

  function ValueOf(f: Field): Value
  {
    match f
    case FByte(b) => Int(b)
    case FLong(l) => Int(l)
    case FString(s) => Str(s)
  }

  predicate FieldReadable(f: Field)
  {
    f.FString? ==> Readable(f.str)
  }

  /** The cursor after reading fields of these kinds one after another. */
  function CursorAfter(data: seq<Byte>, fields: seq<Field>): Cursor
  {
    if fields == [] then Cursor(0, false)
    else
      var n := |fields| - 1;
      ReadField(data, CursorAfter(data, fields[..n]), KindOf(fields[n])).cursor
  }

  /** Reading fields of these kinds returns exactly these values. */
  predicate ReadsBack(data: seq<Byte>, fields: seq<Field>)
  {
    fields == [] ||
    var n := |fields| - 1;
    ReadsBack(data, fields[..n]) &&
    ReadField(data, CursorAfter(data, fields[..n]), KindOf(fields[n])).value == ValueOf(fields[n])
  }

  ghost predicate HoldsAt(data: seq<Byte>, at: nat, f: Field)
  {
    at + |Encode(f)| <= |data| && data[at..at + |Encode(f)|] == Encode(f)
  }

  lemma LongAt(data: seq<Byte>, at: nat, l: Int32)
    requires HoldsAt(data, at, FLong(l))
    ensures ReadLongAt(data, Cursor(at, false)) == Number(l, Cursor(at + 4, false))
  {
    var slice := data[at..at + 4];
    assert slice[0] == data[at] && slice[1] == data[at + 1] && slice[2] == data[at + 2] && slice[3] == data[at + 3];
    LongRoundTrip(l);
  }

  lemma StringAt(data: seq<Byte>, at: nat, s: CString)
    requires HoldsAt(data, at, FString(s))
    ensures Scan(data, at, 0) == Text(s, at + |s| + 1) <==> Readable(s)
  {
    var slice := data[at..at + |s| + 1];
    assert slice[|s|] == data[at + |s|];
    assert data[at..at + |s|] == slice[..|s|];
    StringRoundTrip(data, at, s);
  }

  lemma FieldRoundTrip(data: seq<Byte>, at: nat, f: Field)
    requires HoldsAt(data, at, f)
    ensures ReadField(data, Cursor(at, false), KindOf(f)) == Reading(ValueOf(f), Cursor(at + |Encode(f)|, false))
            <==> FieldReadable(f)
  {
    match f
    case FByte(b) =>
      assert data[at..at + 1][0] == data[at];
    case FLong(l) =>
      LongAt(data, at, l);
    case FString(s) =>
      StringAt(data, at, s);
  }

  lemma Parts(data: seq<Byte>, front: seq<Byte>, last: seq<Byte>)
    requires front + last <= data
    ensures front <= data && |front| + |last| <= |data| && data[|front|..|front| + |last|] == last
  {
    assert front == (front + last)[..|front|];
    assert last == (front + last)[|front|..];
  }

  lemma LastAt(data: seq<Byte>, front: seq<Byte>, last: Field)
    requires front + Encode(last) <= data
    ensures front <= data && HoldsAt(data, |front|, last)
  {
    Parts(data, front, Encode(last));
  }

  /** The last field of an encoding, and what comes before it. */
  lemma LastField(data: seq<Byte>, fields: seq<Field>)
    requires fields != [] && EncodeAll(fields) <= data
    ensures EncodeAll(fields[..|fields| - 1]) <= data
    ensures HoldsAt(data, |EncodeAll(fields[..|fields| - 1])|, fields[|fields| - 1])
  {
    var front, last := EncodeAll(fields[..|fields| - 1]), fields[|fields| - 1];
    assert EncodeAll(fields) == front + Encode(last);
    LastAt(data, front, last);
  }

  lemma {:induction false} ReadingGood(data: seq<Byte>, fields: seq<Field>)
    requires EncodeAll(fields) <= data && forall i :: 0 <= i < |fields| ==> FieldReadable(fields[i])
    ensures ReadsBack(data, fields) && CursorAfter(data, fields) == Cursor(|EncodeAll(fields)|, false)
  {
    if fields != [] {
      var n := |fields| - 1;
      LastField(data, fields);
      ReadingGood(data, fields[..n]);
      FieldRoundTrip(data, |EncodeAll(fields[..n])|, fields[n]);
    }
  }

  /** One read that returns the right value, with the cursor at most where the field begins. */
  lemma NotFurther(data: seq<Byte>, c: Cursor, at: nat, f: Field)
    requires HoldsAt(data, at, f) && c.at <= at && ReadField(data, c, KindOf(f)).value == ValueOf(f)
    ensures var r := ReadField(data, c, KindOf(f)).cursor;
            && (c.bad ==> r.bad)
            && r.at <= at + |Encode(f)|
            && (r.at == at + |Encode(f)| && !r.bad ==> c == Cursor(at, false) && FieldReadable(f))
  {
    if c == Cursor(at, false) {
      FieldRoundTrip(data, at, f);
    }
  }

  /** The last of the fields, read where the ones before it left the cursor. */
  lemma LastNotFurther(data: seq<Byte>, fields: seq<Field>)
    requires fields != [] && EncodeAll(fields) <= data && ReadsBack(data, fields)
    requires CursorAfter(data, fields[..|fields| - 1]).at <= |EncodeAll(fields[..|fields| - 1])|
    ensures var n := |fields| - 1;
            var r := CursorAfter(data, fields);
            && r.at <= |EncodeAll(fields)|
            && (AtEnd(data, fields) ==> AtEnd(data, fields[..n]) && FieldReadable(fields[n]))
  {
    var n := |fields| - 1;
    LastField(data, fields);
    NotFurther(data, CursorAfter(data, fields[..n]), |EncodeAll(fields[..n])|, fields[n]);
  }

  lemma FrontFields(data: seq<Byte>, fields: seq<Field>)
    requires fields != [] && EncodeAll(fields) <= data && ReadsBack(data, fields)
    ensures EncodeAll(fields[..|fields| - 1]) <= data && ReadsBack(data, fields[..|fields| - 1])
  {
    LastField(data, fields);
  }

  /** Field k is a string that is not readable. */
  predicate BadAt(fields: seq<Field>, k: nat)
  {
    k < |fields| && !FieldReadable(fields[k])
  }

  lemma BadEarlier(fields: seq<Field>, k: nat)
    requires fields != [] && BadAt(fields, k)
    ensures BadAt(fields[..|fields| - 1], k) || !FieldReadable(fields[|fields| - 1])
  {
  }

  /** The cursor after the fields, compared with the end of their encoding. */
  ghost predicate AtEnd(data: seq<Byte>, fields: seq<Field>)
  {
    CursorAfter(data, fields) == Cursor(|EncodeAll(fields)|, false)
  }

  /** While the right values come back the cursor is never ahead; it is not at the end if one
      of the strings was not readable. */
  lemma {:induction false} CursorBehind(data: seq<Byte>, fields: seq<Field>, k: nat)
    requires EncodeAll(fields) <= data && ReadsBack(data, fields)
    ensures CursorAfter(data, fields).at <= |EncodeAll(fields)|
    ensures BadAt(fields, k) ==> !AtEnd(data, fields)
  {
    if fields != [] {
      FrontFields(data, fields);
      CursorBehind(data, fields[..|fields| - 1], k);
      LastNotFurther(data, fields);
      if BadAt(fields, k) {
        BadEarlier(fields, k);
      }
    }
  }

  /** Everything that fitted is read back, with READ_OK and the cursor at the end of what was
      written, exactly if every string is at most 2046 long and without byte 255. */
  lemma RoundTrip(capacity: nat, fields: seq<Field>, rest: seq<Byte>)
    requires !PutAll(capacity, fields).overflow
    ensures var data := PutAll(capacity, fields).bytes + rest;
            (ReadsBack(data, fields) && CursorAfter(data, fields) == Cursor(|EncodeAll(fields)|, false))
            <==> forall i :: 0 <= i < |fields| ==> FieldReadable(fields[i])
  {
    OverflowIffTooLong(capacity, fields);
    var data := PutAll(capacity, fields).bytes + rest;
    if forall i :: 0 <= i < |fields| ==> FieldReadable(fields[i]) {
      ReadingGood(data, fields);
    } else {
      var k :| 0 <= k < |fields| && !FieldReadable(fields[k]);
      if ReadsBack(data, fields) {
        CursorBehind(data, fields, k);
      }
    }
  }

  // ---------- messages that are too short or too long ----------

  /** Field k asks for more bytes than are left where the reads before it stopped. */
  ghost predicate PastEnd(data: seq<Byte>, fields: seq<Field>, k: nat)
  {
    && k < |fields| && !fields[k].FString?
    && CursorAfter(data, fields[..k]).at + (if fields[k].FByte? then 1 else 4) > |data|
  }

  /** READ_OK is false after some reads exactly if one of them, for a byte or a long, went past the
      end of the data. */
  lemma {:induction false} ReadOkIff(data: seq<Byte>, fields: seq<Field>)
    ensures CursorAfter(data, fields).bad <==> exists k: nat :: PastEnd(data, fields, k)
  {
    if fields != [] {
      var n := |fields| - 1;
      ReadOkIff(data, fields[..n]);
      forall k: nat | k < n
        ensures PastEnd(data, fields, k) <==> PastEnd(data, fields[..n], k)
      {
        assert fields[..n][..k] == fields[..k];
      }
      assert CursorAfter(data, fields).bad <==> CursorAfter(data, fields[..n]).bad || PastEnd(data, fields, n);
    }
  }

  /** A signed byte is the byte of the same place, taken modulo 256. */
  lemma CharIsByte(data: seq<Byte>, c: Cursor)
    ensures var signed, unsigned := ReadCharAt(data, c), ReadByteAt(data, c);
            && signed.cursor == unsigned.cursor && (signed.value - unsigned.value) % 256 == 0
            && -128 <= signed.value < 128 && -1 <= unsigned.value < 256
            && (c.at >= |data| ==> unsigned.value == -1 && signed.cursor == Cursor(c.at, true))
  {
  }

  /** A string that does not fit is read back as an empty one if there is any room left. */
  lemma TooLongReadsEmpty(capacity: nat, fields: seq<Field>, s: CString)
    requires var before := PutAll(capacity, fields).bytes; |before| < capacity < |before| + |s| + 1
    ensures var before, after := PutAll(capacity, fields).bytes, PutAll(capacity, fields + [FString(s)]);
            && after.overflow && before <= after.bytes
            && Scan(after.bytes, |before|, 0) == Text([], |after.bytes|)
  {
    assert (fields + [FString(s)])[..|fields|] == fields;
  }
}
