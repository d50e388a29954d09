/** Redis serialization protocol (storage/coordination.py). */
module Resp {
  import opened Wrappers

  // Commands are arrays of bulk strings; replies are read from a socket that hands out bytes in
  // arbitrary chunks.

  newtype Byte = b: int | 0 <= b < 256

  type Bytes = seq<Byte>

  const CR: Byte := 13
  const LF: Byte := 10
  const CRLF: Bytes := [CR, LF]
  const PLUS: Byte := 43
  const MINUS: Byte := 45
  const COLON: Byte := 58
  const DOLLAR: Byte := 36
  const STAR: Byte := 42

  // ---------------------------------------------------------------- numbers

  /** `str(n)` */
  function Decimal(n: nat): Bytes {
    if n < 10 then [(48 + n) as Byte] else Decimal(n / 10) + [(48 + n % 10) as Byte]
  }

  predicate IsDigit(b: Byte) {
    48 <= b as int <= 57
  }

  predicate AllDigits(s: Bytes) {
    forall i | 0 <= i < |s| :: IsDigit(s[i])
  }

  function DigitsValue(s: Bytes): int {
    if s == [] then 0 else DigitsValue(s[..|s| - 1]) * 10 + (s[|s| - 1] as int - 48)
  }

  /** `int(line)`, an optional sign and digits; anything else raises ValueError. */
  function ParseInt(s: Bytes): Option<int> {
    if s != [] && s[0] == MINUS && |s| > 1 && AllDigits(s[1..]) then Some(-DigitsValue(s[1..]))
    else if s != [] && s[0] == PLUS && |s| > 1 && AllDigits(s[1..]) then Some(DigitsValue(s[1..]))
    else if s != [] && AllDigits(s) then Some(DigitsValue(s))
    else None
  }

  lemma {:induction false} DecimalParses(n: nat)
    ensures |Decimal(n)| > 0 && AllDigits(Decimal(n)) && DigitsValue(Decimal(n)) == n
    ensures ParseInt(Decimal(n)) == Some(n)
    decreases n
  {
    if n >= 10 {
      DecimalParses(n / 10);
      assert Decimal(n)[..|Decimal(n)| - 1] == Decimal(n / 10);
    } else {
      assert DigitsValue([]) == 0;
      assert Decimal(n)[..0] == [];
    }
    assert IsDigit(Decimal(n)[0]);
  }

  // ---------------------------------------------------------------- encoding

  function EncodePart(part: Bytes): Bytes {
    [DOLLAR] + Decimal(|part|) + CRLF + part + CRLF
  }

  function EncodeParts(parts: seq<Bytes>): Bytes {
    if parts == [] then [] else EncodeParts(parts[..|parts| - 1]) + EncodePart(parts[|parts| - 1])
  }

  function EncodeCommand(parts: seq<Bytes>): Bytes {
    [STAR] + Decimal(|parts|) + CRLF + EncodeParts(parts)
  }

  /** `_encode` */
  method Encode(parts: seq<Bytes>) returns (payload: Bytes)
    ensures payload == EncodeCommand(parts)
  {
    payload := [STAR] + Decimal(|parts|) + CRLF;
    var i := 0;
    while i < |parts|
      invariant 0 <= i <= |parts|
      invariant payload == [STAR] + Decimal(|parts|) + CRLF + EncodeParts(parts[..i])
    {
      assert parts[..i + 1][..i] == parts[..i];
      payload := payload + ([DOLLAR] + Decimal(|parts[i]|) + CRLF);
      payload := payload + parts[i];
      payload := payload + CRLF;
      assert EncodeParts(parts[..i + 1]) == EncodeParts(parts[..i]) + EncodePart(parts[i]);
      i := i + 1;
    }
    assert parts[..i] == parts;
  }

  // ---------------------------------------------------------------- reading, as a function of the bytes

  datatype Reply = Simple(text: Bytes) | Number(n: int) | Bulk(data: Bytes) | Nil | Items(items: seq<Reply>)

  /** A value read, and the bytes left in the stream. */
  datatype Taken<+T> = Taken(value: T, rest: Bytes)

  /** Bytes up to the next CR LF, which is dropped; `seen` has been read already. */
  function LineFrom(seen: Bytes, input: Bytes): (r: Option<Taken<Bytes>>)
    ensures r.Some? ==> |r.value.rest| < |input|
    decreases |input|
  {
    if input == [] then None
    else
      var chunks := seen + [input[0]];
      if |chunks| >= 2 && chunks[|chunks| - 2..] == CRLF then Some(Taken(chunks[..|chunks| - 2], input[1..]))
      else LineFrom(chunks, input[1..])
  }

  /** A line holding an integer. */
  function IntFrom(input: Bytes): (r: Result<Taken<int>>)
    ensures r.Ok? ==> |r.value.rest| < |input|
  {
    var line := LineFrom([], input);
    if line.None? then Err(Protocol)
    else
      var n := ParseInt(line.value.value);
      if n.None? then Err(InvalidValue) else Ok(Taken(n.value, line.value.rest))
  }

  /** Data of a bulk string: `size + 2` bytes, the last two dropped unseen.  A size below -1 takes
      nothing and gives the empty string. */
  function BulkFrom(size: int, input: Bytes): (r: Result<Taken<Bytes>>)
    ensures r.Ok? ==> |r.value.rest| <= |input|
  {
    if size + 2 <= 0 then Ok(Taken([], input))
    else if |input| < size + 2 then Err(Protocol)
    else Ok(Taken(if size <= 0 then [] else input[..size], input[size + 2..]))
  }

  /** One reply from the front of the stream. */
  function Read(input: Bytes): (r: Result<Taken<Reply>>)
    ensures r.Ok? ==> |r.value.rest| < |input|
    decreases |input|, 0
  {
    if input == [] then Err(Protocol)
    else
      var prefix, body := input[0], input[1..];
      if prefix == PLUS then
        var line := LineFrom([], body);
        if line.None? then Err(Protocol) else Ok(Taken(Simple(line.value.value), line.value.rest))
      else if prefix == MINUS then Err(Protocol)
      else if prefix == COLON then
        var n := IntFrom(body);
        if n.Err? then Err(n.error) else Ok(Taken(Number(n.value.value), n.value.rest))
      else if prefix == DOLLAR then
        var size := IntFrom(body);
        if size.Err? then Err(size.error)
        else if size.value.value == -1 then Ok(Taken(Nil, size.value.rest))
        else
          var data := BulkFrom(size.value.value, size.value.rest);
          if data.Err? then Err(data.error) else Ok(Taken(Bulk(data.value.value), data.value.rest))
      else if prefix == STAR then
        var length := IntFrom(body);
        if length.Err? then Err(length.error)
        else if length.value.value == -1 then Ok(Taken(Nil, length.value.rest))
        else
          var items := ReadItems(if length.value.value < 0 then 0 else length.value.value, length.value.rest);
          if items.Err? then Err(items.error) else Ok(Taken(Items(items.value.value), items.value.rest))
      else Err(Protocol)
  }

  /** `[self._read(sock) for _ in range(n)]` */
  function ReadItems(n: nat, input: Bytes): (r: Result<Taken<seq<Reply>>>)
    ensures r.Ok? ==> |r.value.rest| <= |input|
    decreases |input|, n + 1
  {
    if n == 0 then Ok(Taken([], input))
    else
      var first := Read(input);
      if first.Err? then Err(first.error)
      else
        var others := ReadItems(n - 1, first.value.rest);
        if others.Err? then Err(others.error) else Ok(Taken([first.value.value] + others.value.value, others.value.rest))
  }

  // ---------------------------------------------------------------- round trip

  lemma LineEnds(seen: Bytes, tail: Bytes)
    requires |seen| == 0 || IsDigit(seen[|seen| - 1])
    ensures LineFrom(seen, CRLF + tail) == Some(Taken(seen, tail))
  {
    var input := CRLF + tail;
    assert input[0] == CR && input[1..] == [LF] + tail;
    var one, two := seen + [CR], seen + [CR] + [LF];
    assert one[|one| - 1] == CR && (|one| >= 2 ==> IsDigit(one[|one| - 2]));
    assert LineFrom(seen, input) == LineFrom(one, [LF] + tail);
    assert ([LF] + tail)[1..] == tail;
    assert two[|two| - 2..] == CRLF && two[..|two| - 2] == seen;
  }

  lemma LineSkipsDigit(seen: Bytes, d: Byte, input: Bytes)
    requires IsDigit(d)
    ensures LineFrom(seen, [d] + input) == LineFrom(seen + [d], input)
  {
    var chunks := seen + [d];
    assert chunks[|chunks| - 1] == d && ([d] + input)[1..] == input;
    assert |chunks| >= 2 ==> chunks[|chunks| - 2..][1] == d;
  }

  lemma {:induction false} LineOfDigits(seen: Bytes, digits: Bytes, tail: Bytes)
    requires AllDigits(digits) && (|seen| == 0 || IsDigit(seen[|seen| - 1]))
    ensures LineFrom(seen, digits + CRLF + tail) == Some(Taken(seen + digits, tail))
    decreases |digits|
  {
    hide LineFrom;
    if digits == [] {
      assert digits + CRLF + tail == CRLF + tail && seen + digits == seen;
      LineEnds(seen, tail);
    } else {
      assert digits + CRLF + tail == [digits[0]] + (digits[1..] + CRLF + tail);
      LineSkipsDigit(seen, digits[0], digits[1..] + CRLF + tail);
      LineOfDigits(seen + [digits[0]], digits[1..], tail);
      assert seen + [digits[0]] + digits[1..] == seen + digits;
    }
  }

  lemma IntReadsBack(n: nat, tail: Bytes)
    ensures IntFrom(Decimal(n) + CRLF + tail) == Ok(Taken(n, tail))
  {
    DecimalParses(n);
    LineOfDigits([], Decimal(n), tail);
    assert [] + Decimal(n) == Decimal(n);
  }

  /** A bulk string is read back whatever bytes it holds, CR LF included. */
  lemma PartReadsBack(part: Bytes, tail: Bytes)
    ensures Read(EncodePart(part) + tail) == Ok(Taken(Bulk(part), tail))
  {
    var input := EncodePart(part) + tail;
    var body := Decimal(|part|) + CRLF + (part + CRLF + tail);
    assert input[0] == DOLLAR && input[1..] == body;
    IntReadsBack(|part|, part + CRLF + tail);
    var data := part + CRLF + tail;
    assert data[..|part|] == part && data[|part| + 2..] == tail;
  }

  function Bulks(parts: seq<Bytes>): (r: seq<Reply>)
    ensures |r| == |parts|
  {
    seq(|parts|, i requires 0 <= i < |parts| => Bulk(parts[i]))
  }

  lemma {:induction false} EncodePartsHead(parts: seq<Bytes>)
    requires parts != []
    ensures EncodeParts(parts) == EncodePart(parts[0]) + EncodeParts(parts[1..])
  {
    var n := |parts| - 1;
    if n > 0 {
      EncodePartsHead(parts[..n]);
      assert parts[..n][1..] == parts[1..][..n - 1];
      assert parts[..n][0] == parts[0];
    } else {
      assert parts[..n] == [] && parts[1..] == [];
    }
  }

  lemma {:induction false} ItemsReadBack(parts: seq<Bytes>, tail: Bytes)
    ensures ReadItems(|parts|, EncodeParts(parts) + tail) == Ok(Taken(Bulks(parts), tail))
    decreases |parts|
  {
    hide Read, EncodePart, Decimal;
    if parts == [] {
      assert EncodeParts(parts) + tail == tail;
      assert Bulks(parts) == [];
    } else {
      EncodePartsHead(parts);
      var later := EncodeParts(parts[1..]) + tail;
      assert EncodeParts(parts) + tail == EncodePart(parts[0]) + later;
      PartReadsBack(parts[0], later);
      ItemsReadBack(parts[1..], tail);
      assert [Bulk(parts[0])] + Bulks(parts[1..]) == Bulks(parts);
    }
  }

  /** Reading an encoded command gives the command's parts back and leaves the trailing bytes
      untouched, whatever the parts and the trailing bytes are. */
  lemma RoundTrip(parts: seq<Bytes>, tail: Bytes)
    ensures Read(EncodeCommand(parts) + tail) == Ok(Taken(Items(Bulks(parts)), tail))
  {
    var input := EncodeCommand(parts) + tail;
    assert input[0] == STAR && input[1..] == Decimal(|parts|) + CRLF + (EncodeParts(parts) + tail);
    IntReadsBack(|parts|, EncodeParts(parts) + tail);
    ItemsReadBack(parts, tail);
  }

  /** Hence commands are uniquely decodable even when sent one after another. */
  lemma UniquelyDecodable(a: seq<Bytes>, b: seq<Bytes>, s: Bytes, t: Bytes)
    requires EncodeCommand(a) + s == EncodeCommand(b) + t
    ensures a == b && s == t
  {
    RoundTrip(a, s);
    RoundTrip(b, t);
    assert Bulks(a) == Bulks(b);
    forall i | 0 <= i < |a| ensures a[i] == b[i] {
      assert Bulks(a)[i] == Bulks(b)[i];
    }
  }

  // ---------------------------------------------------------------- replies of every kind

  /** A signed number in decimal digits. */
  function Signed(n: int): Bytes {
    if n < 0 then [MINUS] + Decimal(-n) else Decimal(n)
  }

  /** What a server sends for a reply. */
  function Sent(r: Reply): Bytes {
    match r
    case Simple(text) => [PLUS] + text + CRLF
    case Number(n) => [COLON] + Signed(n) + CRLF
    case Bulk(data) => [DOLLAR] + Decimal(|data|) + CRLF + data + CRLF
    case Nil => [DOLLAR] + Signed(-1) + CRLF
    case Items(items) => [STAR] + Decimal(|items|) + CRLF + SentAll(items)
  }

  function SentAll(items: seq<Reply>): Bytes {
    if items == [] then [] else Sent(items[0]) + SentAll(items[1..])
  }

  /** A simple string cannot hold CR LF. */
  ghost predicate Sendable(r: Reply) {
    match r
    case Simple(text) => OneLine(text)
    case Items(items) => forall i | 0 <= i < |items| :: Sendable(items[i])
    case _ => true
  }

  ghost predicate OneLine(text: Bytes) {
    forall i, j | 0 <= i && j == i + 1 && j < |text| :: !(text[i] == CR && text[j] == LF)
  }

  /** A line without CR LF is read up to its end. */
  lemma {:induction false} LineOfText(seen: Bytes, text: Bytes, tail: Bytes)
    requires OneLine(seen + text)
    ensures LineFrom(seen, text + CRLF + tail) == Some(Taken(seen + text, tail))
    decreases |text|
  {
    var input := text + CRLF + tail;
    if text == [] {
      assert input[0] == CR && input[1..] == [LF] + tail && ([LF] + tail)[1..] == tail;
      var one, two := seen + [CR], seen + [CR] + [LF];
      assert |one| >= 2 ==> one[|one| - 2..][1] == CR;
      assert LineFrom(seen, input) == LineFrom(one, [LF] + tail);
      assert two[|two| - 2..] == CRLF && two[..|two| - 2] == seen == seen + text;
    } else {
      var chunks := seen + [text[0]];
      assert input[0] == text[0] && input[1..] == text[1..] + CRLF + tail;
      assert chunks + text[1..] == seen + text;
      assert |chunks| >= 2 ==> chunks[|chunks| - 2] == (seen + text)[|seen| - 1] && chunks[|chunks| - 1] == (seen + text)[|seen|];
      assert |chunks| >= 2 ==> chunks[|chunks| - 2..] != CRLF;
      LineOfText(chunks, text[1..], tail);
    }
  }

  lemma SignedParses(n: int)
    ensures ParseInt(Signed(n)) == Some(n) && OneLine(Signed(n))
  {
    DecimalParses(if n < 0 then -n else n);
    if n < 0 {
      assert Signed(n)[1..] == Decimal(-n);
      assert forall i | 0 < i < |Signed(n)| :: IsDigit(Signed(n)[i]);
    }
  }

  lemma SignedReadsBack(n: int, tail: Bytes)
    ensures IntFrom(Signed(n) + CRLF + tail) == Ok(Taken(n, tail))
  {
    hide LineFrom, ParseInt, Signed;
    SignedParses(n);
    assert [] + Signed(n) == Signed(n);
    LineOfText([], Signed(n), tail);
  }

  /** Every reply a server may send is read back as it is, and the bytes behind it are left. */
  lemma {:induction false} ReplyReadsBack(r: Reply, tail: Bytes)
    requires Sendable(r)
    ensures Read(Sent(r) + tail) == Ok(Taken(r, tail))
    decreases r
  {
    hide Read, LineFrom, IntFrom, Decimal, Signed;
    match r
    case Simple(text) => SimpleReadsBack(text, tail);
    case Number(n) => NumberReadsBack(n, tail);
    case Bulk(data) =>
      PartReadsBack(data, tail);
      assert Sent(r) + tail == EncodePart(data) + tail;
    case Nil => NilReadsBack(tail);
    case Items(items) =>
      RepliesReadBack(items, tail);
      FrameReadsBack(items, SentAll(items) + tail, tail);
      assert Sent(r) + tail == [STAR] + (Decimal(|items|) + CRLF + (SentAll(items) + tail));
  }

  lemma SimpleReadsBack(text: Bytes, tail: Bytes)
    requires OneLine(text)
    ensures Read(Sent(Simple(text)) + tail) == Ok(Taken(Simple(text), tail))
  {
    hide LineFrom, IntFrom;
    assert [] + text == text;
    LineOfText([], text, tail);
    var input := Sent(Simple(text)) + tail;
    assert input[0] == PLUS && input[1..] == text + CRLF + tail;
  }

  lemma NumberReadsBack(n: int, tail: Bytes)
    ensures Read(Sent(Number(n)) + tail) == Ok(Taken(Number(n), tail))
  {
    hide LineFrom, IntFrom, Signed;
    SignedReadsBack(n, tail);
    var input := Sent(Number(n)) + tail;
    assert input[0] == COLON && input[1..] == Signed(n) + CRLF + tail;
  }

  lemma NilReadsBack(tail: Bytes)
    ensures Read(Sent(Nil) + tail) == Ok(Taken(Nil, tail))
  {
    hide LineFrom, IntFrom, Signed;
    SignedReadsBack(-1, tail);
    var input := Sent(Nil) + tail;
    assert input[0] == DOLLAR && input[1..] == Signed(-1) + CRLF + tail;
  }

  lemma FrameReadsBack(items: seq<Reply>, body: Bytes, tail: Bytes)
    requires ReadItems(|items|, body) == Ok(Taken(items, tail))
    ensures Read([STAR] + (Decimal(|items|) + CRLF + body)) == Ok(Taken(Items(items), tail))
  {
    hide LineFrom, IntFrom, Decimal, ReadItems;
    IntReadsBack(|items|, body);
    var input := [STAR] + (Decimal(|items|) + CRLF + body);
    assert input[0] == STAR && input[1..] == Decimal(|items|) + CRLF + body;
  }

  lemma {:induction false} RepliesReadBack(items: seq<Reply>, tail: Bytes)
    requires forall i | 0 <= i < |items| :: Sendable(items[i])
    ensures ReadItems(|items|, SentAll(items) + tail) == Ok(Taken(items, tail))
    decreases items
  {
    hide Read, Sent;
    if items == [] {
      assert SentAll(items) + tail == tail;
    } else {
      var later := SentAll(items[1..]) + tail;
      assert SentAll(items) + tail == Sent(items[0]) + later;
      ReplyReadsBack(items[0], later);
      RepliesReadBack(items[1..], tail);
      assert [items[0]] + items[1..] == items;
    }
  }

  /** An error reply raises, a null array is null, and what starts otherwise is refused. */
  lemma OtherFrames(input: Bytes, text: Bytes, tail: Bytes)
    ensures Read([MINUS] + text) == Err(Protocol)
    ensures Read([STAR] + Signed(-1) + CRLF + tail) == Ok(Taken(Nil, tail))
    ensures Read([]) == Err(Protocol)
    ensures input != [] && input[0] !in {PLUS, COLON, DOLLAR, STAR} ==> Read(input) == Err(Protocol)
  {
    hide IntFrom, LineFrom, Signed;
    SignedReadsBack(-1, tail);
    var frame := [STAR] + Signed(-1) + CRLF + tail;
    assert frame[0] == STAR && frame[1..] == Signed(-1) + CRLF + tail;
  }

  /** Some frames, byte by byte: the command PING, and the replies OK, -7 and null. */
  lemma OnTheWire()
    ensures EncodeCommand([[80, 73, 78, 71]]) == [42, 49, 13, 10, 36, 52, 13, 10, 80, 73, 78, 71, 13, 10]
    ensures Sent(Simple([79, 75])) == [43, 79, 75, 13, 10]
    ensures Sent(Number(-7)) == [58, 45, 55, 13, 10]
    ensures Sent(Nil) == [36, 45, 49, 13, 10]
  {
    var ping: Bytes := [80, 73, 78, 71];
    assert [ping][..0] == [];
    assert EncodeParts([ping]) == EncodeParts([]) + EncodePart(ping) == EncodePart(ping);
    assert EncodePart(ping) == [36, 52, 13, 10, 80, 73, 78, 71, 13, 10];
  }

  // ---------------------------------------------------------------- reading from a socket

  /** The receiving side of a connection: bytes still to come. */
  class Socket {
    var pending: Bytes

    /** At most `n` bytes, at least one unless the peer has closed; how many is not up to us. */
    method Recv(n: nat) returns (chunk: Bytes)
      requires n > 0
      modifies this
      ensures chunk + pending == old(pending) && |chunk| <= n
      ensures chunk == [] <==> old(pending) == []
    {
      if pending == [] {
        return [];
      }
      var k: int := *;
      if k < 1 {
        k := 1;
      }
      if k > n {
        k := n;
      }
      if k > |pending| {
        k := |pending|;
      }
      chunk, pending := pending[..k], pending[k..];
    }
  }

  method ReadLine(sock: Socket) returns (r: Result<Bytes>)
    modifies sock
    ensures match LineFrom([], old(sock.pending))
            case Some(t) => r == Ok(t.value) && sock.pending == t.rest
            case None => r == Err(Protocol)
  {
    var chunks: Bytes := [];
    while true
      invariant LineFrom([], old(sock.pending)) == LineFrom(chunks, sock.pending)
      decreases |sock.pending|
    {
      ghost var before := sock.pending;
      var c := sock.Recv(1);
      if c == [] {
        return Err(Protocol);
      }
      assert c == [before[0]] && sock.pending == before[1..];
      chunks := chunks + c;
      if |chunks| >= 2 && chunks[|chunks| - 2..] == CRLF {
        return Ok(chunks[..|chunks| - 2]);
      }
    }
  }

  method ReadInt(sock: Socket) returns (r: Result<int>)
    modifies sock
    ensures match IntFrom(old(sock.pending))
            case Ok(t) => r == Ok(t.value) && sock.pending == t.rest
            case Err(e) => r == Err(e)
  {
    var line := ReadLine(sock);
    if line.Err? {
      return Err(line.error);
    }
    var n := ParseInt(line.value);
    return if n.None? then Err(InvalidValue) else Ok(n.value);
  }

  /** Receive until `size + 2` bytes are there. */
  method ReadBulk(sock: Socket, size: int) returns (r: Result<Bytes>)
    requires size != -1
    modifies sock
    ensures match BulkFrom(size, old(sock.pending))
            case Ok(t) => r == Ok(t.value) && sock.pending == t.rest
            case Err(e) => r == Err(e)
  {
    var data: Bytes := [];
    while |data| < size + 2
      invariant data + sock.pending == old(sock.pending) && (|data| <= size + 2 || data == [])
      decreases size + 2 - |data|
    {
      ghost var before := data;
      var chunk := sock.Recv(size + 2 - |data|);
      if chunk == [] {
        assert data == old(sock.pending);
        return Err(Protocol);
      }
      data := data + chunk;
    }
    if size + 2 <= 0 {
      return Ok([]);
    }
    assert data == old(sock.pending)[..size + 2];
    assert data[..|data| - 2] == old(sock.pending)[..size];
    return Ok(data[..|data| - 2]);
  }

  /** `_read`: whatever the chunks, the reply and the bytes left are those of `Read`. */
  method ReadReply(sock: Socket) returns (r: Result<Reply>)
    modifies sock
    ensures match Read(old(sock.pending))
            case Ok(t) => r == Ok(t.value) && sock.pending == t.rest
            case Err(e) => r == Err(e)
    decreases |sock.pending|, 0
  {
    ghost var input := sock.pending;
    var prefix := sock.Recv(1);
    if prefix == [] {
      return Err(Protocol);
    }
    assert prefix == [input[0]] && sock.pending == input[1..];
    if prefix == [PLUS] {
      var line := ReadLine(sock);
      return if line.Ok? then Ok(Simple(line.value)) else Err(line.error);
    }
    if prefix == [MINUS] {
      var line := ReadLine(sock);
      return Err(Protocol);
    }
    if prefix == [COLON] {
      var n := ReadInt(sock);
      return if n.Ok? then Ok(Number(n.value)) else Err(n.error);
    }
    if prefix == [DOLLAR] {
      var size := ReadInt(sock);
      if size.Err? {
        return Err(size.error);
      }
      if size.value == -1 {
        return Ok(Nil);
      }
      var data := ReadBulk(sock, size.value);
      return if data.Ok? then Ok(Bulk(data.value)) else Err(data.error);
    }
    if prefix == [STAR] {
      var length := ReadInt(sock);
      if length.Err? {
        return Err(length.error);
      }
      if length.value == -1 {
        return Ok(Nil);
      }
      var items := ReadReplies(sock, if length.value < 0 then 0 else length.value);
      return if items.Ok? then Ok(Items(items.value)) else Err(items.error);
    }
    return Err(Protocol);
  }

  method ReadReplies(sock: Socket, n: nat) returns (r: Result<seq<Reply>>)
    modifies sock
    ensures match ReadItems(n, old(sock.pending))
            case Ok(t) => r == Ok(t.value) && sock.pending == t.rest
            case Err(e) => r == Err(e)
    decreases |sock.pending|, n + 1
  {
    if n == 0 {
      return Ok([]);
    }
    var first := ReadReply(sock);
    if first.Err? {
      return Err(first.error);
    }
    var others := ReadReplies(sock, n - 1);
    return if others.Ok? then Ok([first.value] + others.value) else Err(others.error);
  }
}
