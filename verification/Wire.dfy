/** The NATS client protocol as the embedded server reads it: control lines,
    length-prefixed payloads, and the MSG frames it writes. */
module Wire {
  import opened Text
  import opened Utf8

  const MAX_PAYLOAD := 1048576
  const U64 := 0x1_0000_0000_0000_0000

  datatype ClientMsg =
    | Connect(info: string)
    | Ping
    | Pong
    | Sub(subject: string, queue: Option<string>, sid: string)
    | Unsub(sid: string, max: Option<nat>)
    | Pub(subject: string, reply: Option<string>, len: nat, payload: seq<byte>)

  // -------------------------------------------------------------- control lines

  function RunLength(s: string): (n: nat)
    ensures n <= |s| && NoWhite(s[..n]) && (n < |s| ==> IsWhite(s[n]))
  {
    if s == "" || IsWhite(s[0]) then 0
    else
      var n := 1 + RunLength(s[1..]);
      assert s[..n] == [s[0]] + s[1..][..n - 1];
      n
  }

  /** Rust `split_whitespace`. */
  function Words(s: string): seq<string>
    decreases |s|
  {
    if s == "" then []
    else if IsWhite(s[0]) then Words(s[1..])
    else [s[..RunLength(s)]] + Words(s[RunLength(s)..])
  }

  /** Rust `to_ascii_uppercase`. */
  function Upper(s: string): string {
    seq(|s|, i requires 0 <= i < |s| => if 'a' <= s[i] <= 'z' then s[i] - 'a' + 'A' else s[i])
  }

  /** Rust `parse::<u64>`: an optional plus sign, at least one digit, in range. */
  function ParseU64(s: string): Option<nat> {
    var d := if s != "" && s[0] == '+' then s[1..] else s;
    if d == "" || !AllDigits(d) || DigitsValue(d) >= U64 then None else Some(DigitsValue(d))
  }

  function ParseConnect(line: string): Option<ClientMsg> {
    var trimmed := TrimStart(line, IsWhite);
    var n := RunLength(trimmed);
    if n == |trimmed| then None
    else
      var rest := Trim(trimmed[n..], IsWhite);
      if rest == "" then None else Some(Connect(rest))
  }

  function ParsePub(subject: string, reply: Option<string>, len: string): Option<ClientMsg> {
    var n := ParseU64(len);
    if n.None? then None else Some(Pub(subject, reply, n.value, []))
  }

  function ParseUnsub(sid: string, max: string): Option<ClientMsg> {
    var n := ParseU64(max);
    if n.None? then None else Some(Unsub(sid, n))
  }

  /** What the words of a line say. */
  function Interpret(words: seq<string>, line: string): Option<ClientMsg> {
    if words == [] then None
    else
      var verb, args := Upper(words[0]), words[1..];
      if verb == "PING" && args == [] then Some(Ping)
      else if verb == "PONG" && args == [] then Some(Pong)
      else if verb == "CONNECT" then ParseConnect(line)
      else if verb == "SUB" then
        if |args| == 2 then Some(Sub(args[0], None, args[1]))
        else if |args| == 3 then Some(Sub(args[0], Some(args[1]), args[2])) else None
      else if verb == "UNSUB" then
        if |args| == 1 then Some(Unsub(args[0], None))
        else if |args| == 2 then ParseUnsub(args[0], args[1]) else None
      else if verb == "PUB" then
        if |args| == 2 then ParsePub(args[0], None, args[1])
        else if |args| == 3 then ParsePub(args[0], Some(args[1]), args[2]) else None
      else None
  }

  /** `parse_line`. */
  function ParseLine(line: string): Option<ClientMsg> {
    Interpret(Words(line), line)
  }

  // ------------------------------------------------------------------- framing

  datatype Read = End | Broken | Got(msg: ClientMsg, rest: seq<byte>)

  /** Length of the first line, newline included; everything when there is none. */
  function LineLength(bs: seq<byte>): (n: nat)
    ensures n <= |bs| && (bs != [] ==> n > 0)
  {
    if bs == [] then 0 else if bs[0] == 10 then 1 else 1 + LineLength(bs[1..])
  }

  predicate CrLf(c: char) { c == '\r' || c == '\n' }

  /** `read_client_message` on the bytes still to come. */
  function ReadMessage(bs: seq<byte>): (r: Read)
    ensures r.Got? ==> |r.rest| < |bs| && r.rest == bs[|bs| - |r.rest|..]
  {
    if bs == [] then End
    else
      var n := LineLength(bs);
      var text := Decode(bs[..n]);
      if text.None? then Broken
      else
        var msg := ParseLine(TrimEnd(text.value, CrLf));
        if msg.None? then Broken
        else if !msg.value.Pub? then Got(msg.value, bs[n..])
        else ReadPayload(msg.value, bs[n..])
  }

  function ReadPayload(msg: ClientMsg, bs: seq<byte>): (r: Read)
    requires msg.Pub?
    ensures r.Got? ==> |r.rest| < |bs| && r.rest == bs[|bs| - |r.rest|..] && r.msg.Pub? && |r.msg.payload| == msg.len
  {
    if msg.len > MAX_PAYLOAD || |bs| < msg.len + 2 || bs[msg.len..msg.len + 2] != [13, 10] then Broken
    else Got(msg.(payload := bs[..msg.len]), bs[msg.len + 2..])
  }

  /** The reading half of one connection. */
  class Reader {
    var input: seq<byte>

    constructor (bytes: seq<byte>)
      ensures input == bytes
    {
      input := bytes;
    }

    method ReadUntilNewline() returns (line: seq<byte>)
      modifies this
      ensures var n := LineLength(old(input)); line == old(input)[..n] && input == old(input)[n..]
    {
      line := [];
      while input != []
        invariant line + input == old(input)
        invariant LineLength(old(input)) == |line| + LineLength(input)
        decreases |input|
      {
        var b := input[0];
        line := line + [b];
        input := input[1..];
        if b == 10 {
          assert old(input)[..|line|] == line && old(input)[|line|..] == input;
          return;
        }
      }
      assert line == old(input);
    }

    /** Fill a buffer of exactly `n` bytes, or fail at the end of input. */
    method ReadExact(n: nat) returns (buffer: Option<seq<byte>>)
      modifies this
      ensures if n <= |old(input)| then buffer == Some(old(input)[..n]) && input == old(input)[n..] else buffer == None
    {
      if n > |input| {
        return None;
      }
      buffer := Some(input[..n]);
      input := input[n..];
    }

    /** `read_client_message`; after an error the connection is dropped. */
    method ReadClientMessage() returns (r: Read)
      modifies this
      ensures r == ReadMessage(old(input)) && (r.Got? ==> input == r.rest)
    {
      if input == [] {
        return End;
      }
      var line := ReadUntilNewline();
      var text := Decode(line);
      if text.None? {
        return Broken;
      }
      var msg := ParseLine(TrimEnd(text.value, CrLf));
      if msg.None? {
        return Broken;
      }
      if !msg.value.Pub? {
        return Got(msg.value, input);
      }
      if msg.value.len > MAX_PAYLOAD {
        return Broken;
      }
      ghost var after := input;
      var payload := ReadExact(msg.value.len);
      if payload.None? {
        return Broken;
      }
      var terminator := ReadExact(2);
      if terminator.None? {
        return Broken;
      }
      assert terminator.value == after[msg.value.len..msg.value.len + 2];
      if terminator.value != [13, 10] {
        return Broken;
      }
      assert input == after[msg.value.len + 2..];
      return Got(msg.value.(payload := payload.value), input);
    }
  }

  // ----------------------------------------------------- the protocol's encoding

  predicate Word(s: string) { s != "" && NoWhite(s) }

  predicate WordOpt(o: Option<string>) { o.Some? ==> Word(o.value) }

  /** The messages a client may send: whitespace-free tokens, any payload bytes. */
  predicate Sendable(m: ClientMsg) {
    match m
    case Connect(info) => info != "" && Free(info, '\n') && !IsWhite(info[0]) && !IsWhite(info[|info| - 1])
    case Ping => true
    case Pong => true
    case Sub(subject, queue, sid) => Word(subject) && WordOpt(queue) && Word(sid)
    case Unsub(sid, max) => Word(sid) && (max.Some? ==> max.value < U64)
    case Pub(subject, reply, len, payload) => Word(subject) && WordOpt(reply) && len == |payload| <= MAX_PAYLOAD
  }

  /** Words separated by single spaces. */
  function Spaced(words: seq<string>): string
    requires |words| >= 1
  {
    Join(words, ' ')
  }

  function OptWord(o: Option<string>): seq<string> { if o.Some? then [o.value] else [] }

  function ControlWords(m: ClientMsg): seq<string>
    requires !m.Connect?
  {
    match m
    case Ping => ["PING"]
    case Pong => ["PONG"]
    case Sub(subject, queue, sid) => ["SUB", subject] + OptWord(queue) + [sid]
    case Unsub(sid, max) => ["UNSUB", sid] + (if max.Some? then [Print(max.value)] else [])
    case Pub(subject, reply, len, _) => ["PUB", subject] + OptWord(reply) + [Print(len)]
  }

  function ControlLine(m: ClientMsg): string {
    if m.Connect? then "CONNECT " + m.info else Spaced(ControlWords(m))
  }

  function Encoding(m: ClientMsg): seq<byte> {
    Encode(ControlLine(m) + "\r\n") + (if m.Pub? then m.payload + [13, 10] else [])
  }

  // ---------------------------------------------------------------- round trips

  lemma RunLengthOf(w: string, rest: string)
    requires NoWhite(w) && (rest == "" || IsWhite(rest[0]))
    ensures RunLength(w + rest) == |w|
  {
    var s := w + rest;
    var n := RunLength(s);
    assert forall i :: 0 <= i < |w| ==> s[i] == w[i];
    assert forall i :: 0 <= i < n ==> s[..n][i] == s[i];
    assert rest != "" ==> s[|w|] == rest[0];
  }

  lemma WordsOne(w: string)
    requires Word(w)
    ensures Words(w) == [w]
  {
    RunLengthOf(w, "");
    assert w + "" == w && w[..|w|] == w && w[|w|..] == "";
  }

  lemma WordsCons(w: string, rest: string)
    requires Word(w)
    ensures Words(w + [' '] + rest) == [w] + Words(rest)
  {
    var s := w + [' '] + rest;
    var tail := [' '] + rest;
    assert s == w + tail && s[0] == w[0];
    RunLengthOf(w, tail);
    assert s[..|w|] == w && s[|w|..] == tail;
    assert tail[1..] == rest;
  }

  lemma {:induction false} WordsOfSpaced(words: seq<string>)
    requires |words| >= 1 && forall w :: w in words ==> Word(w)
    ensures Words(Spaced(words)) == words
    decreases |words|
  {
    assert words[0] in words;
    if |words| == 1 {
      WordsOne(words[0]);
    } else {
      assert forall w :: w in words[1..] ==> w in words;
      WordsOfSpaced(words[1..]);
      WordsCons(words[0], Spaced(words[1..]));
    }
  }

  lemma PrintIsWord(n: nat)
    ensures Word(Print(n))
  {
  }

  lemma ParsePrinted(n: nat)
    requires n < U64
    ensures ParseU64(Print(n)) == Some(n)
  {
    PrintValue(n);
  }

  lemma VerbsUpper()
    ensures Upper("PING") == "PING" && Upper("PONG") == "PONG" && Upper("SUB") == "SUB"
    ensures Upper("UNSUB") == "UNSUB" && Upper("PUB") == "PUB" && Upper("CONNECT") == "CONNECT" && Upper("MSG") == "MSG"
  {
  }

  /** What the parser makes of a control line before the payload is read. */
  function Bare(m: ClientMsg): ClientMsg {
    if m.Pub? then m.(payload := []) else m
  }

  lemma ControlWordsAreWords(m: ClientMsg)
    requires Sendable(m) && !m.Connect?
    ensures forall w :: w in ControlWords(m) ==> Word(w)
  {
    if m.Pub? { PrintIsWord(m.len); }
    if m.Unsub? && m.max.Some? { PrintIsWord(m.max.value); }
  }

  lemma InterpretSub(subject: string, queue: Option<string>, sid: string, line: string)
    ensures Interpret(["SUB", subject] + OptWord(queue) + [sid], line) == Some(Sub(subject, queue, sid))
  {
    VerbsUpper();
  }

  lemma InterpretUnsub(sid: string, max: Option<nat>, line: string)
    requires max.Some? ==> max.value < U64
    ensures Interpret(["UNSUB", sid] + (if max.Some? then [Print(max.value)] else []), line) == Some(Unsub(sid, max))
  {
    VerbsUpper();
    if max.Some? { ParsePrinted(max.value); }
  }

  lemma InterpretPub(subject: string, reply: Option<string>, len: nat, line: string)
    requires len < U64
    ensures Interpret(["PUB", subject] + OptWord(reply) + [Print(len)], line) == Some(Pub(subject, reply, len, []))
  {
    VerbsUpper();
    ParsePrinted(len);
  }

  lemma ParseWords(m: ClientMsg)
    requires Sendable(m) && !m.Connect?
    ensures ParseLine(ControlLine(m)) == Some(Bare(m))
  {
    ControlWordsAreWords(m);
    WordsOfSpaced(ControlWords(m));
    var line := ControlLine(m);
    match m
    case Ping => VerbsUpper();
    case Pong => VerbsUpper();
    case Sub(subject, queue, sid) => InterpretSub(subject, queue, sid, line);
    case Unsub(sid, max) => InterpretUnsub(sid, max, line);
    case Pub(subject, reply, len, _) => InterpretPub(subject, reply, len, line);
  }

  lemma TrimmedInfo(info: string)
    requires info != "" && !IsWhite(info[0]) && !IsWhite(info[|info| - 1])
    ensures Trim(" " + info, IsWhite) == info
  {
    assert (" " + info)[1..] == info;
    assert TrimStart(" " + info, IsWhite) == TrimStart(info, IsWhite);
  }

  lemma ConnectRemainder(info: string)
    requires info != "" && !IsWhite(info[0]) && !IsWhite(info[|info| - 1])
    ensures ParseConnect("CONNECT " + info) == Some(Connect(info))
  {
    var line, tail := "CONNECT " + info, " " + info;
    assert line == "CONNECT" + tail;
    RunLengthOf("CONNECT", tail);
    assert TrimStart(line, IsWhite) == line;
    assert line[7..] == tail;
    TrimmedInfo(info);
  }

  lemma ParseConnectLine(info: string)
    requires Sendable(Connect(info))
    ensures ParseLine("CONNECT " + info) == Some(Connect(info))
  {
    ConnectWords(info);
    InterpretConnect(Words("CONNECT " + info), "CONNECT " + info);
    ConnectRemainder(info);
  }

  lemma ConnectWords(info: string)
    ensures Words("CONNECT " + info) == ["CONNECT"] + Words(info)
  {
    assert "CONNECT " + info == "CONNECT" + [' '] + info;
    WordsCons("CONNECT", info);
  }

  lemma InterpretConnect(words: seq<string>, line: string)
    requires words != [] && words[0] == "CONNECT"
    ensures Interpret(words, line) == ParseConnect(line)
  {
    assert Upper("CONNECT") == "CONNECT";
  }

  lemma ParseControl(m: ClientMsg)
    requires Sendable(m)
    ensures ParseLine(ControlLine(m)) == Some(Bare(m))
  {
    if m.Connect? {
      ParseConnectLine(m.info);
    } else {
      ParseWords(m);
    }
  }

  // ------------------------------------------------------------ bytes on the wire

  lemma EncodeLine(line: string)
    ensures Encode(line + "\r\n") == Encode(line) + [13, 10]
  {
    EncodeConcat(line, "\r\n");
    var crlf := "\r\n";
    assert crlf[1..] == "\n" && crlf[1..][1..] == "";
    assert Encode(crlf) == EncodeChar('\r') + Encode(crlf[1..]);
    assert Encode(crlf[1..]) == EncodeChar('\n') + Encode("");
  }

  lemma {:induction false} LineLengthOf(a: seq<byte>, rest: seq<byte>)
    requires forall i :: 0 <= i < |a| ==> a[i] != 10
    ensures LineLength(a + [10] + rest) == |a| + 1
  {
    var bs := a + [10] + rest;
    if a != [] {
      assert bs[1..] == a[1..] + [10] + rest;
      LineLengthOf(a[1..], rest);
    }
  }

  /** A control line: no newline inside, and its last character is not white. */
  predicate CleanLine(line: string) {
    line != "" && Free(line, '\n') && !IsWhite(line[|line| - 1])
  }

  lemma {:induction false} SpacedClean(words: seq<string>)
    requires |words| >= 1 && forall w :: w in words ==> Word(w)
    ensures CleanLine(Spaced(words))
  {
    assert words[0] in words;
    if |words| > 1 {
      assert forall w :: w in words[1..] ==> w in words;
      SpacedClean(words[1..]);
    }
  }

  lemma ControlLineClean(m: ClientMsg)
    requires Sendable(m)
    ensures CleanLine(ControlLine(m))
  {
    if m.Connect? {
      assert Free("CONNECT ", '\n');
    } else {
      ControlWordsAreWords(m);
      SpacedClean(ControlWords(m));
    }
  }

  lemma TrimLine(line: string)
    requires CleanLine(line)
    ensures TrimEnd(line + "\r\n", CrLf) == line
  {
    var s := line + "\r\n";
    assert s[..|s| - 1] == line + "\r" && (line + "\r")[..|line|] == line;
    assert TrimEnd(s, CrLf) == TrimEnd(line + "\r", CrLf) == TrimEnd(line, CrLf);
  }

  /** Reading back one line: its exact bytes, its exact text. */
  lemma LineReadBack(line: string, rest: seq<byte>)
    requires CleanLine(line)
    ensures var bs := Encode(line + "\r\n") + rest;
      var n := LineLength(bs);
      n == |Encode(line + "\r\n")| && Decode(bs[..n]) == Some(line + "\r\n") && bs[n..] == rest
  {
    EncodeLine(line);
    AsciiByteIsChar(line, 10);
    var front := Encode(line) + [13];
    var whole := Encode(line + "\r\n");
    var bs := whole + rest;
    assert whole == front + [10] && bs == front + [10] + rest;
    LineLengthOf(front, rest);
    assert bs[..|whole|] == whole && bs[|whole|..] == rest;
    RoundTrip(line + "\r\n");
  }

  lemma PayloadReadBack(m: ClientMsg, rest: seq<byte>)
    requires m.Pub? && Sendable(m)
    ensures ReadPayload(Bare(m), m.payload + [13, 10] + rest) == Got(m, rest)
  {
    var bs := m.payload + [13, 10] + rest;
    assert bs[..m.len] == m.payload && bs[m.len..m.len + 2] == [13, 10] && bs[m.len + 2..] == rest;
  }

  /** One message: reading its encoding, whatever follows, gives it back and
      leaves exactly what follows. */
  lemma ReadBack(m: ClientMsg, rest: seq<byte>)
    requires Sendable(m)
    ensures ReadMessage(Encoding(m) + rest) == Got(m, rest)
  {
    var line := ControlLine(m);
    var tail := (if m.Pub? then m.payload + [13, 10] else []) + rest;
    var head := Encode(line + "\r\n");
    assert Encoding(m) + rest == head + tail;
    ControlLineClean(m);
    LineReadBack(line, tail);
    TrimLine(line);
    ParseControl(m);
    ReadFrame(head + tail, line, Bare(m), tail);
    if m.Pub? {
      PayloadReadBack(m, rest);
      assert tail == m.payload + [13, 10] + rest;
    } else {
      assert tail == rest;
    }
  }

  lemma ReadFrame(bs: seq<byte>, line: string, msg: ClientMsg, tail: seq<byte>)
    requires bs != [] && var n := LineLength(bs); Decode(bs[..n]) == Some(line + "\r\n") && bs[n..] == tail
    requires TrimEnd(line + "\r\n", CrLf) == line && ParseLine(line) == Some(msg)
    ensures ReadMessage(bs) == if msg.Pub? then ReadPayload(msg, tail) else Got(msg, tail)
  {
  }

  /** Messages one after the other, each as `enc` writes it. */
  function EncodeAll(enc: ClientMsg -> seq<byte>, ms: seq<ClientMsg>): seq<byte> {
    if ms == [] then [] else enc(ms[0]) + EncodeAll(enc, ms[1..])
  }

  function Encodings(ms: seq<ClientMsg>): seq<byte> { EncodeAll(Encoding, ms) }

  /** Read with `read` until `n` messages have been read. */
  function ReadWith(read: seq<byte> -> Read, bs: seq<byte>, n: nat): Option<(seq<ClientMsg>, seq<byte>)>
    decreases n
  {
    if n == 0 then Some(([], bs))
    else
      var r := read(bs);
      if !r.Got? then None
      else
        var more := ReadWith(read, r.rest, n - 1);
        if more.None? then None else Some(([r.msg] + more.value.0, more.value.1))
  }

  /** Repeated `read_client_message`. */
  function ReadMany(bs: seq<byte>, n: nat): Option<(seq<ClientMsg>, seq<byte>)> {
    ReadWith(ReadMessage, bs, n)
  }

  lemma Regroup(a: seq<byte>, b: seq<byte>, c: seq<byte>)
    ensures a + b + c == a + (b + c)
  {
  }

  /** Where each message reads back whatever follows it, so does a stream of them. */
  lemma {:induction false} StreamOf(read: seq<byte> -> Read, enc: ClientMsg -> seq<byte>, ms: seq<ClientMsg>, rest: seq<byte>)
    requires forall i, tail :: 0 <= i < |ms| ==> read(enc(ms[i]) + tail) == Got(ms[i], tail)
    ensures ReadWith(read, EncodeAll(enc, ms) + rest, |ms|) == Some((ms, rest))
    decreases |ms|
  {
    if ms == [] {
      assert EncodeAll(enc, ms) + rest == rest;
    } else {
      var onward := EncodeAll(enc, ms[1..]) + rest;
      StreamOf(read, enc, ms[1..], rest);
      Regroup(enc(ms[0]), EncodeAll(enc, ms[1..]), rest);
      assert read(enc(ms[0]) + onward) == Got(ms[0], onward);
      assert [ms[0]] + ms[1..] == ms;
    }
  }

  /** WIRE ROUND TRIP. The concatenated encoding of any messages reads back as
      those messages, and the bytes after them are untouched. */
  lemma StreamReadBack(ms: seq<ClientMsg>, rest: seq<byte>)
    requires forall i :: 0 <= i < |ms| ==> Sendable(ms[i])
    ensures ReadMany(Encodings(ms) + rest, |ms|) == Some((ms, rest))
  {
    forall i, tail | 0 <= i < |ms| ensures ReadMessage(Encoding(ms[i]) + tail) == Got(ms[i], tail) {
      ReadBack(ms[i], tail);
    }
    StreamOf(ReadMessage, Encoding, ms, rest);
  }

  /** Once the bytes are used up, nothing more is read. */
  lemma {:induction false} NothingPastTheEnd(read: seq<byte> -> Read, bs: seq<byte>, m: nat, n: nat)
    requires !read([]).Got? && m < n
    requires ReadWith(read, bs, m).Some? && ReadWith(read, bs, m).value.1 == []
    ensures ReadWith(read, bs, n).None?
    decreases m
  {
    if m > 0 {
      NothingPastTheEnd(read, read(bs).rest, m - 1, n - 1);
    }
  }

  /** Two streams of messages with the same bytes are the same messages, and
      equally many. */
  lemma StreamsUnique(ms: seq<ClientMsg>, ns: seq<ClientMsg>)
    requires forall i :: 0 <= i < |ms| ==> Sendable(ms[i])
    requires forall i :: 0 <= i < |ns| ==> Sendable(ns[i])
    requires Encodings(ms) == Encodings(ns)
    ensures ms == ns
  {
    WholeStream(ms);
    WholeStream(ns);
    if |ms| < |ns| {
      NothingPastTheEnd(ReadMessage, Encodings(ms), |ms|, |ns|);
    } else if |ns| < |ms| {
      NothingPastTheEnd(ReadMessage, Encodings(ms), |ns|, |ms|);
    }
  }

  lemma WholeStream(ms: seq<ClientMsg>)
    requires forall i :: 0 <= i < |ms| ==> Sendable(ms[i])
    ensures ReadMany(Encodings(ms), |ms|) == Some((ms, []))
  {
    StreamReadBack(ms, []);
    assert Encodings(ms) + [] == Encodings(ms);
  }

  // ----------------------------------------------------------------- MSG frames

  datatype Delivery = Delivery(subject: string, reply: Option<string>, payload: seq<byte>)

  function MsgWords(d: Delivery, sid: string): seq<string> {
    ["MSG", d.subject, sid] + OptWord(d.reply) + [Print(|d.payload|)]
  }

  /** The bytes `write_msg` sends. */
  function MsgFrame(d: Delivery, sid: string): seq<byte> {
    Encode(Spaced(MsgWords(d, sid)) + "\r\n") + d.payload + [13, 10]
  }

  method WriteMsg(d: Delivery, sid: string) returns (sent: seq<byte>)
    ensures sent == MsgFrame(d, sid)
  {
    var len := Print(|d.payload|);
    var header;
    match d.reply {
      case Some(reply) =>
        header := "MSG" + " " + (d.subject + " " + (sid + " " + (reply + " " + len)));
        JoinFive("MSG", d.subject, sid, reply, len);
        MsgWordsReply(d, sid);
      case None =>
        header := "MSG" + " " + (d.subject + " " + (sid + " " + len));
        JoinFour("MSG", d.subject, sid, len);
        MsgWordsPlain(d, sid);
    }
    assert header == Spaced(MsgWords(d, sid));
    sent := Encode(header + "\r\n");
    sent := sent + d.payload;
    sent := sent + [13, 10];
  }

  lemma MsgWordsReply(d: Delivery, sid: string)
    requires d.reply.Some?
    ensures MsgWords(d, sid) == ["MSG", d.subject, sid, d.reply.value, Print(|d.payload|)]
  {
  }

  lemma MsgWordsPlain(d: Delivery, sid: string)
    requires d.reply.None?
    ensures MsgWords(d, sid) == ["MSG", d.subject, sid, Print(|d.payload|)]
  {
  }

  lemma JoinFour(a: string, b: string, c: string, d: string)
    ensures Spaced([a, b, c, d]) == a + " " + (b + " " + (c + " " + d))
  {
    assert [a, b, c, d][1..] == [b, c, d] && [b, c, d][1..] == [c, d] && [c, d][1..] == [d];
    assert " " == [' '];
    assert Join([c, d], ' ') == c + [' '] + Join([d], ' ');
    assert Join([b, c, d], ' ') == b + [' '] + Join([c, d], ' ');
    assert Join([a, b, c, d], ' ') == a + [' '] + Join([b, c, d], ' ');
  }

  lemma JoinFive(a: string, b: string, c: string, d: string, e: string)
    ensures Spaced([a, b, c, d, e]) == a + " " + (b + " " + (c + " " + (d + " " + e)))
  {
    assert [a, b, c, d, e][1..] == [b, c, d, e];
    JoinFour(b, c, d, e);
    assert Spaced([a, b, c, d, e]) == a + " " + Spaced([b, c, d, e]);
  }

  /** The NATS MSG entry: `MSG <subject> <sid> [reply-to] <#bytes>`, then the payload. */
  function ReadMsg(bs: seq<byte>): Option<(Delivery, string, seq<byte>)> {
    var n := LineLength(bs);
    var text := Decode(bs[..n]);
    if text.None? then None
    else
      var words := Words(TrimEnd(text.value, CrLf));
      if |words| != 4 && |words| != 5 then None
      else
        var len := ParseU64(words[|words| - 1]);
        var tail := bs[n..];
        if words[0] != "MSG" || len.None? || |tail| < len.value + 2 || tail[len.value..len.value + 2] != [13, 10] then None
        else Some((Delivery(words[1], if |words| == 5 then Some(words[3]) else None, tail[..len.value]), words[2], tail[len.value + 2..]))
  }

  /** A MSG frame is read back by a client as the delivery, its sid, and nothing
      of what follows. */
  lemma MsgReadBack(d: Delivery, sid: string, rest: seq<byte>)
    requires Word(d.subject) && WordOpt(d.reply) && Word(sid) && |d.payload| < U64
    ensures ReadMsg(MsgFrame(d, sid) + rest) == Some((d, sid, rest))
  {
    var words := MsgWords(d, sid);
    PrintIsWord(|d.payload|);
    assert Word("MSG");
    assert forall w :: w in words ==> Word(w);
    SpacedClean(words);
    var line := Spaced(words);
    var tail := d.payload + [13, 10] + rest;
    assert MsgFrame(d, sid) + rest == Encode(line + "\r\n") + tail;
    LineReadBack(line, tail);
    TrimLine(line);
    WordsOfSpaced(words);
    MsgParse(d, sid, rest, MsgFrame(d, sid) + rest, line);
  }

  lemma MsgParse(d: Delivery, sid: string, rest: seq<byte>, bs: seq<byte>, line: string)
    requires |d.payload| < U64
    requires var n := LineLength(bs); Decode(bs[..n]) == Some(line + "\r\n") && bs[n..] == d.payload + [13, 10] + rest
    requires TrimEnd(line + "\r\n", CrLf) == line && Words(line) == MsgWords(d, sid)
    ensures ReadMsg(bs) == Some((d, sid, rest))
  {
    ParsePrinted(|d.payload|);
    var tail := d.payload + [13, 10] + rest;
    var len := |d.payload|;
    assert tail[..len] == d.payload && tail[len..len + 2] == [13, 10] && tail[len + 2..] == rest;
  }

  // ---------------------------------------------------- what a line says, exactly

  /** The words of a line are its maximal runs without blanks: these equations give them
      for every line. */
  lemma WordsAre(white: string, s: string, w: string, rest: string)
    requires (forall i :: 0 <= i < |white| ==> IsWhite(white[i])) && Word(w) && (rest == "" || IsWhite(rest[0]))
    ensures Words("") == [] && Words(white + s) == Words(s) && Words(w + rest) == [w] + Words(rest)
  {
    WordsSkip(white, s);
    RunLengthOf(w, rest);
    var t := w + rest;
    assert t[0] == w[0] && t[..|w|] == w && t[|w|..] == rest;
  }

  lemma {:induction false} WordsSkip(white: string, s: string)
    requires forall i :: 0 <= i < |white| ==> IsWhite(white[i])
    ensures Words(white + s) == Words(s)
  {
    if white == "" {
      assert white + s == s;
    } else {
      assert (white + s)[1..] == white[1..] + s && (white + s)[0] == white[0];
      WordsSkip(white[1..], s);
    }
  }

  /** A text is a number of 64 bits: digits, after a plus sign or not. */
  ghost predicate NumeralIs(t: string, n: nat) {
    exists d: string :: d != "" && AllDigits(d) && DigitsValue(d) == n && n < 0x1_0000_0000_0000_0000 && (t == d || t == "+" + d)
  }

  lemma NumeralExactly(t: string, n: nat)
    ensures ParseU64(t) == Some(n) <==> NumeralIs(t, n)
  {
    if ParseU64(t) == Some(n) {
      var d := if t != "" && t[0] == '+' then t[1..] else t;
      assert t == d || t == "+" + d;
    }
    if NumeralIs(t, n) {
      var d: string :| d != "" && AllDigits(d) && DigitsValue(d) == n && n < 0x1_0000_0000_0000_0000 && (t == d || t == "+" + d);
      if t == "+" + d {
        assert t[1..] == d;
      } else {
        assert IsDigit(t[0]);
      }
    }
  }

  /** What a control line other than CONNECT says, from its words; its verb in any case. */
  ghost predicate Says(words: seq<string>, m: ClientMsg) {
    && words != []
    && (var verb, args := Upper(words[0]), words[1..];
        match m
        case Connect(_) => false
        case Ping => verb == "PING" && args == []
        case Pong => verb == "PONG" && args == []
        case Sub(subject, queue, sid) => verb == "SUB" && args == [subject] + OptWord(queue) + [sid]
        case Unsub(sid, max) =>
          && verb == "UNSUB"
          && (if max.None? then args == [sid] else |args| == 2 && args[0] == sid && NumeralIs(args[1], max.value))
        case Pub(subject, reply, len, payload) =>
          && verb == "PUB" && payload == [] && 2 <= |args| && args[..|args| - 1] == [subject] + OptWord(reply) && NumeralIs(args[|args| - 1], len))
  }

  lemma PubExactly(args: seq<string>, m: ClientMsg)
    ensures (var got := if |args| == 2 then ParsePub(args[0], None, args[1]) else if |args| == 3 then ParsePub(args[0], Some(args[1]), args[2]) else None;
      got == Some(m) <==> m.Pub? && m.payload == [] && 2 <= |args| && args[..|args| - 1] == [m.subject] + OptWord(m.reply) && NumeralIs(args[|args| - 1], m.len))
  {
    if |args| >= 2 && m.Pub? {
      NumeralExactly(args[|args| - 1], m.len);
      assert |args| == 2 ==> args[..1] == [args[0]];
      assert |args| == 3 ==> args[..2] == [args[0], args[1]];
      assert |[m.subject] + OptWord(m.reply)| <= 2;
    }
  }

  lemma SubExactly(args: seq<string>, subject: string, queue: Option<string>, sid: string)
    ensures args == [subject] + OptWord(queue) + [sid] <==>
      (|args| == 2 && subject == args[0] && queue == None && sid == args[1])
      || (|args| == 3 && subject == args[0] && queue == Some(args[1]) && sid == args[2])
  {
    assert |args| == 2 ==> args == [args[0], args[1]];
    assert |args| == 3 ==> args == [args[0], args[1], args[2]];
  }

  lemma UnsubExactly(args: seq<string>, sid: string, max: Option<nat>)
    ensures (if max.None? then args == [sid] else |args| == 2 && args[0] == sid && NumeralIs(args[1], max.value)) <==>
      (|args| == 1 && sid == args[0] && max == None) || (|args| == 2 && sid == args[0] && max.Some? && ParseU64(args[1]) == max)
  {
    if |args| == 2 && max.Some? {
      NumeralExactly(args[1], max.value);
    }
  }

  /** What the arguments of each verb give. */
  function BySub(args: seq<string>): Option<ClientMsg> {
    if |args| == 2 then Some(Sub(args[0], None, args[1])) else if |args| == 3 then Some(Sub(args[0], Some(args[1]), args[2])) else None
  }

  function ByUnsub(args: seq<string>): Option<ClientMsg> {
    if |args| == 1 then Some(Unsub(args[0], None)) else if |args| == 2 then ParseUnsub(args[0], args[1]) else None
  }

  function ByPub(args: seq<string>): Option<ClientMsg> {
    if |args| == 2 then ParsePub(args[0], None, args[1]) else if |args| == 3 then ParsePub(args[0], Some(args[1]), args[2]) else None
  }

  lemma InterpretBy(words: seq<string>, line: string)
    requires words != []
    ensures var verb, args, r := Upper(words[0]), words[1..], Interpret(words, line);
      && (verb == "PING" ==> r == (if args == [] then Some(Ping) else None))
      && (verb == "PONG" ==> r == (if args == [] then Some(Pong) else None))
      && (verb == "CONNECT" ==> r == ParseConnect(line)) && (verb == "SUB" ==> r == BySub(args))
      && (verb == "UNSUB" ==> r == ByUnsub(args)) && (verb == "PUB" ==> r == ByPub(args))
      && (r.Some? ==> KnownVerb(verb))
  {
  }

  predicate KnownVerb(verb: string) {
    verb == "PING" || verb == "PONG" || verb == "CONNECT" || verb == "SUB" || verb == "UNSUB" || verb == "PUB"
  }

  lemma ConnectOnly(line: string)
    ensures ParseConnect(line).Some? ==> ParseConnect(line).value.Connect?
  {
  }

  /** The verb of the message a call gives. */
  function VerbOf(m: ClientMsg): string {
    match m
    case Connect(_) => "CONNECT"
    case Ping => "PING"
    case Pong => "PONG"
    case Sub(_, _, _) => "SUB"
    case Unsub(_, _) => "UNSUB"
    case Pub(_, _, _, _) => "PUB"
  }

  lemma InterpretVerb(words: seq<string>, line: string, m: ClientMsg)
    requires words != [] && Interpret(words, line) == Some(m)
    ensures Upper(words[0]) == VerbOf(m)
  {
    InterpretBy(words, line);
    ConnectOnly(line);
    VerbFrom(Upper(words[0]), words[1..], ParseConnect(line), m);
  }

  lemma VerbFrom(verb: string, args: seq<string>, c: Option<ClientMsg>, m: ClientMsg)
    requires KnownVerb(verb) && (c.Some? ==> c.value.Connect?)
    requires verb == "PING" ==> args == [] && m == Ping
    requires verb == "PONG" ==> args == [] && m == Pong
    requires (verb == "CONNECT" ==> c == Some(m)) && (verb == "SUB" ==> BySub(args) == Some(m))
    requires (verb == "UNSUB" ==> ByUnsub(args) == Some(m)) && (verb == "PUB" ==> ByPub(args) == Some(m))
    ensures verb == VerbOf(m)
  {
  }

  /** PARSING, EXACTLY. A line that is not a CONNECT parses to a message if and only if
      its words say that message: no other verb, no word too many or too few. */
  lemma ParsedExactly(line: string, m: ClientMsg)
    requires !m.Connect?
    ensures ParseLine(line) == Some(m) <==> Says(Words(line), m)
  {
    InterpretExactly(Words(line), line, m);
  }

  lemma InterpretExactly(words: seq<string>, line: string, m: ClientMsg)
    requires !m.Connect?
    ensures Interpret(words, line) == Some(m) <==> Says(words, m)
  {
    if words != [] {
      if Interpret(words, line) == Some(m) {
        InterpretVerb(words, line, m);
      }
      if Upper(words[0]) == VerbOf(m) {
        InterpretBy(words, line);
        match m
        case Pub(_, _, _, _) => PubExactly(words[1..], m);
        case Sub(subject, queue, sid) => SubExactly(words[1..], subject, queue, sid);
        case Unsub(sid, max) => UnsubExactly(words[1..], sid, max);
        case _ =>
      }
    }
  }

  /** And what parses to a CONNECT starts with that word. */
  lemma ConnectSays(line: string, info: string)
    requires ParseLine(line) == Some(Connect(info))
    ensures Words(line) != [] && Upper(Words(line)[0]) == "CONNECT" && info != ""
  {
    InterpretVerb(Words(line), line, Connect(info));
    InterpretBy(Words(line), line);
  }

  // ---------------------------------------------------------- what is not a message

  /** The first line: up to and with the first newline, or everything. */
  lemma {:induction false} LineIs(bs: seq<byte>)
    ensures var n := LineLength(bs); (forall i :: 0 <= i < n - 1 ==> bs[i] != 10) && (n < |bs| ==> n > 0 && bs[n - 1] == 10)
  {
    if bs != [] && bs[0] != 10 {
      LineIs(bs[1..]);
    }
  }

  /** A PAYLOAD IS READ EXACTLY when it is at most 1 MiB, all there, and followed by CR LF;
      it is then those bytes, and what follows is untouched. */
  lemma PayloadExactly(msg: ClientMsg, bs: seq<byte>)
    requires msg.Pub?
    ensures var r := ReadPayload(msg, bs);
      if msg.len <= 1048576 && |bs| >= msg.len + 2 && bs[msg.len] == 13 && bs[msg.len + 1] == 10
      then r == Got(msg.(payload := bs[..msg.len]), bs[msg.len + 2..])
      else r == Broken
  {
    if |bs| >= msg.len + 2 {
      assert bs[msg.len..msg.len + 2] == [bs[msg.len], bs[msg.len + 1]];
    }
  }

  /** A connection ends at the end of its bytes, and breaks on a line that is not UTF-8
      or not a message. */
  lemma BadLineBreaks(bs: seq<byte>)
    ensures ReadMessage(bs) == End <==> bs == []
    ensures bs != [] ==> var text := Decode(bs[..LineLength(bs)]);
      text.None? || ParseLine(TrimEnd(text.value, CrLf)).None? ==> ReadMessage(bs) == Broken
  {
  }

  /** Verbs are read in any case: ASCII letters are raised, and nothing else changes. */
  lemma UpperExactly(s: string)
    ensures |Upper(s)| == |s|
    ensures forall i :: 0 <= i < |s| ==> Upper(s)[i] == (if 'a' <= s[i] <= 'z' then (s[i] as int - 32) as char else s[i])
  {
  }
}
