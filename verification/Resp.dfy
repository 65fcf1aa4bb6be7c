/** The Redis registrar's wire format: the command writer, a parser for RESP arrays of bulk strings,
    and what a server can read from a connection that may break at any byte. */
module Resp {
  import opened Bytes
  import Decimal

  type Command = seq<seq<Byte>>

  const CR: Byte := 13
  const LF: Byte := 10
  const STAR: Byte := 42
  const DOLLAR: Byte := 36

  /** A marker, a decimal number and a line end: `*%d\r\n` or `$%d\r\n`. */
  function Counted(marker: Byte, n: nat): seq<Byte> {
    [marker] + Ascii(Decimal.Print(n)) + [CR, LF]
  }

  function Bulk(arg: seq<Byte>): seq<Byte> {
    Counted(DOLLAR, |arg|) + arg + [CR, LF]
  }

  function Bulks(args: Command): seq<Byte> {
    if args == [] then [] else Bulk(args[0]) + Bulks(args[1..])
  }

  function Encode(args: Command): (r: seq<Byte>)
    ensures r != []
  {
    Counted(STAR, |args|) + Bulks(args)
  }

  function EncodeAll(commands: seq<Command>): seq<Byte> {
    if commands == [] then [] else Encode(commands[0]) + EncodeAll(commands[1..])
  }

  // ----- parser -----

  /** What the front of the input amounts to; `Incomplete` asks for more input. */
  datatype Parsed<+T> = Complete(value: T, rest: seq<Byte>) | Incomplete | Malformed

  predicate IsDigit(b: Byte) {
    48 <= b <= 57
  }

  function Digits(b: seq<Byte>): (r: nat)
    ensures r <= |b| && (forall i :: 0 <= i < r ==> IsDigit(b[i])) && (r < |b| ==> !IsDigit(b[r]))
  {
    if b == [] || !IsDigit(b[0]) then 0 else 1 + Digits(b[1..])
  }

  function DigitText(digits: seq<Byte>): (s: string)
    requires forall i :: 0 <= i < |digits| ==> IsDigit(digits[i])
    ensures |s| == |digits| && (forall i :: 0 <= i < |s| ==> s[i] as int == digits[i]) && Decimal.AllDigits(s)
  {
    if digits == [] then ""
    else
      assert IsDigit(digits[0]) && Decimal.IsDigit(digits[0] as char);
      [digits[0] as char] + DigitText(digits[1..])
  }

  function Number(digits: seq<Byte>): nat
    requires forall i :: 0 <= i < |digits| ==> IsDigit(digits[i])
  {
    Decimal.Parse(DigitText(digits))
  }

  function ParseCounted(marker: Byte, b: seq<Byte>): (r: Parsed<nat>)
    ensures r.Complete? ==> |r.rest| < |b|
  {
    if b == [] then Incomplete
    else if b[0] != marker then Malformed
    else
      var n := Digits(b[1..]);
      if 1 + n == |b| then Incomplete
      else if n == 0 || b[1 + n] != CR then Malformed
      else if 2 + n == |b| then Incomplete
      else if b[2 + n] != LF then Malformed
      else Complete(Number(b[1..1 + n]), b[3 + n..])
  }

  function ParseBulk(b: seq<Byte>): (r: Parsed<seq<Byte>>)
    ensures r.Complete? ==> |r.rest| < |b|
  {
    match ParseCounted(DOLLAR, b)
    case Incomplete => Incomplete
    case Malformed => Malformed
    case Complete(n, rest) =>
      if |rest| < n + 2 then Incomplete
      else if rest[n] != CR || rest[n + 1] != LF then Malformed
      else Complete(rest[..n], rest[n + 2..])
  }

  function ParseBulks(n: nat, b: seq<Byte>): (r: Parsed<Command>)
    ensures r.Complete? ==> |r.rest| <= |b|
  {
    if n == 0 then Complete([], b)
    else
      match ParseBulk(b)
      case Incomplete => Incomplete
      case Malformed => Malformed
      case Complete(arg, rest) =>
        match ParseBulks(n - 1, rest)
        case Incomplete => Incomplete
        case Malformed => Malformed
        case Complete(args, left) => Complete([arg] + args, left)
  }

  function ParseCommand(b: seq<Byte>): (r: Parsed<Command>)
    ensures r.Complete? ==> |r.rest| < |b|
  {
    match ParseCounted(STAR, b)
    case Incomplete => Incomplete
    case Malformed => Malformed
    case Complete(n, rest) => ParseBulks(n, rest)
  }

  /** The commands a stream carries, and the bytes after the last complete one. */
  datatype Stream = Stream(commands: seq<Command>, left: seq<Byte>, broken: bool)

  function ParseStream(b: seq<Byte>): Stream
    decreases |b|
  {
    if b == [] then Stream([], [], false)
    else
      match ParseCommand(b)
      case Incomplete => Stream([], b, false)
      case Malformed => Stream([], b, true)
      case Complete(command, rest) =>
        var tail := ParseStream(rest);
        tail.(commands := [command] + tail.commands)
  }

  // ----- round trip -----

  lemma {:induction false} DigitsOf(digits: seq<Byte>, rest: seq<Byte>)
    requires forall i :: 0 <= i < |digits| ==> IsDigit(digits[i])
    requires rest == [] || !IsDigit(rest[0])
    ensures Digits(digits + rest) == |digits|
  {
    if digits != [] {
      assert (digits + rest)[1..] == digits[1..] + rest;
      DigitsOf(digits[1..], rest);
    } else {
      assert digits + rest == rest;
    }
  }

  lemma NumberOf(n: nat)
    ensures var d := Ascii(Decimal.Print(n));
      && d != [] && (forall i :: 0 <= i < |d| ==> IsDigit(d[i])) && Number(d) == n
  {
    var s := Decimal.Print(n);
    var d := Ascii(s);
    forall i | 0 <= i < |d| ensures IsDigit(d[i]) && d[i] == s[i] as int {
      assert Decimal.IsDigit(s[i]);
    }
    assert DigitText(d) == s;
    Decimal.ParsePrint(0, n);
    assert Decimal.Zeros(0) + s == s;
  }

  lemma ParseCountedOf(marker: Byte, n: nat, rest: seq<Byte>)
    ensures ParseCounted(marker, Counted(marker, n) + rest) == Complete(n, rest)
  {
    hide Decimal.Print, Number, Ascii;
    NumberOf(n);
    var d := Ascii(Decimal.Print(n));
    var b := Counted(marker, n) + rest;
    assert b == [marker] + (d + ([CR, LF] + rest));
    assert b[1..] == d + ([CR, LF] + rest);
    DigitsOf(d, [CR, LF] + rest);
    assert b[1 + |d|] == CR && b[2 + |d|] == LF;
    assert b[1..1 + |d|] == d && b[3 + |d|..] == rest;
  }

  lemma ParseBulkOf(arg: seq<Byte>, rest: seq<Byte>)
    ensures ParseBulk(Bulk(arg) + rest) == Complete(arg, rest)
  {
    hide ParseCounted, Counted;
    var after := arg + [CR, LF] + rest;
    assert Bulk(arg) + rest == Counted(DOLLAR, |arg|) + after;
    ParseCountedOf(DOLLAR, |arg|, after);
    assert after[..|arg|] == arg && after[|arg|] == CR && after[|arg| + 1] == LF && after[|arg| + 2..] == rest;
  }

  lemma {:induction false} ParseBulksOf(args: Command, rest: seq<Byte>)
    ensures ParseBulks(|args|, Bulks(args) + rest) == Complete(args, rest)
  {
    hide ParseBulk, Bulk;
    if args == [] {
      assert Bulks(args) + rest == rest;
    } else {
      assert Bulks(args) + rest == Bulk(args[0]) + (Bulks(args[1..]) + rest);
      ParseBulkOf(args[0], Bulks(args[1..]) + rest);
      ParseBulksOf(args[1..], rest);
      assert [args[0]] + args[1..] == args;
    }
  }

  /** Arguments are arbitrary bytes: CR, LF and `$` included. */
  lemma ParseCommandOf(args: Command, rest: seq<Byte>)
    ensures ParseCommand(Encode(args) + rest) == Complete(args, rest)
  {
    hide ParseCounted, Counted;
    assert Encode(args) + rest == Counted(STAR, |args|) + (Bulks(args) + rest);
    ParseCountedOf(STAR, |args|, Bulks(args) + rest);
    ParseBulksOf(args, rest);
  }

  // ----- more input never changes a verdict -----

  predicate Settled<T(==)>(a: Parsed<T>, more: seq<Byte>, b: Parsed<T>) {
    (a.Complete? ==> b == Complete(a.value, a.rest + more)) && (a.Malformed? ==> b.Malformed?)
  }

  lemma {:induction false} DigitsSettled(b: seq<Byte>, more: seq<Byte>)
    ensures Digits(b) < |b| ==> Digits(b + more) == Digits(b)
  {
    if b != [] && IsDigit(b[0]) {
      assert (b + more)[1..] == b[1..] + more;
      DigitsSettled(b[1..], more);
    }
  }

  lemma CountedSettled(marker: Byte, b: seq<Byte>, more: seq<Byte>)
    ensures Settled(ParseCounted(marker, b), more, ParseCounted(marker, b + more))
  {
    if b != [] {
      var n := Digits(b[1..]);
      DigitsSettled(b[1..], more);
      assert (b + more)[1..] == b[1..] + more;
      if 3 + n <= |b| {
        assert (b + more)[1..1 + n] == b[1..1 + n];
        assert (b + more)[3 + n..] == b[3 + n..] + more;
      }
    }
  }

  lemma BulkSettled(b: seq<Byte>, more: seq<Byte>)
    ensures Settled(ParseBulk(b), more, ParseBulk(b + more))
  {
    hide ParseCounted;
    CountedSettled(DOLLAR, b, more);
    var head := ParseCounted(DOLLAR, b);
    if head.Complete? && |head.rest| >= head.value + 2 {
      var n := head.value;
      assert (head.rest + more)[..n] == head.rest[..n];
      assert (head.rest + more)[n + 2..] == head.rest[n + 2..] + more;
    }
  }

  lemma {:induction false} BulksSettled(n: nat, b: seq<Byte>, more: seq<Byte>)
    ensures Settled(ParseBulks(n, b), more, ParseBulks(n, b + more))
  {
    hide ParseBulk;
    if n > 0 {
      BulkSettled(b, more);
      var first := ParseBulk(b);
      if first.Complete? { BulksSettled(n - 1, first.rest, more); }
    }
  }

  lemma CommandSettled(b: seq<Byte>, more: seq<Byte>)
    ensures Settled(ParseCommand(b), more, ParseCommand(b + more))
  {
    hide ParseCounted;
    CountedSettled(STAR, b, more);
    var head := ParseCounted(STAR, b);
    if head.Complete? { BulksSettled(head.value, head.rest, more); }
  }

  /** A command cut short anywhere is neither a command nor malformed. */
  lemma CutCommandIncomplete(args: Command, k: nat)
    requires k < |Encode(args)|
    ensures ParseCommand(Encode(args)[..k]).Incomplete?
  {
    hide ParseCommand, Encode;
    var b := Encode(args);
    CommandSettled(b[..k], b[k..]);
    assert b[..k] + b[k..] == b == b + [];
    ParseCommandOf(args, []);
  }

  /** Framing: whatever commands were written, and wherever the connection broke in the next one, the
      server reads exactly the commands written and waits for the rest. */
  lemma {:induction false} StreamParses(commands: seq<Command>, next: Command, k: nat)
    requires k < |Encode(next)|
    ensures ParseStream(EncodeAll(commands) + Encode(next)[..k]) == Stream(commands, Encode(next)[..k], false)
  {
    hide ParseCommand, Encode;
    if commands == [] {
      assert EncodeAll(commands) + Encode(next)[..k] == Encode(next)[..k];
      CutCommandIncomplete(next, k);
    } else {
      var rest := EncodeAll(commands[1..]) + Encode(next)[..k];
      assert EncodeAll(commands) + Encode(next)[..k] == Encode(commands[0]) + rest;
      ParseCommandOf(commands[0], rest);
      StreamParses(commands[1..], next, k);
      assert [commands[0]] + commands[1..] == commands;
    }
  }

  lemma {:induction false} EncodeAllAppend(commands: seq<Command>, last: Command)
    ensures EncodeAll(commands + [last]) == EncodeAll(commands) + Encode(last)
  {
    hide Encode;
    if commands == [] {
      assert commands + [last] == [last] && [last][1..] == [];
      assert EncodeAll([]) == [];
      assert EncodeAll([last]) == Encode(last) + EncodeAll([last][1..]);
    } else {
      assert (commands + [last])[1..] == commands[1..] + [last];
      EncodeAllAppend(commands[1..], last);
    }
  }

  /** What a server reads off a connection that took `room` bytes of one more command. */
  lemma AfterWrite(commands: seq<Command>, args: Command, room: nat)
    ensures var code := Encode(args);
      ParseStream(EncodeAll(commands) + (if |code| <= room then code else code[..room]))
        == if |code| <= room then Stream(commands + [args], [], false) else Stream(commands, code[..room], false)
  {
    hide Encode, ParseStream;
    if |Encode(args)| <= room {
      EncodeAllAppend(commands, args);
      StreamParses(commands + [args], args, 0);
      assert EncodeAll(commands + [args]) + Encode(args)[..0] == EncodeAll(commands) + Encode(args);
    } else {
      StreamParses(commands, args, room);
    }
  }

  /** Distinct command sequences have distinct encodings. */
  lemma EncodeAllInjective(a: seq<Command>, b: seq<Command>)
    requires EncodeAll(a) == EncodeAll(b)
    ensures a == b
  {
    hide Encode, ParseStream;
    StreamParses(a, [], 0);
    StreamParses(b, [], 0);
    assert EncodeAll(a) + Encode([])[..0] == EncodeAll(a) && EncodeAll(b) + Encode([])[..0] == EncodeAll(b);
  }

  // ----- the registrar's connection -----

  /** A connection that takes `room` more bytes and then breaks. */
  class Conn {
    var written: seq<Byte>
    var room: nat

    constructor (room: nat)
      ensures written == [] && this.room == room
    {
      this.written, this.room := [], room;
    }

    /** A write is complete or leaves a part of the data behind. */
    method Write(data: seq<Byte>) returns (ok: bool)
      modifies this
      ensures ok <==> |data| <= old(room)
      ensures written == old(written) + (if ok then data else data[..old(room)])
      ensures room == if ok then old(room) - |data| else 0
    {
      ok := |data| <= room;
      var n := if ok then |data| else room;
      written, room := written + data[..n], room - n;
      assert data[..|data|] == data;
    }
  }

  /** `writeCommand`: one write for the header and one for every argument; stops at the first error. */
  method WriteCommand(conn: Conn, args: Command) returns (ok: bool)
    modifies conn
    ensures ok <==> |Encode(args)| <= old(conn.room)
    ensures conn.written == old(conn.written) + (if ok then Encode(args) else Encode(args)[..old(conn.room)])
    ensures conn.room == if ok then old(conn.room) - |Encode(args)| else 0
  {
    hide Counted;
    ghost var code, room := Encode(args), conn.room;
    var head := Counted(STAR, |args|);
    assert code == head + Bulks(args);
    ok := conn.Write(head);
    if !ok { assert code[..room] == head[..room]; return; }
    ghost var sent := head;
    for i := 0 to |args|
      invariant sent + Bulks(args[i..]) == code
      invariant conn.written == old(conn.written) + sent && |sent| <= room && conn.room == room - |sent|
    {
      assert args[i..][0] == args[i] && args[i..][1..] == args[i + 1..];
      var bulk := Counted(DOLLAR, |args[i]|) + args[i] + [CR, LF];
      assert code == sent + bulk + Bulks(args[i + 1..]);
      ok := conn.Write(bulk);
      if !ok { assert code[..room] == sent + bulk[..room - |sent|]; return; }
      sent := sent + bulk;
    }
    assert sent == code;
    ok := true;
  }
}
