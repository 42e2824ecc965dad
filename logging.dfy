/** The log drain that forwards log records to the Stream Deck software: each record
    becomes one `logMessage` holding the level, the message and the key-value pairs. */
module Logging {
  import opened Wrappers
  import opened Decimal
  import opened Payloads
  import Messages

  // ---------------------------------------------------------------------------------------
  // Levels and values

  datatype Level = Critical | Error | Warning | Info | Debug | Trace

  /** The four-letter names of the levels. */
  function ShortName(l: Level): string {
    match l
    case Critical => "CRIT"
    case Error => "ERRO"
    case Warning => "WARN"
    case Info => "INFO"
    case Debug => "DEBG"
    case Trace => "TRCE"
  }

  /** Every level has its own four-letter name. */
  lemma ShortNamesDistinct(a: Level, b: Level)
    ensures |ShortName(a)| == 4
    ensures ShortName(a) == ShortName(b) <==> a == b
  {
  }

  /** A value attached to a log record. Integers of every width display alike, so one
      constructor stands for all of them. */
  datatype KvValue =
    | NoneValue
    | UnitValue
    | BoolValue(b: bool)
    | CharValue(c: char)
    | IntValue(n: int)
    | StrValue(s: string)
    | ArgumentsValue(text: string)

  /** How a value is displayed. */
  function Display(v: KvValue): string {
    match v
    case NoneValue => "None"
    case UnitValue => "()"
    case BoolValue(b) => if b then "true" else "false"
    case CharValue(c) => [c]
    case IntValue(n) => IntToString(n)
    case StrValue(s) => s
    case ArgumentsValue(text) => text
  }

  /** One serialised pair. */
  function Pair(key: string, text: string): (p: string)
    ensures |p| == |key| + 2 + |text|
  {
    key + ": " + text
  }

  /** An absent value shows as `None`, a unit as `()`, and a number as its decimal digits
      with a sign when negative. */
  lemma DisplayForms(key: string, n: int)
    ensures Pair(key, Display(NoneValue)) == key + ": None"
    ensures Pair(key, Display(UnitValue)) == key + ": ()"
    ensures var d := Display(IntValue(n));
      (d[0] == '-' <==> n < 0) &&
      AllDigits(if n < 0 then d[1..] else d) && Value(if n < 0 then d[1..] else d) == (if n < 0 then -n else n)
  {
    IntToStringSign(n);
  }

  /** The pairs a sequence of key-value pairs pushes, in order. */
  function Pushed(kvs: seq<(string, KvValue)>): (ps: seq<string>)
    ensures |ps| == |kvs|
    ensures forall i :: 0 <= i < |kvs| ==> ps[i] == Pair(kvs[i].0, Display(kvs[i].1))
  {
    seq(|kvs|, i requires 0 <= i < |kvs| => Pair(kvs[i].0, Display(kvs[i].1)))
  }

  /** Collects the pairs of a record as strings on a stack. */
  class Serializer {
    var stack: seq<string>

    constructor()
      ensures stack == []
    {
      stack := [];
    }

    method EmitNone(key: string)
      modifies this
      ensures stack == old(stack) + [Pair(key, Display(NoneValue))]
    {
      stack := stack + [Pair(key, "None")];
    }

    method EmitUnit(key: string)
      modifies this
      ensures stack == old(stack) + [Pair(key, Display(UnitValue))]
    {
      stack := stack + [Pair(key, "()")];
    }

    method EmitBool(key: string, val: bool)
      modifies this
      ensures stack == old(stack) + [Pair(key, Display(BoolValue(val)))]
    {
      stack := stack + [Pair(key, if val then "true" else "false")];
    }

    method EmitChar(key: string, val: char)
      modifies this
      ensures stack == old(stack) + [Pair(key, Display(CharValue(val)))]
    {
      stack := stack + [Pair(key, [val])];
    }

    /** Any of the integer emitters, which differ only in the range of their argument. */
    method EmitInt(key: string, val: int)
      modifies this
      ensures stack == old(stack) + [Pair(key, Display(IntValue(val)))]
    {
      stack := stack + [Pair(key, IntToString(val))];
    }

    method EmitStr(key: string, val: string)
      modifies this
      ensures stack == old(stack) + [Pair(key, Display(StrValue(val)))]
    {
      stack := stack + [Pair(key, val)];
    }

    method EmitArguments(key: string, val: string)
      modifies this
      ensures stack == old(stack) + [Pair(key, Display(ArgumentsValue(val)))]
    {
      stack := stack + [Pair(key, val)];
    }

    /** Emits one pair through the emitter for its kind of value. */
    method Emit(key: string, val: KvValue)
      modifies this
      ensures stack == old(stack) + [Pair(key, Display(val))]
    {
      match val {
        case NoneValue => EmitNone(key);
        case UnitValue => EmitUnit(key);
        case BoolValue(b) => EmitBool(key, b);
        case CharValue(c) => EmitChar(key, c);
        case IntValue(n) => EmitInt(key, n);
        case StrValue(s) => EmitStr(key, s);
        case ArgumentsValue(t) => EmitArguments(key, t);
      }
    }

    /** Emits a sequence of pairs in order. */
    method EmitAll(kvs: seq<(string, KvValue)>)
      modifies this
      ensures stack == old(stack) + Pushed(kvs)
    {
      for i := 0 to |kvs|
        invariant stack == old(stack) + Pushed(kvs[..i])
      {
        assert Pushed(kvs[..i + 1]) == Pushed(kvs[..i]) + [Pair(kvs[i].0, Display(kvs[i].1))];
        Emit(kvs[i].0, kvs[i].1);
      }
      assert kvs[..|kvs|] == kvs;
    }

    /** The room the pairs take in the message, summed over the stack. */
    method ReservedLength() returns (n: nat)
      ensures n == KvLen(stack)
    {
      n := 0;
      for i := 0 to |stack|
        invariant n == KvLen(stack[..i])
      {
        assert stack[..i + 1][..i] == stack[..i];
        n := n + |stack[i]| + 2;
      }
      assert stack[..|stack|] == stack;
    }

    /** Pops every pair off the stack onto the end of `message`, each after `", "`. */
    method PopInto(message: string) returns (out: string)
      modifies this
      ensures out == message + Trailer(old(stack))
      ensures stack == []
    {
      out := message;
      while stack != []
        invariant out + Trailer(stack) == message + Trailer(old(stack))
        decreases |stack|
      {
        var value := stack[|stack| - 1];
        assert Trailer(stack) == ", " + value + Trailer(stack[..|stack| - 1]);
        stack := stack[..|stack| - 1];
        out := out + ", " + value;
      }
    }
  }

  // ---------------------------------------------------------------------------------------
  // The formatted message

  /** The pairs as they follow the message: each after `", "`, the last pushed first. */
  function Trailer(stack: seq<string>): (t: string)
    decreases |stack|
  {
    if stack == [] then [] else ", " + stack[|stack| - 1] + Trailer(stack[..|stack| - 1])
  }

  /** The room the pairs take: each pair and its separator. */
  function KvLen(stack: seq<string>): nat
    decreases |stack|
  {
    if stack == [] then 0 else KvLen(stack[..|stack| - 1]) + |stack[|stack| - 1]| + 2
  }

  /** The message sent for a record. */
  function FormatLog(level: Level, msg: string, stack: seq<string>): string {
    ShortName(level) + " " + msg + Trailer(stack)
  }

  /** The reserved room is exactly what the pairs take. */
  lemma {:induction false} TrailerLength(stack: seq<string>)
    ensures |Trailer(stack)| == KvLen(stack)
    decreases |stack|
  {
    if stack != [] {
      TrailerLength(stack[..|stack| - 1]);
    }
  }

  /** Pairs pushed later come out earlier: the trailer of two pushes is the second's
      followed by the first's. */
  lemma {:induction false} TrailerConcat(a: seq<string>, b: seq<string>)
    ensures Trailer(a + b) == Trailer(b) + Trailer(a)
    decreases |b|
  {
    if b == [] {
      assert a + b == a;
    } else {
      var ab := a + b;
      var init := b[..|b| - 1];
      var last := b[|b| - 1];
      assert ab[|ab| - 1] == last;
      assert ab[..|ab| - 1] == a + init;
      assert Trailer(ab) == ", " + last + Trailer(a + init);
      TrailerConcat(a, init);
      assert Trailer(b) == ", " + last + Trailer(init);
      assert ", " + last + (Trailer(init) + Trailer(a)) == (", " + last + Trailer(init)) + Trailer(a);
    }
  }

  /** The message starts with the level's short name, a space and the record's message, and
      its length is that prefix plus the reserved room. */
  lemma FormatLogShape(level: Level, msg: string, stack: seq<string>)
    ensures var prefix := ShortName(level) + " " + msg;
      FormatLog(level, msg, stack)[..|prefix|] == prefix &&
      |FormatLog(level, msg, stack)| == |prefix| + KvLen(stack)
  {
    TrailerLength(stack);
    var prefix := ShortName(level) + " " + msg;
    assert FormatLog(level, msg, stack) == prefix + Trailer(stack);
  }

  /** The record's pairs are pushed before the logger's, so every logger value comes before
      every record value in the message. */
  lemma LoggerValuesFirst(level: Level, msg: string, record: seq<(string, KvValue)>, logger: seq<(string, KvValue)>)
    ensures FormatLog(level, msg, Pushed(record) + Pushed(logger)) ==
      ShortName(level) + " " + msg + Trailer(Pushed(logger)) + Trailer(Pushed(record))
  {
    TrailerConcat(Pushed(record), Pushed(logger));
  }

  /** A record with one pair and no logger values. */
  lemma FormatLogExample()
    ensures FormatLog(Info, "started", Pushed([("port", StrValue("28196"))])) == "INFO started, port: 28196"
  {
    var ps := Pushed([("port", StrValue("28196"))]);
    assert ps == [Pair("port", "28196")];
    assert ps[..0] == [];
    assert Pair("port", "28196") == "port: 28196";
  }

  // ---------------------------------------------------------------------------------------
  // The drain

  /** Forwards log records over the channel to the socket's outgoing messages. */
  class StreamDeckDrain<G, S, M> {
    /** The messages in the channel, oldest first. */
    var sent: seq<Messages.MessageOut<G, S, M>>
    /** Whether the receiving end of the channel is still there. */
    var connected: bool

    constructor(connected: bool)
      ensures sent == [] && this.connected == connected
    {
      sent := [];
      this.connected := connected;
    }

    /** Logs one record: formats it with its pairs and the logger's, and sends a single
        `logMessage`; a closed channel hands the message back. */
    method Log(level: Level, msg: string, record: seq<(string, KvValue)>, logger: seq<(string, KvValue)>)
      returns (r: Result<(), Messages.MessageOut<G, S, M>>)
      modifies this
      ensures var m := Messages.LogMessage(LogMessagePayload(FormatLog(level, msg, Pushed(record) + Pushed(logger))));
        if old(connected) then r == Success(()) && sent == old(sent) + [m]
        else r == Failure(m) && sent == old(sent)
      ensures connected == old(connected)
    {
      var message := ShortName(level) + " " + msg;
      var serializer := new Serializer();
      serializer.EmitAll(record);
      assert serializer.stack == Pushed(record);
      serializer.EmitAll(logger);
      ghost var pushed := serializer.stack;
      assert pushed == Pushed(record) + Pushed(logger);
      var kvLen := serializer.ReservedLength();
      ghost var reserved := |message| + kvLen;
      message := serializer.PopInto(message);
      assert message == FormatLog(level, msg, pushed);
      TrailerLength(pushed);
      assert |message| == reserved;
      var out := Messages.LogMessage(LogMessagePayload(message));
      if connected {
        sent := sent + [out];
        r := Success(());
      } else {
        r := Failure(out);
      }
    }
  }
}
