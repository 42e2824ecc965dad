/** What the Stream Deck software hands a plugin on start-up: the language and platform
    names of the environment, and the command line the plugin is launched with. */
module Registration {
  import opened Wrappers
  import opened Ints
  import opened Json
  import opened Decimal

  // ---------------------------------------------------------------------------------------
  // Language and platform

  /** The language the software runs in; undocumented names are kept verbatim. */
  datatype Language = English | French | German | Spanish | Japanese | ChineseChina | Unknown(name: string)

  const KnownLanguages: set<string> := {"en", "fr", "de", "es", "ja", "zh_cn"}

  function LanguageFromString(s: string): Language {
    match s
    case "en" => English
    case "fr" => French
    case "de" => German
    case "es" => Spanish
    case "ja" => Japanese
    case "zh_cn" => ChineseChina
    case _ => Unknown(s)
  }

  function LanguageToString(l: Language): string {
    match l
    case English => "en"
    case French => "fr"
    case German => "de"
    case Spanish => "es"
    case Japanese => "ja"
    case ChineseChina => "zh_cn"
    case Unknown(s) => s
  }

  /** Exactly the six documented names are named languages, and every name survives
      decoding and re-encoding. */
  lemma LanguageNames(s: string)
    ensures LanguageFromString(s).Unknown? <==> s !in KnownLanguages
    ensures LanguageToString(LanguageFromString(s)) == s
  {
  }

  /** A language survives encoding and decoding unless it is an `Unknown` spelling a
      documented name. */
  lemma LanguageRoundTrip(l: Language)
    ensures LanguageFromString(LanguageToString(l)) == l <==> !(l.Unknown? && l.name in KnownLanguages)
  {
  }

  /** The language in JSON: any string. */
  function LanguageFromJson(j: Json, name: string): (r: Decoded<Language>)
    ensures r.Success? <==> j.JString?
    ensures r.Success? ==> LanguageToString(r.value) == j.s
  {
    var s :- AsString(j, name);
    Success(LanguageFromString(s))
  }

  function LanguageToJson(l: Language): Json {
    JString(LanguageToString(l))
  }

  lemma LanguageJsonRoundTrip(l: Language, name: string)
    requires !(l.Unknown? && l.name in KnownLanguages)
    ensures LanguageFromJson(LanguageToJson(l), name) == Success(l)
  {
    LanguageRoundTrip(l);
  }

  /** The operating system the software runs on; undocumented names are kept verbatim. */
  datatype Platform = Mac | Windows | UnknownPlatform(name: string)

  const KnownPlatforms: set<string> := {"mac", "windows"}

  function PlatformFromString(s: string): Platform {
    match s
    case "mac" => Mac
    case "windows" => Windows
    case _ => UnknownPlatform(s)
  }

  function PlatformToString(p: Platform): string {
    match p
    case Mac => "mac"
    case Windows => "windows"
    case UnknownPlatform(s) => s
  }

  lemma PlatformNames(s: string)
    ensures PlatformFromString(s).UnknownPlatform? <==> s !in KnownPlatforms
    ensures PlatformToString(PlatformFromString(s)) == s
  {
  }

  lemma PlatformRoundTrip(p: Platform)
    ensures PlatformFromString(PlatformToString(p)) == p <==>
      !(p.UnknownPlatform? && p.name in KnownPlatforms)
  {
  }

  function PlatformFromJson(j: Json, name: string): (r: Decoded<Platform>)
    ensures r.Success? <==> j.JString?
    ensures r.Success? ==> PlatformToString(r.value) == j.s
  {
    var s :- AsString(j, name);
    Success(PlatformFromString(s))
  }

  function PlatformToJson(p: Platform): Json {
    JString(PlatformToString(p))
  }

  lemma PlatformJsonRoundTrip(p: Platform, name: string)
    requires !(p.UnknownPlatform? && p.name in KnownPlatforms)
    ensures PlatformFromJson(PlatformToJson(p), name) == Success(p)
  {
    PlatformRoundTrip(p);
  }

  // ---------------------------------------------------------------------------------------
  // The port number

  /** Why an unsigned integer could not be read. */
  datatype IntErrorKind = Empty | InvalidDigit | PosOverflow

  /** Reads digits left to right onto `acc`, failing on the first non-digit or as soon as the
      number no longer fits in 16 bits. */
  function ReadDigits(acc: uint16, rest: string): (r: Result<uint16, IntErrorKind>)
    ensures r != Failure(Empty)
    decreases |rest|
  {
    if rest == [] then Success(acc)
    else if !IsDigit(rest[0]) then Failure(InvalidDigit)
    else
      var next := acc * 10 + (rest[0] as int - '0' as int);
      if next >= 0x1_0000 then Failure(PosOverflow) else ReadDigits(next, rest[1..])
  }

  /** A port as `u16::from_str` reads it: an optional `+`, then at least one decimal digit,
      and a value below 65536. */
  function ParsePort(s: string): Result<uint16, IntErrorKind> {
    if s == [] then Failure(Empty)
    else if s == "+" || s == "-" then Failure(InvalidDigit)
    else ReadDigits(0, DigitsOf(s))
  }

  /** The digits after an optional leading `+`. */
  function DigitsOf(s: string): string {
    if |s| > 0 && s[0] == '+' then s[1..] else s
  }

  /** A string is all digits exactly when its first character is one and the rest are. */
  lemma AllDigitsFront(s: string)
    requires |s| > 0
    ensures AllDigits(s) <==> IsDigit(s[0]) && AllDigits(s[1..])
  {
    if IsDigit(s[0]) && AllDigits(s[1..]) {
      forall i | 0 < i < |s| ensures IsDigit(s[i]) {
        assert s[i] == s[1..][i - 1];
      }
    }
  }

  /** The number `acc` followed by the digits of `rest` denotes, read left to right. */
  function ReadValue(acc: nat, rest: string): nat
    requires AllDigits(rest)
    decreases |rest|
  {
    if rest == [] then acc
    else
      AllDigitsFront(rest);
      ReadValue(acc * 10 + (rest[0] as int - '0' as int), rest[1..])
  }

  /** Appending a digit shifts the number read so far by one place. */
  lemma {:induction false} ReadValueSnoc(acc: nat, s: string, c: char)
    requires AllDigits(s) && IsDigit(c)
    ensures AllDigits(s + [c])
    ensures ReadValue(acc, s + [c]) == ReadValue(acc, s) * 10 + (c as int - '0' as int)
    decreases |s|
  {
    var sc := s + [c];
    assert forall i :: 0 <= i < |sc| ==> sc[i] == (if i < |s| then s[i] else c);
    if s != [] {
      AllDigitsFront(s);
      assert sc[1..] == s[1..] + [c];
      ReadValueSnoc(acc * 10 + (s[0] as int - '0' as int), s[1..], c);
    }
  }

  /** Reading left to right from zero agrees with the decimal value. */
  lemma {:induction false} ReadValueIsValue(s: string)
    requires AllDigits(s)
    ensures ReadValue(0, s) == Value(s)
    decreases |s|
  {
    if s != [] {
      var init := s[..|s| - 1];
      assert AllDigits(init) by {
        assert forall i :: 0 <= i < |init| ==> init[i] == s[i];
      }
      ReadValueIsValue(init);
      ReadValueSnoc(0, init, s[|s| - 1]);
      assert init + [s[|s| - 1]] == s;
    }
  }

  /** More digits never make the number smaller. */
  lemma {:induction false} ReadValueGrows(acc: nat, rest: string)
    requires AllDigits(rest)
    ensures ReadValue(acc, rest) >= acc
    decreases |rest|
  {
    if rest != [] {
      AllDigitsFront(rest);
      ReadValueGrows(acc * 10 + (rest[0] as int - '0' as int), rest[1..]);
    }
  }

  /** What the digit loop computes: the whole remaining string must be digits, and `acc`
      followed by them must stay below 65536. */
  lemma {:induction false} ReadDigitsValue(acc: uint16, rest: string)
    ensures ReadDigits(acc, rest).Success? <==> AllDigits(rest) && ReadValue(acc, rest) < 0x1_0000
    ensures ReadDigits(acc, rest).Success? ==> ReadDigits(acc, rest).value == ReadValue(acc, rest)
    decreases |rest|
  {
    if rest != [] {
      AllDigitsFront(rest);
      if IsDigit(rest[0]) {
        var next := acc * 10 + (rest[0] as int - '0' as int);
        if next < 0x1_0000 {
          ReadDigitsValue(next, rest[1..]);
        } else if AllDigits(rest) {
          ReadValueGrows(next, rest[1..]);
        }
      }
    }
  }

  /** The port parser succeeds exactly on an optional `+` followed by one or more digits
      whose value fits in 16 bits, and the result is that value. */
  lemma ParsePortSpec(s: string)
    ensures ParsePort(s).Success? <==>
      |DigitsOf(s)| > 0 && AllDigits(DigitsOf(s)) && Value(DigitsOf(s)) < 0x1_0000
    ensures ParsePort(s).Success? ==> ParsePort(s).value == Value(DigitsOf(s))
    ensures ParsePort(s) == Failure(Empty) <==> s == []
  {
    if s != [] && s != "+" && s != "-" {
      ReadDigitsValue(0, DigitsOf(s));
      if AllDigits(DigitsOf(s)) {
        ReadValueIsValue(DigitsOf(s));
      }
    }
    if s == "-" {
      assert !IsDigit(DigitsOf(s)[0]);
    }
  }

  /** Concrete readings that succeed: a plain port and one with a sign. */
  lemma ParsePortAccepts()
    ensures ParsePort("28196") == Success(28196)
    ensures ParsePort("+80") == Success(80)
  {
    assert DigitsOf("+80") == "80";
  }

  /** Concrete readings that fail, each for its own reason. */
  lemma ParsePortRejects()
    ensures ParsePort("-1") == Failure(InvalidDigit)
    ensures ParsePort("65536") == Failure(PosOverflow)
    ensures ParsePort("7000x") == Failure(InvalidDigit)
    ensures ParsePort("") == Failure(Empty)
  {
  }

  // ---------------------------------------------------------------------------------------
  // The command line

  const PORT_FLAG := "-port"
  const UUID_FLAG := "-pluginUUID"
  const EVENT_FLAG := "-registerEvent"
  const INFO_FLAG := "-info"

  predicate IsFlag(t: string) {
    t == PORT_FLAG || t == UUID_FLAG || t == EVENT_FLAG || t == INFO_FLAG
  }

  /** The registration parameters; the environment description is opaque. */
  datatype Params<I> = Params(port: uint16, uuid: string, event: string, info: I)

  /** Why the registration parameters could not be collected. */
  datatype ArgsError<E> = NoPort | BadPort(kind: IntErrorKind) | NoUuid | NoEvent | NoInfo | BadInfo(cause: E)

  /** The four values seen so far, each absent or the (parsed) last value. */
  datatype Scanned<I, E> = Scanned(
    port: Option<Result<uint16, IntErrorKind>>,
    uuid: Option<string>,
    event: Option<string>,
    info: Option<Result<I, E>>)

  function Start<I, E>(): Scanned<I, E> {
    Scanned(None, None, None, None)
  }

  /** Records flag `f` with its value, or with nothing when the command line ends after it. */
  function Record<I, E>(s: Scanned<I, E>, f: string, v: Option<string>, parseInfo: string -> Result<I, E>): Scanned<I, E>
    requires IsFlag(f)
  {
    if f == PORT_FLAG then s.(port := if v.Some? then Some(ParsePort(v.value)) else None)
    else if f == UUID_FLAG then s.(uuid := v)
    else if f == EVENT_FLAG then s.(event := v)
    else s.(info := if v.Some? then Some(parseInfo(v.value)) else None)
  }

  /** The scan of the remaining tokens: a flag takes the next token as its value whatever it
      looks like, and every other token is skipped. */
  function Scan<I, E>(rest: seq<string>, s: Scanned<I, E>, parseInfo: string -> Result<I, E>): Scanned<I, E>
    decreases |rest|
  {
    if rest == [] then s
    else if IsFlag(rest[0]) then
      if |rest| == 1 then Record(s, rest[0], None, parseInfo)
      else Scan(rest[2..], Record(s, rest[0], Some(rest[1]), parseInfo), parseInfo)
    else Scan(rest[1..], s, parseInfo)
  }

  /** The scanner ends exactly at the end of `xs`: no flag in `xs` is left without a value. */
  predicate Complete(xs: seq<string>)
    decreases |xs|
  {
    if xs == [] then true
    else if IsFlag(xs[0]) then |xs| >= 2 && Complete(xs[2..])
    else Complete(xs[1..])
  }

  /** The checks after the scan, in their fixed order. */
  function Finish<I, E>(s: Scanned<I, E>): Result<Params<I>, ArgsError<E>> {
    if s.port.None? then Failure(NoPort)
    else if s.port.value.Failure? then Failure(BadPort(s.port.value.error))
    else if s.uuid.None? then Failure(NoUuid)
    else if s.event.None? then Failure(NoEvent)
    else if s.info.None? then Failure(NoInfo)
    else if s.info.value.Failure? then Failure(BadInfo(s.info.value.error))
    else Success(Params(s.port.value.value, s.uuid.value, s.event.value, s.info.value.value))
  }

  /** The registration parameters read from a command line. */
  function ParamsOf<I, E>(args: seq<string>, parseInfo: string -> Result<I, E>): Result<Params<I>, ArgsError<E>> {
    Finish(Scan(args, Start(), parseInfo))
  }

  /** Pulls the registration parameters out of a command line, as the plugin's entry point
      does with its arguments. */
  method FromArgs<I, E>(args: seq<string>, parseInfo: string -> Result<I, E>) returns (r: Result<Params<I>, ArgsError<E>>)
    ensures r == ParamsOf(args, parseInfo)
  {
    var port: Option<Result<uint16, IntErrorKind>> := None;
    var uuid: Option<string> := None;
    var event: Option<string> := None;
    var info: Option<Result<I, E>> := None;
    var i := 0;
    while i < |args|
      invariant 0 <= i <= |args|
      invariant Scan(args[i..], Scanned(port, uuid, event, info), parseInfo) == Scan(args, Start(), parseInfo)
      decreases |args| - i
    {
      var token := args[i];
      var value: Option<string> := if i + 1 < |args| then Some(args[i + 1]) else None;
      assert args[i..][0] == token;
      if token == PORT_FLAG {
        port := if value.Some? then Some(ParsePort(value.value)) else None;
      } else if token == UUID_FLAG {
        uuid := value;
      } else if token == EVENT_FLAG {
        event := value;
      } else if token == INFO_FLAG {
        info := if value.Some? then Some(parseInfo(value.value)) else None;
      }
      if IsFlag(token) && i + 1 < |args| {
        assert args[i..][2..] == args[i + 2..];
        i := i + 2;
      } else if IsFlag(token) {
        i := |args|;
      } else {
        assert args[i..][1..] == args[i + 1..];
        i := i + 1;
      }
    }
    if port.None? {
      return Failure(NoPort);
    }
    if port.value.Failure? {
      return Failure(BadPort(port.value.error));
    }
    if uuid.None? {
      return Failure(NoUuid);
    }
    if event.None? {
      return Failure(NoEvent);
    }
    if info.None? {
      return Failure(NoInfo);
    }
    if info.value.Failure? {
      return Failure(BadInfo(info.value.error));
    }
    r := Success(Params(port.value.value, uuid.value, event.value, info.value.value));
  }

  /** Scanning a complete prefix and then the rest is scanning the whole line. */
  lemma {:induction false} ScanConcat<I, E>(xs: seq<string>, ys: seq<string>, s: Scanned<I, E>, parseInfo: string -> Result<I, E>)
    requires Complete(xs)
    ensures Scan(xs + ys, s, parseInfo) == Scan(ys, Scan(xs, s, parseInfo), parseInfo)
    decreases |xs|
  {
    if xs != [] {
      var zs := xs + ys;
      assert zs[0] == xs[0];
      if IsFlag(xs[0]) {
        assert zs[1] == xs[1];
        assert zs[2..] == xs[2..] + ys;
        ScanConcat(xs[2..], ys, Record(s, xs[0], Some(xs[1]), parseInfo), parseInfo);
      } else {
        assert zs[1..] == xs[1..] + ys;
        ScanConcat(xs[1..], ys, s, parseInfo);
      }
    } else {
      assert xs + ys == ys;
    }
  }

  /** When a flag appears again, its last value wins and nothing else changes. */
  lemma LastOccurrenceWins<I, E>(xs: seq<string>, f: string, v: string, parseInfo: string -> Result<I, E>)
    requires Complete(xs) && IsFlag(f)
    ensures Scan(xs + [f, v], Start(), parseInfo) == Record(Scan(xs, Start(), parseInfo), f, Some(v), parseInfo)
  {
    ScanConcat(xs, [f, v], Start(), parseInfo);
    assert [f, v][2..] == [];
  }

  /** A flag that ends the command line leaves its field absent, even if it was set before. */
  lemma TrailingFlagResets<I, E>(xs: seq<string>, f: string, parseInfo: string -> Result<I, E>)
    requires Complete(xs) && IsFlag(f)
    ensures Scan(xs + [f], Start(), parseInfo) == Record(Scan(xs, Start(), parseInfo), f, None, parseInfo)
    ensures f == UUID_FLAG ==> Scan(xs + [f], Start(), parseInfo).uuid == None
  {
    ScanConcat(xs, [f], Start(), parseInfo);
  }

  /** Tokens that are not flags are skipped. */
  lemma {:induction false} NonFlagsSkipped<I, E>(ys: seq<string>, s: Scanned<I, E>, parseInfo: string -> Result<I, E>)
    requires forall k :: 0 <= k < |ys| ==> !IsFlag(ys[k])
    ensures Scan(ys, s, parseInfo) == s
    ensures Complete(ys)
    decreases |ys|
  {
    if ys != [] {
      assert forall k :: 0 <= k < |ys[1..]| ==> ys[1..][k] == ys[k + 1];
      NonFlagsSkipped(ys[1..], s, parseInfo);
    }
  }

  /** Unrecognised tokens anywhere after a complete prefix change nothing. */
  lemma UnrecognisedSkipped<I, E>(xs: seq<string>, ys: seq<string>, parseInfo: string -> Result<I, E>)
    requires Complete(xs)
    requires forall k :: 0 <= k < |ys| ==> !IsFlag(ys[k])
    ensures Scan(xs + ys, Start(), parseInfo) == Scan(xs, Start(), parseInfo)
  {
    ScanConcat(xs, ys, Start(), parseInfo);
    NonFlagsSkipped(ys, Scan(xs, Start(), parseInfo), parseInfo);
  }

  /** The value after a flag is taken even when it looks like a flag itself. */
  lemma ValueLooksLikeFlag<I, E>(parseInfo: string -> Result<I, E>)
    ensures var s := Scan(["-pluginUUID", "-port", "-registerEvent", "registerPlugin"], Start(), parseInfo);
      s.uuid == Some("-port") && s.port == None && s.event == Some("registerPlugin")
  {
    var args := ["-pluginUUID", "-port", "-registerEvent", "registerPlugin"];
    assert args[2..] == ["-registerEvent", "registerPlugin"];
    assert args[2..][2..] == [];
  }

  /** The error reported by the checks, ranked in the order they are made. */
  function Rank<E>(e: ArgsError<E>): nat {
    match e
    case NoPort => 0
    case BadPort(_) => 1
    case NoUuid => 2
    case NoEvent => 3
    case NoInfo => 4
    case BadInfo(_) => 5
  }

  /** Every problem with the collected values, each stated on its own. */
  function Problems<I, E>(s: Scanned<I, E>): seq<ArgsError<E>> {
    (if s.port.None? then [NoPort] else []) +
    (if s.port.Some? && s.port.value.Failure? then [BadPort(s.port.value.error)] else []) +
    (if s.uuid.None? then [NoUuid] else []) +
    (if s.event.None? then [NoEvent] else []) +
    (if s.info.None? then [NoInfo] else []) +
    (if s.info.Some? && s.info.value.Failure? then [BadInfo(s.info.value.error)] else [])
  }

  /** The checks fail exactly when there is some problem, and then report the problem that
      comes first in the fixed order, whatever else is wrong. */
  lemma FinishReportsFirstProblem<I, E>(s: Scanned<I, E>)
    ensures Finish(s).Failure? <==> |Problems(s)| > 0
    ensures Finish(s).Failure? ==>
      (Finish(s).error == Problems(s)[0] &&
       forall k :: 0 <= k < |Problems(s)| ==> Rank(Finish(s).error) <= Rank(Problems(s)[k]))
  {
  }

  /** Success needs all four flags with values, a readable port and readable info, and then
      holds exactly the last values seen. */
  lemma ParamsOfSuccess<I, E>(args: seq<string>, parseInfo: string -> Result<I, E>)
    ensures var s := Scan(args, Start(), parseInfo);
      ParamsOf(args, parseInfo).Success? <==>
        s.port.Some? && s.port.value.Success? && s.uuid.Some? && s.event.Some? &&
        s.info.Some? && s.info.value.Success?
    ensures var s := Scan(args, Start(), parseInfo);
      ParamsOf(args, parseInfo).Success? ==>
        ParamsOf(args, parseInfo).value ==
          Params(s.port.value.value, s.uuid.value, s.event.value, s.info.value.value)
  {
  }

  /** A bad port is reported before a missing uuid. */
  lemma BadPortBeforeNoUuid<I, E>(parseInfo: string -> Result<I, E>)
    ensures ParamsOf(["-port", "x"], parseInfo) == Failure(BadPort(InvalidDigit))
  {
    assert ["-port", "x"][2..] == [];
  }

  /** A full command line, with its flags in any order. */
  lemma FullCommandLine<I, E>(parseInfo: string -> Result<I, E>, info: I)
    requires parseInfo("{}") == Success(info)
    ensures ParamsOf(["-info", "{}", "-port", "28196", "-registerEvent", "registerPlugin",
                      "-pluginUUID", "ABC"], parseInfo) ==
      Success(Params(28196, "ABC", "registerPlugin", info))
  {
    var args := ["-info", "{}", "-port", "28196", "-registerEvent", "registerPlugin", "-pluginUUID", "ABC"];
    assert args[2..] == ["-port", "28196", "-registerEvent", "registerPlugin", "-pluginUUID", "ABC"];
    assert args[2..][2..] == ["-registerEvent", "registerPlugin", "-pluginUUID", "ABC"];
    assert args[2..][2..][2..] == ["-pluginUUID", "ABC"];
    assert args[2..][2..][2..][2..] == [];
  }
}
