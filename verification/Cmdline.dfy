// The guest's boot configuration travels on the kernel command line: the host hex-encodes it and
// appends `mm.*` tokens, PID 1 in the guest splits the line and decodes them.
module Cmdline {
  import opened Prelude
  import Utf8

  // --- joining and splitting -----------------------------------------------------

  function Join<T>(sep: T, parts: seq<seq<T>>): seq<T>
  {
    if |parts| == 0 then []
    else if |parts| == 1 then parts[0]
    else Join(sep, parts[..|parts| - 1]) + [sep] + parts[|parts| - 1]
  }

  // The pieces between separators: always one more than there are separators.
  function Split<T(==)>(sep: T, s: seq<T>): seq<seq<T>>
    decreases |s|
  {
    var i := IndexOf(s, sep);
    if i == |s| then [s] else [s[..i]] + Split(sep, s[i + 1..])
  }

  lemma {:induction false} IndexOfFirst<T>(a: seq<T>, x: T, b: seq<T>)
    requires x !in a
    ensures IndexOf(a + [x] + b, x) == |a|
  {
    if a != [] {
      assert (a + [x] + b)[1..] == a[1..] + [x] + b;
      IndexOfFirst(a[1..], x, b);
    }
  }

  lemma SplitAt<T>(sep: T, a: seq<T>, b: seq<T>)
    requires sep !in a
    ensures Split(sep, a + [sep] + b) == [a] + Split(sep, b)
  {
    IndexOfFirst(a, sep, b);
    var s := a + [sep] + b;
    assert s[..|a|] == a && s[|a| + 1..] == b;
  }

  lemma {:induction false} SplitAppend<T>(sep: T, s: seq<T>, last: seq<T>)
    requires sep !in last
    ensures Split(sep, s + [sep] + last) == Split(sep, s) + [last]
    decreases |s|
  {
    var i := IndexOf(s, sep);
    if i == |s| {
      assert s[..i] == s;
      SplitAt(sep, s, last);
    } else {
      var rest := s[i + 1..];
      assert s + [sep] + last == s[..i] + [sep] + (rest + [sep] + last);
      SplitAt(sep, s[..i], rest + [sep] + last);
      SplitAppend(sep, rest, last);
    }
  }

  lemma {:induction false} SplitJoin<T>(sep: T, parts: seq<seq<T>>)
    requires |parts| > 0 && forall p :: p in parts ==> sep !in p
    ensures Split(sep, Join(sep, parts)) == parts
  {
    if |parts| == 1 {
      assert sep !in parts[0];
    } else {
      var front := parts[..|parts| - 1];
      SplitJoin(sep, front);
      SplitAppend(sep, Join(sep, front), parts[|parts| - 1]);
    }
  }

  lemma {:induction false} SplitPieces<T>(sep: T, s: seq<T>)
    ensures forall p :: p in Split(sep, s) ==> sep !in p
    decreases |s|
  {
    var i := IndexOf(s, sep);
    if i == |s| {
      assert s[..i] == s;
    } else {
      SplitPieces(sep, s[i + 1..]);
    }
  }

  function NonEmpty<T>(parts: seq<seq<T>>): seq<seq<T>>
  {
    if parts == [] then []
    else (if parts[0] == [] then [] else [parts[0]]) + NonEmpty(parts[1..])
  }

  lemma {:induction false} NonEmptyOf<T>(parts: seq<seq<T>>)
    ensures [] !in parts ==> NonEmpty(parts) == parts
    ensures forall p :: p in NonEmpty(parts) ==> p in parts && p != []
  {
    if parts != [] { NonEmptyOf(parts[1..]); }
  }

  // --- hex ------------------------------------------------------------------------

  function HexDigit(n: int): char
    requires 0 <= n < 16
  {
    if n < 10 then '0' + n as char else 'a' + (n - 10) as char
  }

  function Nibble(c: char): (n: Option<int>)
    ensures n.Some? ==> 0 <= n.value < 16
  {
    if '0' <= c <= '9' then Some(c as int - '0' as int)
    else if 'a' <= c <= 'f' then Some(c as int - 'a' as int + 10)
    else if 'A' <= c <= 'F' then Some(c as int - 'A' as int + 10)
    else None
  }

  function HexByte(b: byte): string
  {
    [HexDigit(b as int / 16), HexDigit(b as int % 16)]
  }

  function Hex(bytes: seq<byte>): string
  {
    if bytes == [] then [] else Hex(bytes[..|bytes| - 1]) + HexByte(bytes[|bytes| - 1])
  }

  // Bytes of an even number of hex digits of either case; None otherwise.
  function UnHex(s: string): Option<seq<byte>>
  {
    if s == [] then Some([])
    else if |s| == 1 then None
    else
      var front := UnHex(s[..|s| - 2]);
      var hi, lo := Nibble(s[|s| - 2]), Nibble(s[|s| - 1]);
      if front.None? || hi.None? || lo.None? then None
      else Some(front.value + [(hi.value * 16 + lo.value) as byte])
  }

  method HexEncode(bytes: seq<byte>) returns (s: string)
    ensures s == Hex(bytes)
  {
    s := "";
    for i := 0 to |bytes|
      invariant s == Hex(bytes[..i])
    {
      assert bytes[..i + 1][..i] == bytes[..i];
      s := s + HexByte(bytes[i]);
    }
    assert bytes[..|bytes|] == bytes;
  }

  lemma {:induction false} UnHexDomain(s: string)
    ensures UnHex(s).Some? <==> |s| % 2 == 0 && forall i :: 0 <= i < |s| ==> Nibble(s[i]).Some?
  {
    if |s| >= 2 {
      UnHexDomain(s[..|s| - 2]);
      assert forall i :: 0 <= i < |s| - 2 ==> s[..|s| - 2][i] == s[i];
    }
  }

  method DecodeHex(s: string) returns (out: Option<seq<byte>>)
    ensures out == UnHex(s)
  {
    if |s| % 2 != 0 {
      UnHexDomain(s);
      return None;
    }
    var bytes: seq<byte> := [];
    for i := 0 to |s| / 2
      invariant UnHex(s[..2 * i]) == Some(bytes)
    {
      var hi, lo := Nibble(s[2 * i]), Nibble(s[2 * i + 1]);
      assert s[..2 * i + 2][..2 * i] == s[..2 * i];
      if hi.None? || lo.None? {
        UnHexDomain(s);
        return None;
      }
      bytes := bytes + [(hi.value * 16 + lo.value) as byte];
    }
    assert s[..|s|] == s;
    return Some(bytes);
  }

  lemma NibbleOfDigit(n: int)
    requires 0 <= n < 16
    ensures Nibble(HexDigit(n)) == Some(n)
  {
  }

  lemma {:induction false} HexRoundTrip(bytes: seq<byte>)
    ensures UnHex(Hex(bytes)) == Some(bytes)
  {
    if bytes != [] {
      var front, last := bytes[..|bytes| - 1], bytes[|bytes| - 1];
      HexRoundTrip(front);
      NibbleOfDigit(last as int / 16);
      NibbleOfDigit(last as int % 16);
      var s := Hex(bytes);
      assert s[..|s| - 2] == Hex(front);
      assert bytes == front + [last];
    }
  }

  function Upper(c: char): char
  {
    if 'a' <= c <= 'f' then (c as int - 32) as char else c
  }

  function UpperAll(s: string): string
  {
    if s == [] then [] else UpperAll(s[..|s| - 1]) + [Upper(s[|s| - 1])]
  }

  lemma {:induction false} UpperLength(s: string)
    ensures |UpperAll(s)| == |s|
  {
    if s != [] { UpperLength(s[..|s| - 1]); }
  }

  // Either case decodes to the same bytes.
  lemma {:induction false} UnHexIgnoresCase(s: string)
    ensures UnHex(UpperAll(s)) == UnHex(s)
  {
    UpperLength(s);
    if |s| >= 2 {
      var n := |s|;
      var front := s[..n - 1];
      UpperLength(front);
      UpperLength(s[..n - 2]);
      assert front[..n - 2] == s[..n - 2] && front[n - 2] == s[n - 2];
      var up := UpperAll(s);
      assert up == UpperAll(s[..n - 2]) + [Upper(s[n - 2]), Upper(s[n - 1])];
      assert up[..n - 2] == UpperAll(s[..n - 2]);
      UnHexIgnoresCase(s[..n - 2]);
    }
  }

  // --- argv -------------------------------------------------------------------------

  const NUL: char := 0 as char

  function EncodeArgv(argv: seq<string>): string
  {
    Hex(Utf8.Encode(Join(NUL, argv)))
  }

  // The pieces that are valid UTF-8, as text.
  function Texts(parts: seq<seq<byte>>): seq<string>
  {
    if parts == [] then []
    else
      var first := Utf8.Decode(parts[0]);
      (if first.Some? then [first.value] else []) + Texts(parts[1..])
  }

  function DecodeArgv(hex: string): Option<seq<string>>
  {
    var bytes := UnHex(hex);
    if bytes.None? then None else Some(Texts(NonEmpty(Split(0, bytes.value))))
  }

  function Encodings(argv: seq<string>): (parts: seq<seq<byte>>)
    ensures |parts| == |argv| && forall i :: 0 <= i < |argv| ==> parts[i] == Utf8.Encode(argv[i])
  {
    seq(|argv|, i requires 0 <= i < |argv| => Utf8.Encode(argv[i]))
  }

  lemma {:induction false} EncodeOfJoin(argv: seq<string>)
    ensures Utf8.Encode(Join(NUL, argv)) == Join(0, Encodings(argv))
  {
    if |argv| > 1 {
      var front, last := argv[..|argv| - 1], argv[|argv| - 1];
      EncodeOfJoin(front);
      assert Encodings(argv)[..|argv| - 1] == Encodings(front);
      Utf8.EncodeConcat(Join(NUL, front) + [NUL], last);
      Utf8.EncodeConcat(Join(NUL, front), [NUL]);
      assert Utf8.Encode([NUL]) == [0];
    }
  }

  lemma {:induction false} TextsOfEncodings(argv: seq<string>)
    ensures Texts(Encodings(argv)) == argv
  {
    if argv != [] {
      TextsOfEncodings(argv[1..]);
      assert Encodings(argv)[1..] == Encodings(argv[1..]);
      Utf8.DecodeEncode(argv[0]);
      assert argv == [argv[0]] + argv[1..];
    }
  }

  ghost predicate Carriable(argv: seq<string>)
  {
    forall a :: a in argv ==> a != [] && NUL !in a
  }

  ghost predicate Piece(p: seq<byte>)
  {
    p != [] && 0 !in p
  }

  lemma {:induction false} TextsAreCarriable(parts: seq<seq<byte>>)
    requires forall p :: p in parts ==> Piece(p)
    ensures Carriable(Texts(parts))
  {
    if parts != [] {
      TextsAreCarriable(parts[1..]);
      var first := Utf8.Decode(parts[0]);
      if first.Some? {
        assert Piece(parts[0]);
        Utf8.EncodeDecode(parts[0]);
        Utf8.ZeroBytes(first.value);
        assert first.value != [] && NUL !in first.value;
      }
    }
  }

  // The argv channel delivers exactly the lists of nonempty NUL-free strings, and every decoded
  // list is one of those.
  lemma ArgvRoundTrip(argv: seq<string>)
    ensures DecodeArgv(EncodeArgv(argv)) == Some(argv) <==> Carriable(argv)
  {
    var bytes := Utf8.Encode(Join(NUL, argv));
    HexRoundTrip(bytes);
    EncodeOfJoin(argv);
    var pieces := Split(0, bytes);
    SplitPieces(0, bytes);
    NonEmptyOf(pieces);
    TextsAreCarriable(NonEmpty(pieces));
    if Carriable(argv) {
      var parts := Encodings(argv);
      forall p | p in parts ensures Piece(p) {
        var i :| 0 <= i < |argv| && p == Utf8.Encode(argv[i]);
        assert argv[i] in argv;
        Utf8.ZeroBytes(argv[i]);
        Utf8.EncodeEmpty(argv[i]);
      }
      if argv == [] {
        assert Split<byte>(0, []) == [[]];
        assert NonEmpty<byte>([[]]) == [];
      } else {
        SplitJoin(0, parts);
        TextsOfEncodings(argv);
      }
    }
  }

  // --- tokens -----------------------------------------------------------------------

  predicate White(c: char)
  {
    var v := c as int;
    || 9 <= v <= 13 || v == 32 || v == 0x85 || v == 0xA0 || v == 0x1680 || 0x2000 <= v <= 0x200A
    || v == 0x2028 || v == 0x2029 || v == 0x202F || v == 0x205F || v == 0x3000
  }

  ghost predicate Word(s: string)
  {
    s != [] && NoWhite(s)
  }

  ghost predicate NoWhite(s: string)
  {
    forall c :: c in s ==> !White(c)
  }

  function WordLength(s: string): (n: nat)
    ensures n <= |s| && NoWhite(s[..n]) && (n < |s| ==> White(s[n]))
    ensures s != [] && !White(s[0]) ==> n > 0
  {
    if s == [] || White(s[0]) then 0 else
      var n := 1 + WordLength(s[1..]);
      assert s[..n] == [s[0]] + s[1..][..n - 1];
      n
  }

  function Words(s: string): seq<string>
    decreases |s|
  {
    if s == [] then []
    else if White(s[0]) then Words(s[1..])
    else var n := WordLength(s); [s[..n]] + Words(s[n..])
  }

  lemma {:induction false} WordLengthOf(a: string, b: string)
    requires NoWhite(a) && (b == [] || White(b[0]))
    ensures WordLength(a + b) == |a|
  {
    if a == [] {
      assert a + b == b;
    } else {
      assert (a + b)[1..] == a[1..] + b;
      WordLengthOf(a[1..], b);
    }
  }

  lemma {:induction false} WordsAppend(s: string, w: string)
    requires Word(w)
    ensures Words(s + " " + w) == Words(s) + [w]
    decreases |s|
  {
    var t := s + " " + w;
    if s == [] {
      assert t[1..] == w && White(t[0]);
      WordLengthOf(w, []);
      assert w + [] == w && w[0] in w;
      assert w[..|w|] == w && w[|w|..] == [];
    } else if White(s[0]) {
      assert t[1..] == s[1..] + " " + w;
      WordsAppend(s[1..], w);
    } else {
      var n := WordLength(s);
      assert t == s[..n] + (s[n..] + " " + w);
      WordLengthOf(s[..n], s[n..] + " " + w);
      assert t[..n] == s[..n] && t[n..] == s[n..] + " " + w;
      WordsAppend(s[n..], w);
    }
  }

  lemma {:induction false} WordsOfJoin(words: seq<string>)
    requires forall w :: w in words ==> Word(w)
    ensures Words(Join(' ', words)) == words
  {
    if |words| == 1 {
      var w := words[0];
      assert w in words && w[0] in w;
      WordLengthOf(w, []);
      assert w + [] == w && w[..|w|] == w && w[|w|..] == [];
    } else if |words| > 1 {
      var front, last := words[..|words| - 1], words[|words| - 1];
      WordsOfJoin(front);
      WordsAppend(Join(' ', front), last);
    }
  }

  // --- the guest side ------------------------------------------------------------------

  datatype Mode = Workload | Sandbox

  datatype InitConfig = InitConfig(workload: Option<string>, args: seq<string>, mode: Mode,
                                   vsockBootPort: Option<u32>, authorizedKey: Option<string>,
                                       randomSeed: Option<seq<byte>>)

  const DEFAULT := InitConfig(None, [], Workload, None, None, None)

  function Decimal(s: string): (n: Option<nat>)
  {
    if s == [] then Some(0)
    else
      var front := Decimal(s[..|s| - 1]);
      var c := s[|s| - 1];
      if front.None? || !('0' <= c <= '9') then None else Some(front.value * 10 + (c as int - '0' as int))
  }

  // `str::parse::<u32>`: an optional plus sign, at least one digit, no overflow.
  function ParseU32(s: string): Option<u32>
  {
    var digits := if s != [] && s[0] == '+' then s[1..] else s;
    var n := if digits == [] then None else Decimal(digits);
    if n.Some? && n.value < TWO32 then Some(n.value) else None
  }

  datatype Key = WorkloadKey | ArgsKey | ArgvKey | ModeKey | PortKey | AuthorizedKey | SeedKey | UnknownKey

  function KeyOf(name: string): Key
  {
    if name == "mm.workload" then WorkloadKey
    else if name == "mm.args" then ArgsKey
    else if name == "mm.workload_argv" then ArgvKey
    else if name == "mm.mode" then ModeKey
    else if name == "mm.vsock_boot_port" then PortKey
    else if name == "mm.authorized_key" then AuthorizedKey
    else if name == "mm.random_seed" then SeedKey
    else UnknownKey
  }

  function Assign(cfg: InitConfig, key: Key, value: string): InitConfig
  {
    match key
    case WorkloadKey => cfg.(workload := Some(value))
    case ArgsKey => cfg.(args := NonEmpty(Split(',', value)))
    case ArgvKey =>
      var argv := DecodeArgv(value);
      if argv.None? || argv.value == [] then cfg
      else cfg.(workload := Some(argv.value[0]), args := argv.value[1..])
    case ModeKey => if value == "sandbox" then cfg.(mode := Sandbox) else cfg
    case PortKey => cfg.(vsockBootPort := ParseU32(value))
    case AuthorizedKey =>
      var bytes := UnHex(value);
      cfg.(authorizedKey := if bytes.None? then None else Utf8.Decode(bytes.value))
    case SeedKey =>
      var bytes := UnHex(value);
      cfg.(randomSeed := if bytes == Some([]) then None else bytes)
    case UnknownKey => cfg
  }

  // What one token does to the configuration; a token without an equals sign does nothing.
  function Apply(cfg: InitConfig, token: string): InitConfig
  {
    var i := IndexOf(token, '=');
    if i == |token| then cfg else Assign(cfg, KeyOf(token[..i]), token[i + 1..])
  }

  function Configured(tokens: seq<string>): InitConfig
  {
    if tokens == [] then DEFAULT else Apply(Configured(tokens[..|tokens| - 1]), tokens[|tokens| - 1])
  }

  method Parse(cmdline: string) returns (cfg: InitConfig)
    ensures cfg == Configured(Words(cmdline))
  {
    cfg := DEFAULT;
    var tokens := Words(cmdline);
    for i := 0 to |tokens|
      invariant cfg == Configured(tokens[..i])
    {
      assert tokens[..i + 1][..i] == tokens[..i];
      cfg := Apply(cfg, tokens[i]);
    }
    assert tokens[..|tokens|] == tokens;
  }

  // The comma-separated form carries nonempty comma-free arguments.
  lemma ArgsRoundTrip(args: seq<string>)
    requires args != [] && forall a :: a in args ==> a != [] && ',' !in a
    ensures NonEmpty(Split(',', Join(',', args))) == args
  {
    SplitJoin(',', args);
    NonEmptyOf(args);
  }

  // --- the host side --------------------------------------------------------------------

  const FIXED: seq<string> :=
    ["console=ttyS0", "root=/dev/vda", "ro", "init=/init", "reboot=t", "panic=1", "pci=off", "8250.nr_uarts=1"]

  function Digits(n: nat): (s: string)
    ensures Word(s)
  {
    if n < 10 then [HexDigit(n)] else Digits(n / 10) + [HexDigit(n % 10)]
  }

  lemma {:induction false} DecimalDigits(n: nat)
    ensures Decimal(Digits(n)) == Some(n) && Digits(n)[0] != '+'
  {
    if n < 10 {
      assert Digits(n)[..0] == [];
      assert Decimal(Digits(n)[..0]) == Some(0);
    } else {
      DecimalDigits(n / 10);
      var s := Digits(n);
      assert s[..|s| - 1] == Digits(n / 10);
    }
  }

  // A port is read back from its decimal form exactly when it fits 32 bits.
  lemma PortRoundTrip(n: nat)
    ensures ParseU32(Digits(n)) == if n < TWO32 then Some(n) else None
  {
    DecimalDigits(n);
  }

  datatype Ipv4 = Ipv4(a: byte, b: byte, c: byte, d: byte)

  function Dotted(x: Ipv4): (s: string)
    ensures NoWhite(s)
  {
    Digits(x.a as nat) + "." + Digits(x.b as nat) + "." + Digits(x.c as nat) + "." + Digits(x.d as nat)
  }

  function IpParam(ip: Ipv4, gateway: Ipv4, mask: Ipv4, hostname: string): string
  {
    "ip=" + (Dotted(ip) + "::" + Dotted(gateway) + ":" + Dotted(mask) + ":" + hostname + ":eth0:off")
  }

  function ModeToken(argvHex: Option<string>): string
  {
    if argvHex.Some? then "mm.workload_argv" + "=" + argvHex.value else "mm.mode" + "=" + "sandbox"
  }

  function OptionToken(key: string, hex: Option<string>): seq<string>
  {
    if hex.Some? then [key + "=" + hex.value] else []
  }

  function Tokens(ipParam: string, argvHex: Option<string>, keyHex: Option<string>,
                  seedHex: Option<string>): seq<string>
  {
    FIXED + [ipParam] + [ModeToken(argvHex)] + OptionToken("mm.authorized_key", keyHex) +
        OptionToken("mm.random_seed", seedHex)
  }

  method BuildCmdline(ip: Ipv4, gateway: Ipv4, mask: Ipv4, hostname: string,
                      argvHex: Option<string>, keyHex: Option<string>, seedHex: Option<string>)
    returns (line: string)
    ensures line == Join(' ', Tokens(IpParam(ip, gateway, mask, hostname), argvHex, keyHex, seedHex))
  {
    ghost var tokens := FIXED + [IpParam(ip, gateway, mask, hostname)] + [ModeToken(argvHex)];
    line := Join(' ', FIXED) + " " + IpParam(ip, gateway, mask, hostname) + " " + ModeToken(argvHex);
    JoinAppend(FIXED, IpParam(ip, gateway, mask, hostname));
    JoinAppend(FIXED + [IpParam(ip, gateway, mask, hostname)], ModeToken(argvHex));
    if keyHex.Some? {
      JoinAppend(tokens, "mm.authorized_key" + "=" + keyHex.value);
      line := line + " " + ("mm.authorized_key" + "=" + keyHex.value);
      tokens := tokens + OptionToken("mm.authorized_key", keyHex);
    }
    if seedHex.Some? {
      JoinAppend(tokens, "mm.random_seed" + "=" + seedHex.value);
      line := line + " " + ("mm.random_seed" + "=" + seedHex.value);
      tokens := tokens + OptionToken("mm.random_seed", seedHex);
    }
    assert tokens == Tokens(IpParam(ip, gateway, mask, hostname), argvHex, keyHex, seedHex);
  }

  lemma JoinAppend(parts: seq<string>, last: string)
    requires parts != []
    ensures Join(' ', parts + [last]) == Join(' ', parts) + " " + last
  {
    assert (parts + [last])[..|parts|] == parts;
  }

  // --- the round trip --------------------------------------------------------------------

  // A token whose first character is not `m` leaves the configuration alone.
  lemma ForeignToken(cfg: InitConfig, token: string)
    requires token != [] && token[0] != 'm'
    ensures Apply(cfg, token) == cfg
  {
    var i := IndexOf(token, '=');
    if 0 < i < |token| { assert token[..i][0] == token[0]; }
  }

  ghost predicate ForeignWords(tokens: seq<string>)
  {
    forall t :: t in tokens ==> Word(t) && t[0] != 'm'
  }

  lemma {:induction false} ForeignTokens(tokens: seq<string>)
    requires ForeignWords(tokens)
    ensures Configured(tokens) == DEFAULT
  {
    if tokens != [] {
      ForeignTokens(tokens[..|tokens| - 1]);
      assert tokens[|tokens| - 1] in tokens;
      ForeignToken(DEFAULT, tokens[|tokens| - 1]);
    }
  }

  ghost predicate Graphic(s: string)
  {
    s != [] && forall c :: c in s ==> '!' <= c <= '~'
  }

  lemma GraphicWord(s: string)
    requires Graphic(s)
    ensures Word(s)
  {
  }

  lemma FixedAreForeign()
    ensures ForeignWords(FIXED)
  {
    GraphicWord("console=ttyS0");
    GraphicWord("root=/dev/vda");
    GraphicWord("ro");
    GraphicWord("init=/init");
    GraphicWord("reboot=t");
    GraphicWord("panic=1");
    GraphicWord("pci=off");
    GraphicWord("8250.nr_uarts=1");
  }

  lemma {:induction false} HexIsPlain(bytes: seq<byte>)
    ensures NoWhite(Hex(bytes))
  {
    if bytes != [] { HexIsPlain(bytes[..|bytes| - 1]); }
  }

  lemma IpIsForeign(ip: Ipv4, gateway: Ipv4, mask: Ipv4, hostname: string)
    requires NoWhite(hostname)
    ensures Word(IpParam(ip, gateway, mask, hostname)) && IpParam(ip, gateway, mask, hostname)[0] != 'm'
  {
  }

  lemma ConfiguredLast(tokens: seq<string>, last: string)
    ensures Configured(tokens + [last]) == Apply(Configured(tokens), last)
  {
    assert (tokens + [last])[..|tokens|] == tokens;
  }

  // A token sets the key before its first equals sign to what follows it.
  lemma KeyValue(cfg: InitConfig, name: string, value: string)
    requires '=' !in name
    ensures Apply(cfg, name + "=" + value) == Assign(cfg, KeyOf(name), value)
  {
    IndexOfFirst(name, '=', value);
    var token := name + "=" + value;
    assert token[..|name|] == name && token[|name| + 1..] == value;
  }

  lemma KeyNames()
    ensures KeyOf("mm.workload_argv") == ArgvKey && KeyOf("mm.mode") == ModeKey
    ensures KeyOf("mm.authorized_key") == AuthorizedKey && KeyOf("mm.random_seed") == SeedKey
  {
    assert "mm.mode"[3] != "mm.args"[3];
  }

  ghost function Recovered(argv: Option<seq<string>>, key: Option<seq<byte>>, seed: Option<seq<byte>>): InitConfig
  {
    InitConfig(
      if argv.Some? && argv.value != [] then Some(argv.value[0]) else None,
      if argv.Some? && argv.value != [] then argv.value[1..] else [],
      if argv.Some? then Workload else Sandbox,
      None,
      if key.Some? then Utf8.Decode(key.value) else None,
      if seed == Some([]) then None else seed)
  }

  function HexOption(bytes: Option<seq<byte>>): Option<string>
  {
    if bytes.Some? then Some(Hex(bytes.value)) else None
  }

  function ArgvOption(argv: Option<seq<string>>): Option<string>
  {
    if argv.Some? then Some(EncodeArgv(argv.value)) else None
  }

  lemma TokenIsWord(name: string, value: string)
    requires Graphic(name) && NoWhite(value)
    ensures Word(name + "=" + value)
  {
    GraphicWord(name);
  }

  lemma ArgvToken(argv: seq<string>)
    requires Carriable(argv)
    ensures Apply(DEFAULT, "mm.workload_argv" + "=" + EncodeArgv(argv)) == Recovered(Some(argv), None, None)
  {
    KeyNames();
    KeyValue(DEFAULT, "mm.workload_argv", EncodeArgv(argv));
    ArgvRoundTrip(argv);
  }

  lemma SandboxToken()
    ensures Apply(DEFAULT, "mm.mode" + "=" + "sandbox") == Recovered(None, None, None)
  {
    KeyNames();
    KeyValue(DEFAULT, "mm.mode", "sandbox");
  }

  lemma KeyToken(cfg: InitConfig, bytes: seq<byte>)
    ensures Apply(cfg, "mm.authorized_key" + "=" + Hex(bytes)) == cfg.(authorizedKey := Utf8.Decode(bytes))
  {
    KeyNames();
    KeyValue(cfg, "mm.authorized_key", Hex(bytes));
    HexRoundTrip(bytes);
  }

  lemma SeedToken(cfg: InitConfig, bytes: seq<byte>)
    ensures Apply(cfg, "mm.random_seed" + "=" + Hex(bytes)) ==
            cfg.(randomSeed := if bytes == [] then None else Some(bytes))
  {
    KeyNames();
    KeyValue(cfg, "mm.random_seed", Hex(bytes));
    HexRoundTrip(bytes);
  }

  lemma ModeIsWord(argv: Option<seq<string>>)
    ensures Word(ModeToken(ArgvOption(argv)))
  {
    if argv.Some? {
      HexIsPlain(Utf8.Encode(Join(NUL, argv.value)));
      TokenIsWord("mm.workload_argv", EncodeArgv(argv.value));
    } else {
      GraphicWord("sandbox");
      TokenIsWord("mm.mode", "sandbox");
    }
  }

  lemma OptionIsWord(name: string, bytes: Option<seq<byte>>)
    requires Graphic(name)
    ensures forall t :: t in OptionToken(name, HexOption(bytes)) ==> Word(t)
  {
    if bytes.Some? {
      HexIsPlain(bytes.value);
      TokenIsWord(name, Hex(bytes.value));
    }
  }

  lemma TokensAreWords(ipParam: string, argv: Option<seq<string>>, key: Option<seq<byte>>, seed: Option<seq<byte>>)
    requires Word(ipParam)
    ensures forall t :: t in Tokens(ipParam, ArgvOption(argv), HexOption(key), HexOption(seed)) ==> Word(t)
  {
    FixedAreForeign();
    ModeIsWord(argv);
    OptionIsWord("mm.authorized_key", key);
    OptionIsWord("mm.random_seed", seed);
  }

  lemma WithFixed(ipParam: string)
    requires Word(ipParam) && ipParam[0] != 'm'
    ensures Configured(FIXED + [ipParam]) == DEFAULT
  {
    FixedAreForeign();
    ForeignTokens(FIXED);
    ConfiguredLast(FIXED, ipParam);
    ForeignToken(DEFAULT, ipParam);
  }

  lemma WithMode(tokens: seq<string>, argv: Option<seq<string>>)
    requires Configured(tokens) == DEFAULT
    requires argv.Some? ==> Carriable(argv.value)
    ensures Configured(tokens + [ModeToken(ArgvOption(argv))]) == Recovered(argv, None, None)
  {
    ConfiguredLast(tokens, ModeToken(ArgvOption(argv)));
    if argv.Some? { ArgvToken(argv.value); } else { SandboxToken(); }
  }

  lemma WithKey(tokens: seq<string>, argv: Option<seq<string>>, key: Option<seq<byte>>)
    requires Configured(tokens) == Recovered(argv, None, None)
    ensures Configured(tokens + OptionToken("mm.authorized_key", HexOption(key))) == Recovered(argv, key, None)
  {
    if key.Some? {
      ConfiguredLast(tokens, "mm.authorized_key" + "=" + Hex(key.value));
      KeyToken(Configured(tokens), key.value);
    } else {
      assert tokens + [] == tokens;
    }
  }

  lemma WithSeed(tokens: seq<string>, argv: Option<seq<string>>, key: Option<seq<byte>>, seed: Option<seq<byte>>)
    requires Configured(tokens) == Recovered(argv, key, None)
    ensures Configured(tokens + OptionToken("mm.random_seed", HexOption(seed))) == Recovered(argv, key, seed)
  {
    if seed.Some? {
      ConfiguredLast(tokens, "mm.random_seed" + "=" + Hex(seed.value));
      SeedToken(Configured(tokens), seed.value);
    } else {
      assert tokens + [] == tokens;
    }
  }

  lemma TokensConfigure(ipParam: string, argv: Option<seq<string>>, key: Option<seq<byte>>, seed: Option<seq<byte>>)
    requires Word(ipParam) && ipParam[0] != 'm'
    requires argv.Some? ==> Carriable(argv.value)
    ensures Configured(Tokens(ipParam, ArgvOption(argv), HexOption(key), HexOption(seed))) == Recovered(argv, key, seed)
  {
    WithFixed(ipParam);
    var tokens := FIXED + [ipParam];
    WithMode(tokens, argv);
    tokens := tokens + [ModeToken(ArgvOption(argv))];
    WithKey(tokens, argv, key);
    tokens := tokens + OptionToken("mm.authorized_key", HexOption(key));
    WithSeed(tokens, argv, key, seed);
  }

  // The whole channel: what the guest parses from the line the host built is what the host was
  // given. `argv` None is sandbox mode; a key that is not UTF-8 and an empty seed read as absent.
  lemma BootConfigRoundTrip(ip: Ipv4, gateway: Ipv4, mask: Ipv4, hostname: string,
                            argv: Option<seq<string>>, key: Option<seq<byte>>, seed: Option<seq<byte>>)
    requires NoWhite(hostname)
    requires argv.Some? ==> Carriable(argv.value)
    ensures var ipParam := IpParam(ip, gateway, mask, hostname);
            Configured(Words(Join(' ', Tokens(ipParam, ArgvOption(argv), HexOption(key), HexOption(seed)))))
            == Recovered(argv, key, seed)
  {
    var ipParam := IpParam(ip, gateway, mask, hostname);
    IpIsForeign(ip, gateway, mask, hostname);
    TokensAreWords(ipParam, argv, key, seed);
    WordsOfJoin(Tokens(ipParam, ArgvOption(argv), HexOption(key), HexOption(seed)));
    TokensConfigure(ipParam, argv, key, seed);
  }

  // Building on the host and parsing in the guest, end to end, with text for the key.
  method Boot(ip: Ipv4, gateway: Ipv4, mask: Ipv4, hostname: string, argv: seq<string>, key: string, seed: seq<byte>)
    returns (cfg: InitConfig)
    requires NoWhite(hostname)
    requires argv != [] && Carriable(argv) && seed != []
    ensures cfg == InitConfig(Some(argv[0]), argv[1..], Workload, None, Some(key), Some(seed))
  {
    var argvHex := HexEncode(Utf8.Encode(Join(NUL, argv)));
    var keyHex := HexEncode(Utf8.Encode(key));
    var seedHex := HexEncode(seed);
    var line := BuildCmdline(ip, gateway, mask, hostname, Some(argvHex), Some(keyHex), Some(seedHex));
    BootConfigRoundTrip(ip, gateway, mask, hostname, Some(argv), Some(Utf8.Encode(key)), Some(seed));
    Utf8.DecodeEncode(key);
    cfg := Parse(line);
  }
}
