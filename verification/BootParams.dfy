// The rest of what travels on the command line: the static address the kernel reads, field by field, and what
// each directive does for whoever writes it by hand.
module BootParams {
  import opened Prelude
  import opened Cmdline

  // --- the kernel's static address --------------------------------------------------------------

  lemma CutAt<T>(sep: T, a: seq<T>, i: nat, b: seq<T>)
    requires i < |a| && a[i] == sep
    ensures a + [sep] + b == a[..i] + [sep] + (a[i + 1..] + [sep] + b)
  {
  }

  lemma {:induction false} SplitBoth<T>(sep: T, a: seq<T>, b: seq<T>)
    ensures Split(sep, a + [sep] + b) == Split(sep, a) + Split(sep, b)
    decreases |a|
  {
    var i := IndexOf(a, sep);
    if i == |a| {
      assert a[..i] == a;
      SplitAt(sep, a, b);
    } else {
      var rest := a[i + 1..];
      CutAt(sep, a, i, b);
      SplitAt(sep, a[..i], rest + [sep] + b);
      SplitBoth(sep, rest, b);
    }
  }

  lemma SplitWhole<T>(sep: T, s: seq<T>)
    ensures Split(sep, s) == [s] <==> sep !in s
    ensures |Split(sep, s)| == 1 <==> sep !in s
  {
    var i := IndexOf(s, sep);
    if i == |s| {
      assert s[..i] == s;
    } else {
      assert s[i] in s;
      SplitSome(sep, s[i + 1..]);
    }
  }

  lemma SplitSome<T>(sep: T, s: seq<T>)
    ensures |Split(sep, s)| >= 1
  {
  }

  lemma {:induction false} DigitsAreDigits(n: nat)
    ensures forall c :: c in Digits(n) ==> '0' <= c <= '9'
  {
    if n >= 10 { DigitsAreDigits(n / 10); }
  }

  // Four decimal numbers below 256 between dots.
  function Address(s: string): Option<Ipv4>
  {
    var parts := Split('.', s);
    if |parts| != 4 then None
    else
      var a, b, c, d := Decimal(parts[0]), Decimal(parts[1]), Decimal(parts[2]), Decimal(parts[3]);
      if a.None? || b.None? || c.None? || d.None? then None
      else if a.value >= 256 || b.value >= 256 || c.value >= 256 || d.value >= 256 then None
      else Some(Ipv4(a.value as byte, b.value as byte, c.value as byte, d.value as byte))
  }

  lemma FourParts(a: string, b: string, c: string, d: string)
    requires '.' !in a && '.' !in b && '.' !in c && '.' !in d
    ensures Split('.', a + "." + b + "." + c + "." + d) == [a, b, c, d]
  {
    SplitWhole('.', a);
    SplitAppend('.', a, b);
    SplitAppend('.', a + "." + b, c);
    SplitAppend('.', a + "." + b + "." + c, d);
  }

  lemma NoMarks(n: nat)
    ensures '.' !in Digits(n) && ':' !in Digits(n)
  {
    DigitsAreDigits(n);
  }

  lemma DottedParts(x: Ipv4)
    ensures Split('.', Dotted(x)) == [Digits(x.a as nat), Digits(x.b as nat), Digits(x.c as nat), Digits(x.d as nat)]
    ensures ':' !in Dotted(x)
  {
    NoMarks(x.a as nat);
    NoMarks(x.b as nat);
    NoMarks(x.c as nat);
    NoMarks(x.d as nat);
    FourParts(Digits(x.a as nat), Digits(x.b as nat), Digits(x.c as nat), Digits(x.d as nat));
  }

  lemma DottedRoundTrip(x: Ipv4)
    ensures Address(Dotted(x)) == Some(x)
  {
    DottedParts(x);
    DecimalDigits(x.a as nat);
    DecimalDigits(x.b as nat);
    DecimalDigits(x.c as nat);
    DecimalDigits(x.d as nat);
  }

  lemma Colons(a: string, g: string, m: string, h: string)
    ensures a + "::" + g + ":" + m + ":" + h + ":eth0:off" ==
            a + ":" + "" + ":" + g + ":" + m + ":" + h + ":" + "eth0" + ":" + "off"
  {
  }

  lemma FourFields(a: string, g: string, m: string)
    requires ':' !in a && ':' !in g && ':' !in m
    ensures Split(':', a + ":" + "" + ":" + g + ":" + m) == [a, "", g, m]
  {
    SplitWhole(':', a);
    SplitAppend(':', a, "");
    SplitAppend(':', a + ":" + "", g);
    SplitAppend(':', a + ":" + "" + ":" + g, m);
  }

  lemma AllFields(front: string, h: string)
    ensures Split(':', front + ":" + h + ":" + "eth0" + ":" + "off") ==
            Split(':', front) + Split(':', h) + ["eth0"] + ["off"]
  {
    SplitBoth(':', front, h);
    SplitAppend(':', front + ":" + h, "eth0");
    SplitAppend(':', front + ":" + h + ":" + "eth0", "off");
  }

  lemma BehindThePrefix(s: string)
    ensures ("ip=" + s)[3..] == s
  {
  }

  lemma SevenFields(front: seq<string>, names: seq<string>)
    requires |front| == 4
    ensures var fields := front + names + ["eth0"] + ["off"];
            (|fields| == 7 <==> |names| == 1) && (|names| == 1 ==> fields[4] == names[0])
  {
  }

  // The parameter's fields are, in the kernel's order, the client, no server, the gateway, the mask, the host
  // name, the interface and no autoconfiguration; and they are these seven exactly if the host name has no
  // colon.
  lemma IpParamFields(ip: Ipv4, gateway: Ipv4, mask: Ipv4, hostname: string)
    ensures var param := IpParam(ip, gateway, mask, hostname);
            && param == "ip=" + param[3..]
            && var fields := Split(':', param[3..]);
               && fields == [Dotted(ip), "", Dotted(gateway), Dotted(mask)] + Split(':', hostname) + ["eth0"] + ["off"]
               && (|fields| == 7 <==> ':' !in hostname) && (':' !in hostname ==> fields[4] == hostname)
  {
    var a, g, m := Dotted(ip), Dotted(gateway), Dotted(mask);
    DottedParts(ip);
    DottedParts(gateway);
    DottedParts(mask);
    Colons(a, g, m, hostname);
    FourFields(a, g, m);
    AllFields(a + ":" + "" + ":" + g + ":" + m, hostname);
    BehindThePrefix(a + "::" + g + ":" + m + ":" + hostname + ":eth0:off");
    SplitWhole(':', hostname);
    SevenFields([a, "", g, m], Split(':', hostname));
  }

  // --- the fixed part ---------------------------------------------------------------------------------

  lemma JoinFour(a: string, b: string, c: string, d: string)
    ensures Join(' ', [a, b, c, d]) == a + " " + b + " " + c + " " + d
  {
    assert [a] + [b] == [a, b] && [a, b] + [c] == [a, b, c] && [a, b, c] + [d] == [a, b, c, d];
    JoinAppend([a], b);
    JoinAppend([a, b], c);
    JoinAppend([a, b, c], d);
  }

  lemma JoinEight(a: string, b: string, c: string, d: string, e: string, f: string, g: string, h: string)
    ensures Join(' ', [a, b, c, d, e, f, g, h]) ==
            a + " " + b + " " + c + " " + d + " " + e + " " + f + " " + g + " " + h
  {
    JoinFour(a, b, c, d);
    var four := [a, b, c, d];
    JoinAppend(four, e);
    JoinAppend(four + [e], f);
    JoinAppend(four + [e] + [f], g);
    JoinAppend(four + [e] + [f] + [g], h);
    assert [a, b, c, d, e, f, g, h] == four + [e] + [f] + [g] + [h];
  }

  // What every guest boots with, in front of the rest.
  lemma FixedText()
    ensures Join(' ', FIXED) == "console=ttyS0" + " " + "root=/dev/vda" + " " + "ro" + " " + "init=/init" + " " +
                                "reboot=t" + " " + "panic=1" + " " + "pci=off" + " " + "8250.nr_uarts=1"
  {
    JoinEight("console=ttyS0", "root=/dev/vda", "ro", "init=/init", "reboot=t", "panic=1", "pci=off",
              "8250.nr_uarts=1");
  }

  // --- the directives ------------------------------------------------------------------------------

  lemma Directive(before: seq<string>, name: string, value: string)
    requires '=' !in name
    ensures Configured(before + [name + "=" + value]) == Assign(Configured(before), KeyOf(name), value)
  {
    ConfiguredLast(before, name + "=" + value);
    KeyValue(Configured(before), name, value);
  }

  // What each directive sets, after any others: the last of a kind counts.
  lemma WorkloadDirective(before: seq<string>, value: string)
    ensures Configured(before + ["mm.workload" + "=" + value]) == Configured(before).(workload := Some(value))
  {
    Directive(before, "mm.workload", value);
  }

  lemma ArgsDirective(before: seq<string>, args: seq<string>)
    requires args != [] && forall a :: a in args ==> a != [] && ',' !in a
    ensures Configured(before + ["mm.args" + "=" + Join(',', args)]) == Configured(before).(args := args)
  {
    Directive(before, "mm.args", Join(',', args));
    ArgsRoundTrip(args);
  }

  const PORT_NAME := "mm.vsock_boot_port"

  // The name differs from every other in length.
  lemma PortName()
    ensures |PORT_NAME| == 18 && KeyOf(PORT_NAME) == PortKey && '=' !in PORT_NAME
  {
  }

  lemma PortValue(cfg: InitConfig, port: nat)
    ensures Assign(cfg, PortKey, Digits(port)) ==
            cfg.(vsockBootPort := if port < 0x1_0000_0000 then Some(port) else None)
  {
    PortRoundTrip(port);
  }

  lemma PortDirective(before: seq<string>, port: nat)
    ensures Configured(before + [PORT_NAME + "=" + Digits(port)]) ==
            Configured(before).(vsockBootPort := if port < 0x1_0000_0000 then Some(port) else None)
  {
    PortName();
    Directive(before, PORT_NAME, Digits(port));
    PortValue(Configured(before), port);
  }

  lemma ModeDirective(before: seq<string>, value: string)
    ensures Configured(before + ["mm.mode" + "=" + value]) ==
            if value == "sandbox" then Configured(before).(mode := Sandbox) else Configured(before)
  {
    KeyNames();
    Directive(before, "mm.mode", value);
  }
}
