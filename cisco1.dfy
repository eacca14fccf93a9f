/** The command generator of the earlier version. Fields are used exactly as
    typed: a field counts as given when it is non-empty (whitespace counts),
    nothing is stripped, and no address, clock rate or ASN is checked. There
    is no VLAN section. */
module Cisco1 {
  import opened PyStrings
  import opened ConfigRequest
  import Cisco2

  // ---------------------------------------------------------------------
  // The lines of each block, as functions of the raw fields
  // ---------------------------------------------------------------------

  /** The banner is always framed by `#`. */
  function BannerLines(banner: string): seq<string> {
    if banner != "" then ["banner motd #" + banner + "#"] else []
  }

  function LanLines(lan: LanInterface): seq<string> {
    if lan.name != "" && lan.ip != "" && lan.mask != "" then
      ["interface " + lan.name, "ip address " + lan.ip + " " + lan.mask, "no shutdown", "exit"]
    else []
  }

  function SerialLines(s: SerialInterface): seq<string> {
    if s.name != "" && s.ip != "" && s.mask != "" then
      ["interface " + s.name, "ip address " + s.ip + " " + s.mask]
      + (if s.clockRate != "" then ["clock rate " + s.clockRate] else [])
      + (if s.activate then ["no shutdown"] else [])
      + ["exit"]
    else []
  }

  function SshLines(s: Ssh): seq<string> {
    if s.domain != "" && s.username != "" && s.password != "" then
      ["ip domain-name " + s.domain, "username " + s.username + " password " + s.password]
      + Cisco2.SshTail
    else []
  }

  function ResetLines(iface: string): seq<string> {
    if iface != "" then ["interface " + iface, "shutdown", "no ip address", "no clock rate", "exit"] else []
  }

  /** The pool sub-lines carry a leading space. */
  function PoolLines(d: Dhcp): seq<string> {
    ["ip dhcp pool " + d.pool, " network " + d.network + " " + d.mask, " default-router " + d.gateway]
  }

  function DhcpLines(d: Dhcp): seq<string> {
    if d.pool != "" && d.network != "" && d.mask != "" && d.gateway != "" then
      (if d.rangeStart != "" && d.rangeEnd != "" then ["ip dhcp excluded-address " + d.rangeStart + " " + d.rangeEnd] else [])
      + PoolLines(d)
    else []
  }

  function RoutingLines(r: Routing): seq<string> {
    if r.protocol == "rip" && r.network != "" then Cisco2.RipLines(r.network)
    else if r.protocol == "ospf" && r.network != "" && r.wildcard != "" && r.area != "" then
      Cisco2.OspfLines(r.network, r.wildcard, r.area)
    else if r.protocol == "eigrp" && r.network != "" && r.asn != "" then Cisco2.EigrpLines(r.asn, r.network)
    else []
  }

  /** Basic configuration: hostname, enable secret, console, banner. */
  function IdentityBlock(id: Identity): seq<string> {
    Cisco2.HostnameLines(id.hostname) + Cisco2.EnableLines(id.enablePassword)
    + Cisco2.ConsoleLines(id.consolePassword) + BannerLines(id.banner)
  }

  /** `generar_comandos`: the blocks in the order in which the source appends
      them, SSH before the interface reset. */
  function Commands(req: Request): seq<string> {
    Cisco2.Prologue + IdentityBlock(req.identity)
    + LanLines(req.lan) + SerialLines(req.serial) + SshLines(req.ssh)
    + ResetLines(req.resetInterface) + DhcpLines(req.dhcp) + RoutingLines(req.routing)
    + Cisco2.Epilogue
  }

  // ---------------------------------------------------------------------
  // The generator, growing its list step by step as the source does. The
  // source writes it as one function; here each of its commented sections
  // is a method that appends to the list handed to it.
  // ---------------------------------------------------------------------

  /** Basic configuration: hostname, enable secret, console, banner. */
  method AppendIdentity(before: seq<string>, id: Identity) returns (cmds: seq<string>)
    ensures cmds == before + IdentityBlock(id)
  {
    cmds := before;
    if id.hostname != "" {
      cmds := cmds + ["hostname " + id.hostname];
    }
    assert cmds == before + Cisco2.HostnameLines(id.hostname);
    if id.enablePassword != "" {
      cmds := cmds + ["enable secret " + id.enablePassword];
    }
    assert cmds == before + Cisco2.HostnameLines(id.hostname) + Cisco2.EnableLines(id.enablePassword);
    if id.consolePassword != "" {
      cmds := cmds + ["line console 0", "password " + id.consolePassword, "login", "exit"];
    }
    assert cmds == before + Cisco2.HostnameLines(id.hostname) + Cisco2.EnableLines(id.enablePassword) + Cisco2.ConsoleLines(id.consolePassword);
    if id.banner != "" {
      cmds := cmds + ["banner motd #" + id.banner + "#"];
    }
    Cisco2.Regroup4(before, Cisco2.HostnameLines(id.hostname), Cisco2.EnableLines(id.enablePassword),
      Cisco2.ConsoleLines(id.consolePassword), BannerLines(id.banner));
  }

  /** Basic configuration: the LAN interface. */
  method AppendLan(before: seq<string>, lan: LanInterface) returns (cmds: seq<string>)
    ensures cmds == before + LanLines(lan)
  {
    cmds := before;
    if lan.name != "" && lan.ip != "" && lan.mask != "" {
      cmds := cmds + ["interface " + lan.name, "ip address " + lan.ip + " " + lan.mask, "no shutdown", "exit"];
    }
  }

  method AppendSerial(before: seq<string>, s: SerialInterface) returns (cmds: seq<string>)
    ensures cmds == before + SerialLines(s)
  {
    cmds := before;
    if s.name != "" && s.ip != "" && s.mask != "" {
      var first := ["interface " + s.name, "ip address " + s.ip + " " + s.mask];
      cmds := cmds + first;
      var clock := if s.clockRate != "" then ["clock rate " + s.clockRate] else [];
      if s.clockRate != "" {
        cmds := cmds + ["clock rate " + s.clockRate];
      }
      assert cmds == before + first + clock;
      var up := if s.activate then ["no shutdown"] else [];
      if s.activate {
        cmds := cmds + ["no shutdown"];
      }
      assert cmds == before + first + clock + up;
      cmds := cmds + ["exit"];
      Cisco2.Regroup4(before, first, clock, up, ["exit"]);
    }
  }

  method AppendSsh(before: seq<string>, ssh: Ssh) returns (cmds: seq<string>)
    ensures cmds == before + SshLines(ssh)
  {
    cmds := before;
    if ssh.domain != "" && ssh.username != "" && ssh.password != "" {
      cmds := cmds + ["ip domain-name " + ssh.domain, "username " + ssh.username + " password " + ssh.password,
                      "crypto key generate rsa", "1024"];
      cmds := cmds + ["line vty 0 4", "transport input ssh", "login local", "exit"];
    }
  }

  method AppendReset(before: seq<string>, iface: string) returns (cmds: seq<string>)
    ensures cmds == before + ResetLines(iface)
  {
    cmds := before;
    if iface != "" {
      cmds := cmds + ["interface " + iface, "shutdown", "no ip address", "no clock rate", "exit"];
    }
  }

  method AppendDhcp(before: seq<string>, d: Dhcp) returns (cmds: seq<string>)
    ensures cmds == before + DhcpLines(d)
  {
    cmds := before;
    if d.pool != "" && d.network != "" && d.mask != "" && d.gateway != "" {
      var range := if d.rangeStart != "" && d.rangeEnd != "" then ["ip dhcp excluded-address " + d.rangeStart + " " + d.rangeEnd] else [];
      if d.rangeStart != "" && d.rangeEnd != "" {
        cmds := cmds + ["ip dhcp excluded-address " + d.rangeStart + " " + d.rangeEnd];
      }
      assert cmds == before + range;
      cmds := cmds + ["ip dhcp pool " + d.pool, " network " + d.network + " " + d.mask, " default-router " + d.gateway];
    }
  }

  method AppendRouting(before: seq<string>, r: Routing) returns (cmds: seq<string>)
    ensures cmds == before + RoutingLines(r)
  {
    cmds := before;
    if r.protocol == "rip" && r.network != "" {
      cmds := cmds + ["router rip", "version 2", "network " + r.network, "exit"];
    } else if r.protocol == "ospf" && r.network != "" && r.wildcard != "" && r.area != "" {
      cmds := cmds + ["router ospf 1", "network " + r.network + " " + r.wildcard + " area " + r.area, "exit"];
    } else if r.protocol == "eigrp" && r.network != "" && r.asn != "" {
      cmds := cmds + ["router eigrp " + r.asn, "network " + r.network, "exit"];
    }
  }

  /** `generar_comandos`. */
  method GenerateCommands(req: Request) returns (cmds: seq<string>)
    ensures cmds == Commands(req)
  {
    cmds := ["enable", "configure terminal"];
    cmds := AppendIdentity(cmds, req.identity);
    cmds := AppendLan(cmds, req.lan);
    cmds := AppendSerial(cmds, req.serial);
    cmds := AppendSsh(cmds, req.ssh);
    cmds := AppendReset(cmds, req.resetInterface);
    cmds := AppendDhcp(cmds, req.dhcp);
    cmds := AppendRouting(cmds, req.routing);
    cmds := cmds + ["exit", "write memory"];
  }

  // ---------------------------------------------------------------------
  // Properties
  // ---------------------------------------------------------------------

  /** The frame of a command list, on the blocks as plain sequences. */
  lemma Framed(a: seq<string>, b: seq<string>, c: seq<string>, d: seq<string>, e: seq<string>,
               f: seq<string>, g: seq<string>)
    ensures var r := Cisco2.Prologue + a + b + c + d + e + f + g + Cisco2.Epilogue;
      |r| >= 4 && r[..2] == Cisco2.Prologue && r[|r| - 2..] == Cisco2.Epilogue
  {
    var r := Cisco2.Prologue + a + b + c + d + e + f + g + Cisco2.Epilogue;
    var body := a + b + c + d + e + f + g;
    assert r == Cisco2.Prologue + body + Cisco2.Epilogue;
  }

  /** Every output opens with `enable` / `configure terminal` and closes with
      `exit` / `write memory`. */
  lemma CommandsFrame(req: Request)
    ensures var r := Commands(req);
      |r| >= 4 && r[..2] == Cisco2.Prologue && r[|r| - 2..] == Cisco2.Epilogue
  {
    Framed(IdentityBlock(req.identity), LanLines(req.lan), SerialLines(req.serial), SshLines(req.ssh),
      ResetLines(req.resetInterface), DhcpLines(req.dhcp), RoutingLines(req.routing));
  }

  /** Every text field empty; the protocol choice and the check box may hold
      anything. */
  predicate AllEmpty(req: Request) {
    && req.identity == Identity("", "", "", "")
    && req.lan == LanInterface("", "", "")
    && req.serial.name == "" && req.serial.ip == "" && req.serial.mask == "" && req.serial.clockRate == ""
    && req.ssh == Ssh("", "", "")
    && req.resetInterface == ""
    && req.dhcp == Dhcp("", "", "", "", "", "")
    && req.routing.network == "" && req.routing.wildcard == "" && req.routing.area == "" && req.routing.asn == ""
  }

  /** With every text field empty, whatever the protocol choice and the check
      box, only the four frame lines remain. */
  lemma {:induction false} EmptyFieldsCommands(req: Request)
    requires AllEmpty(req)
    ensures Commands(req) == ["enable", "configure terminal", "exit", "write memory"]
  {
  }

  /** A non-empty banner is framed by `#` whatever it contains, `#` included;
      the text between the delimiters is the banner as typed. */
  lemma {:induction false} BannerAlwaysHash(banner: string)
    requires banner != ""
    ensures var line := BannerLines(banner)[0];
      && |BannerLines(banner)| == 1
      && line[..12] == "banner motd "
      && line[12] == '#' && line[|line| - 1] == '#'
      && line[13..|line| - 1] == banner
  {
    var line := "banner motd #" + banner + "#";
    assert line == "banner motd " + ("#" + banner + "#");
    assert line[12..] == "#" + banner + "#";
  }

  /** The same banner text is framed differently by the two versions when it
      has no `$`. */
  lemma BannerVersionsDiffer()
    ensures BannerLines("Hi") == ["banner motd #Hi#"]
    ensures Cisco2.IdentityLines(Identity("", "", "", "Hi")) == ["banner motd $Hi$"]
  {
    assert "banner motd #" + "Hi" + "#" == "banner motd #Hi#";
    StripTrimmed("");
    StripTrimmed("Hi");
    assert '$' !in "Hi";
    assert Cisco2.BannerLine("Hi") == "banner motd $Hi$";
  }

  /** A whitespace-only hostname counts as given and is emitted verbatim. */
  lemma {:induction false} HostnameVerbatim(req: Request)
    requires req.identity.hostname != ""
    ensures Commands(req)[2] == "hostname " + req.identity.hostname
  {
  }

  /** So the blank-hostname form yields five lines here, four in the current
      version. */
  lemma BlankHostnameVersions(validIp: string -> bool)
    ensures |Commands(EmptyRequest().(identity := Identity(" ", "", "", "")))| == 5
    ensures Commands(EmptyRequest().(identity := Identity(" ", "", "", "")))[2] == "hostname  "
    ensures |Cisco2.Commands(EmptyRequest().(identity := Identity(" ", "", "", "")), [], validIp)| == 4
  {
    var req := EmptyRequest().(identity := Identity(" ", "", "", ""));
    assert "hostname " + " " == "hostname  ";
    assert Cisco2.HostnameLines(" ") == ["hostname  "];
    assert Commands(req) == Cisco2.Prologue + ["hostname  "] + Cisco2.Epilogue;
    assert Commands(req) == ["enable", "configure terminal", "hostname  ", "exit", "write memory"];
    assert Cisco2.Blank(req);
    Cisco2.BlankRequestCommands(req, validIp);
  }

  /** The LAN block is emitted whenever name, address and mask are
      non-empty; nothing about the address is checked. */
  lemma {:induction false} LanBlockShape(lan: LanInterface)
    ensures var r := LanLines(lan);
      && (r != [] <==> lan.name != "" && lan.ip != "" && lan.mask != "")
      && (r != [] ==> r == ["interface " + lan.name, "ip address " + lan.ip + " " + lan.mask, "no shutdown", "exit"])
  {
  }

  /** Any non-empty text is accepted as an address, a string that is no
      address at all included. */
  lemma LanAcceptsAnyAddress()
    ensures LanLines(LanInterface("g0/0", "not-an-ip", "x")) != []
  {
  }

  /** The serial block: nothing unless name, address and mask are non-empty;
      otherwise the interface and address lines, `clock rate` exactly when
      the rate is non-empty (no digit check), `no shutdown` exactly when the
      box is ticked, and `exit`. */
  lemma {:induction false} SerialBlockShape(s: SerialInterface)
    ensures var r := SerialLines(s);
      && (r != [] <==> s.name != "" && s.ip != "" && s.mask != "")
      && (r != [] ==>
          && |r| == 3 + (if s.clockRate != "" then 1 else 0) + (if s.activate then 1 else 0)
          && r[0] == "interface " + s.name
          && r[1] == "ip address " + s.ip + " " + s.mask
          && r[|r| - 1] == "exit"
          && (("clock rate " + s.clockRate) in r <==> s.clockRate != "")
          && ("no shutdown" in r <==> s.activate))
  {
    var r := SerialLines(s);
    if r != [] {
      var clock := "clock rate " + s.clockRate;
      Cisco2.DifferentStart("c", "lock rate " + s.clockRate, "i", "nterface " + s.name);
      Cisco2.DifferentStart("c", "lock rate " + s.clockRate, "i", "p address " + s.ip + " " + s.mask);
      assert clock == "c" + ("lock rate " + s.clockRate);
      assert "interface " + s.name == "i" + ("nterface " + s.name);
      assert "ip address " + s.ip + " " + s.mask == "i" + ("p address " + s.ip + " " + s.mask);
      assert clock != "no shutdown" && clock != "exit" by { assert clock[0] == 'c'; }
      assert "no shutdown" != r[0] && "no shutdown" != r[1] by { assert r[0][0] == 'i' && r[1][0] == 'i'; }
    }
  }

  /** The SSH block directly precedes the interface reset block, both right
      after the serial block. */
  lemma {:induction false} SshThenReset(req: Request)
    ensures var r, k := Commands(req), 2 + |IdentityBlock(req.identity)| + |LanLines(req.lan)| + |SerialLines(req.serial)|;
      var s, z := SshLines(req.ssh), ResetLines(req.resetInterface);
      k + |s| + |z| <= |r| && r[k..k + |s|] == s && r[k + |s|..k + |s| + |z|] == z
  {
    Adjacent(Commands(req), IdentityBlock(req.identity), LanLines(req.lan), SerialLines(req.serial), SshLines(req.ssh),
      ResetLines(req.resetInterface), DhcpLines(req.dhcp), RoutingLines(req.routing));
  }

  /** In the flat concatenation, the fourth and fifth pieces sit side by
      side after the prologue and the three pieces before them. */
  lemma Adjacent(r: seq<string>, a: seq<string>, b: seq<string>, c: seq<string>, d: seq<string>, e: seq<string>,
                 f: seq<string>, g: seq<string>)
    requires r == Cisco2.Prologue + a + b + c + d + e + f + g + Cisco2.Epilogue
    ensures var k := 2 + |a| + |b| + |c|;
      k + |d| + |e| <= |r| && r[k..k + |d|] == d && r[k + |d|..k + |d| + |e|] == e
  {
    var front := Cisco2.Prologue + a + b + c;
    assert r == front + d + e + (f + g + Cisco2.Epilogue);
  }

  /** DHCP: nothing unless pool, network, mask and gateway are non-empty;
      otherwise the pool lines, whose sub-lines start with a space, preceded
      by the excluded range exactly when both of its ends are non-empty. */
  lemma {:induction false} DhcpBlockShape(d: Dhcp)
    ensures var r := DhcpLines(d);
      && (r != [] <==> d.pool != "" && d.network != "" && d.mask != "" && d.gateway != "")
      && (r != [] ==>
          && r[|r| - 3..] == PoolLines(d)
          && r[|r| - 2][0] == ' ' && r[|r| - 1][0] == ' '
          && (|r| == 4 <==> d.rangeStart != "" && d.rangeEnd != "")
          && (|r| == 4 ==> r[0] == "ip dhcp excluded-address " + d.rangeStart + " " + d.rangeEnd)
          && (|r| == 3 || |r| == 4))
  {
  }

  /** EIGRP is emitted for any non-empty ASN, digits or not. */
  lemma {:induction false} EigrpAnyAsn(r: Routing)
    requires r.protocol == "eigrp" && r.network != "" && r.asn != ""
    ensures RoutingLines(r) == ["router eigrp " + r.asn, "network " + r.network, "exit"]
  {
  }

  /** The ASN `abc` that the current version refuses is emitted here. */
  lemma EigrpAsnVersions()
    ensures RoutingLines(Routing("eigrp", "10.0.0.0", "", "", "abc")) == ["router eigrp abc", "network 10.0.0.0", "exit"]
    ensures Cisco2.RoutingLines(Routing("eigrp", "10.0.0.0", "", "", "abc")) == []
  {
    Cisco2.EigrpAsnExamples();
    assert "router eigrp " + "abc" == "router eigrp abc";
    assert "network " + "10.0.0.0" == "network 10.0.0.0";
  }

  /** Routing emits exactly one of the three blocks when its condition holds,
      first match winning, and nothing otherwise. */
  lemma {:induction false} RoutingChoice(r: Routing)
    ensures var out := RoutingLines(r);
      && (out == Cisco2.RipLines(r.network) <==> r.protocol == "rip" && r.network != "")
      && (out == Cisco2.OspfLines(r.network, r.wildcard, r.area) <==>
            r.protocol == "ospf" && r.network != "" && r.wildcard != "" && r.area != "")
      && (out == Cisco2.EigrpLines(r.asn, r.network) <==>
            r.protocol == "eigrp" && r.network != "" && r.asn != "")
      && (out == [] <==>
            !((r.protocol == "rip" && r.network != "")
              || (r.protocol == "ospf" && r.network != "" && r.wildcard != "" && r.area != "")
              || (r.protocol == "eigrp" && r.network != "" && r.asn != "")))
  {
    assert Cisco2.RipLines(r.network) != Cisco2.OspfLines(r.network, r.wildcard, r.area);
    assert Cisco2.RipLines(r.network) != Cisco2.EigrpLines(r.asn, r.network);
    assert Cisco2.OspfLines(r.network, r.wildcard, r.area)[0] != Cisco2.EigrpLines(r.asn, r.network)[0] by {
      assert "router ospf 1"[7] == 'o';
      assert ("router eigrp " + r.asn)[7] == 'e';
    }
  }

  // ---------------------------------------------------------------------
  // Where the two versions agree
  // ---------------------------------------------------------------------

  /** The text is already stripped. */
  predicate Trimmed(s: string) {
    Strip(s) == s
  }

  /** On stripped fields and an address that passes, the two LAN blocks are
      the same. */
  lemma {:induction false} LanVersionsAgree(lan: LanInterface, validIp: string -> bool)
    requires Trimmed(lan.name) && Trimmed(lan.ip) && Trimmed(lan.mask)
    requires lan.ip != "" ==> validIp(lan.ip)
    ensures LanLines(lan) == Cisco2.LanLines(lan, validIp)
  {
  }

  /** On stripped fields, a passing address and a rate that is either absent
      or all digits, the two serial blocks are the same. */
  lemma {:induction false} SerialVersionsAgree(s: SerialInterface, validIp: string -> bool)
    requires Trimmed(s.name) && Trimmed(s.ip) && Trimmed(s.mask) && Trimmed(s.clockRate)
    requires s.ip != "" ==> validIp(s.ip)
    requires s.clockRate == "" || IsDigits(s.clockRate)
    ensures SerialLines(s) == Cisco2.SerialLines(s, validIp)
  {
  }

  /** On stripped fields the two SSH blocks are the same. */
  lemma {:induction false} SshVersionsAgree(s: Ssh)
    requires Trimmed(s.domain) && Trimmed(s.username) && Trimmed(s.password)
    ensures SshLines(s) == Cisco2.SshLines(s)
  {
  }

  /** The DHCP blocks never agree once the pool is configured: the earlier
      sub-lines start with a space. */
  lemma {:induction false} DhcpVersionsDiffer(d: Dhcp, validIp: string -> bool)
    requires Trimmed(d.pool) && Trimmed(d.network) && Trimmed(d.mask) && Trimmed(d.gateway)
    ensures DhcpLines(d) == Cisco2.DhcpLines(d, validIp) <==>
      !(d.pool != "" && d.network != "" && d.mask != "" && d.gateway != "")
  {
    var a, b := DhcpLines(d), Cisco2.DhcpLines(d, validIp);
    if a != [] {
      assert a[|a| - 1][0] == ' ';
      assert b[|b| - 1][0] == 'd';
    }
  }

  /** On stripped fields and an ASN that is absent or all digits, the two
      routing blocks are the same. */
  lemma {:induction false} RoutingVersionsAgree(r: Routing)
    requires Trimmed(r.network) && Trimmed(r.wildcard) && Trimmed(r.area) && Trimmed(r.asn)
    requires r.asn == "" || IsDigits(r.asn)
    ensures RoutingLines(r) == Cisco2.RoutingLines(r)
  {
  }
}
