/** The command generator of the current version. The form's text fields
    are stripped before they are tested or emitted, except the routing
    protocol, which is compared as it is, and the fields of the VLAN rows,
    which are emitted as they were stored. The library-backed address check
    (`validar_ip`, which wraps `ipaddress.ip_address`) is the parameter
    `validIp`: nothing here depends on how it decides. */
module Cisco2 {
  import opened PyStrings
  import opened ConfigRequest
  import VlanTable

  const Prologue: seq<string> := ["enable", "configure terminal"]
  const Epilogue: seq<string> := ["exit", "write memory"]

  // ---------------------------------------------------------------------
  // The lines of each block, as functions of the request
  // ---------------------------------------------------------------------

  /** The banner is framed by `$`, or by `#` when the text holds a `$`. */
  function BannerDelimiter(banner: string): char {
    if '$' !in banner then '$' else '#'
  }

  function BannerLine(banner: string): string {
    var d := BannerDelimiter(banner);
    "banner motd " + [d] + banner + [d]
  }

  /** Each identity line is emitted when its stripped text is non-empty. */
  function HostnameLines(hostname: string): seq<string> {
    if hostname != "" then ["hostname " + hostname] else []
  }

  function EnableLines(enable: string): seq<string> {
    if enable != "" then ["enable secret " + enable] else []
  }

  function ConsoleLines(console: string): seq<string> {
    if console != "" then ["line console 0", "password " + console, "login", "exit"] else []
  }

  function BannerLines(banner: string): seq<string> {
    if banner != "" then [BannerLine(banner)] else []
  }

  function IdentityLines(id: Identity): seq<string> {
    HostnameLines(Strip(id.hostname)) + EnableLines(Strip(id.enablePassword))
    + ConsoleLines(Strip(id.consolePassword)) + BannerLines(Strip(id.banner))
  }

  /** The LAN interface is configured when name, address and mask are all
      given and the address passes the check; the mask is not checked. */
  predicate LanApplies(lan: LanInterface, validIp: string -> bool) {
    Strip(lan.name) != "" && Strip(lan.ip) != "" && Strip(lan.mask) != "" && validIp(Strip(lan.ip))
  }

  function LanLines(lan: LanInterface, validIp: string -> bool): seq<string> {
    if LanApplies(lan, validIp) then
      ["interface " + Strip(lan.name), "ip address " + Strip(lan.ip) + " " + Strip(lan.mask), "no shutdown", "exit"]
    else []
  }

  function ResetLines(iface: string): seq<string> {
    var name := Strip(iface);
    if name != "" then ["interface " + name, "shutdown", "no ip address", "no clock rate", "exit"] else []
  }

  /** `generar_comandos_basicos`: prologue, identity, LAN, interface reset. */
  function BasicLines(req: Request, validIp: string -> bool): seq<string> {
    Prologue + IdentityLines(req.identity) + LanLines(req.lan, validIp) + ResetLines(req.resetInterface)
  }

  predicate SerialApplies(s: SerialInterface, validIp: string -> bool) {
    Strip(s.name) != "" && Strip(s.ip) != "" && Strip(s.mask) != "" && validIp(Strip(s.ip))
  }

  function SerialLines(s: SerialInterface, validIp: string -> bool): seq<string> {
    if SerialApplies(s, validIp) then
      var rate := Strip(s.clockRate);
      ["interface " + Strip(s.name), "ip address " + Strip(s.ip) + " " + Strip(s.mask)]
      + (if rate != "" && IsDigits(rate) then ["clock rate " + rate] else [])
      + (if s.activate then ["no shutdown"] else [])
      + ["exit"]
    else []
  }

  predicate SshApplies(s: Ssh) {
    Strip(s.domain) != "" && Strip(s.username) != "" && Strip(s.password) != ""
  }

  const SshTail: seq<string> :=
    ["crypto key generate rsa", "1024", "line vty 0 4", "transport input ssh", "login local", "exit"]

  function SshLines(s: Ssh): seq<string> {
    if SshApplies(s) then
      ["ip domain-name " + Strip(s.domain), "username " + Strip(s.username) + " password " + Strip(s.password)]
      + SshTail
    else []
  }

  predicate DhcpApplies(d: Dhcp) {
    Strip(d.pool) != "" && Strip(d.network) != "" && Strip(d.mask) != "" && Strip(d.gateway) != ""
  }

  /** The excluded range is emitted only when both ends are given and both
      pass the address check. */
  predicate RangeApplies(d: Dhcp, validIp: string -> bool) {
    Strip(d.rangeStart) != "" && Strip(d.rangeEnd) != "" && validIp(Strip(d.rangeStart)) && validIp(Strip(d.rangeEnd))
  }

  function PoolLines(d: Dhcp): seq<string> {
    ["ip dhcp pool " + Strip(d.pool), "network " + Strip(d.network) + " " + Strip(d.mask), "default-router " + Strip(d.gateway)]
  }

  function DhcpLines(d: Dhcp, validIp: string -> bool): seq<string> {
    if DhcpApplies(d) then
      (if RangeApplies(d, validIp) then ["ip dhcp excluded-address " + Strip(d.rangeStart) + " " + Strip(d.rangeEnd)] else [])
      + PoolLines(d)
    else []
  }

  function RipLines(network: string): seq<string> {
    ["router rip", "version 2", "network " + network, "exit"]
  }

  function OspfLines(network: string, wildcard: string, area: string): seq<string> {
    ["router ospf 1", "network " + network + " " + wildcard + " area " + area, "exit"]
  }

  function EigrpLines(asn: string, network: string): seq<string> {
    ["router eigrp " + asn, "network " + network, "exit"]
  }

  /** The protocol text is compared as it is; the other fields are stripped. */
  function RoutingLines(r: Routing): seq<string> {
    var network, wildcard, area, asn := Strip(r.network), Strip(r.wildcard), Strip(r.area), Strip(r.asn);
    if r.protocol == "rip" && network != "" then RipLines(network)
    else if r.protocol == "ospf" && network != "" && wildcard != "" && area != "" then OspfLines(network, wildcard, area)
    else if r.protocol == "eigrp" && network != "" && asn != "" then
      (if IsDigits(asn) then EigrpLines(asn, network) else [])
    else []
  }

  /** The block listed for one row, with the empty placeholder the source
      puts where a trunk row has no access line. */
  function RawVlanBlock(e: VlanEntry): seq<string> {
    ["vlan " + e.id, "name " + e.name, "exit", "interface " + e.iface, "switchport mode " + e.mode,
     if e.mode == "access" then "switchport access vlan " + e.id else "",
     "no shutdown", "exit"]
  }

  /** The block a row contributes once the placeholders are filtered out. */
  function VlanBlock(e: VlanEntry): seq<string> {
    ["vlan " + e.id, "name " + e.name, "exit", "interface " + e.iface, "switchport mode " + e.mode]
    + (if e.mode == "access" then ["switchport access vlan " + e.id] else [])
    + ["no shutdown", "exit"]
  }

  function VlanLines(vlans: seq<VlanEntry>): seq<string> {
    if vlans == [] then []
    else VlanLines(vlans[..|vlans| - 1]) + VlanBlock(vlans[|vlans| - 1])
  }

  function RawVlanLines(vlans: seq<VlanEntry>): seq<string> {
    if vlans == [] then []
    else RawVlanLines(vlans[..|vlans| - 1]) + RawVlanBlock(vlans[|vlans| - 1])
  }

  /** The comprehension `[cmd for cmd in comandos if cmd]`. */
  function DropEmpty(lines: seq<string>): seq<string> {
    if lines == [] then []
    else DropEmpty(lines[..|lines| - 1]) + (if lines[|lines| - 1] == "" then [] else [lines[|lines| - 1]])
  }

  /** `generar_comandos`: the blocks joined in their fixed order. */
  function Commands(req: Request, vlans: seq<VlanEntry>, validIp: string -> bool): seq<string> {
    BasicLines(req, validIp) + SerialLines(req.serial, validIp) + SshLines(req.ssh)
    + DhcpLines(req.dhcp, validIp) + RoutingLines(req.routing) + VlanLines(vlans) + Epilogue
  }

  // ---------------------------------------------------------------------
  // The generators, building their list step by step as the source does
  // ---------------------------------------------------------------------

  /** `generar_comandos_basicos`. */
  method BasicCommands(req: Request, validIp: string -> bool) returns (cmds: seq<string>)
    ensures cmds == BasicLines(req, validIp)
  {
    cmds := ["enable", "configure terminal"];
    var hostname := Strip(req.identity.hostname);
    if hostname != "" {
      cmds := cmds + ["hostname " + hostname];
    }
    assert cmds == Prologue + HostnameLines(hostname);
    ghost var upToHost := cmds;
    var enable := Strip(req.identity.enablePassword);
    if enable != "" {
      cmds := cmds + ["enable secret " + enable];
    }
    assert cmds == upToHost + EnableLines(enable);
    ghost var upToEnable := cmds;
    var console := Strip(req.identity.consolePassword);
    if console != "" {
      cmds := cmds + ["line console 0", "password " + console, "login", "exit"];
    }
    assert cmds == upToEnable + ConsoleLines(console);
    ghost var upToConsole := cmds;
    var banner := Strip(req.identity.banner);
    if banner != "" {
      var d := if '$' !in banner then '$' else '#';
      cmds := cmds + ["banner motd " + [d] + banner + [d]];
    }
    assert cmds == upToConsole + BannerLines(banner);
    Regroup4(Prologue, HostnameLines(hostname), EnableLines(enable), ConsoleLines(console), BannerLines(banner));
    var lanName, lanIp, lanMask := Strip(req.lan.name), Strip(req.lan.ip), Strip(req.lan.mask);
    if lanName != "" && lanIp != "" && lanMask != "" {
      if validIp(lanIp) {
        cmds := cmds + ["interface " + lanName, "ip address " + lanIp + " " + lanMask, "no shutdown", "exit"];
      }
    }
    assert cmds == Prologue + IdentityLines(req.identity) + LanLines(req.lan, validIp);
    var reset := Strip(req.resetInterface);
    if reset != "" {
      cmds := cmds + ["interface " + reset, "shutdown", "no ip address", "no clock rate", "exit"];
    }
  }

  lemma Regroup4(p: seq<string>, a: seq<string>, b: seq<string>, c: seq<string>, d: seq<string>)
    ensures p + a + b + c + d == p + (a + b + c + d)
  {
  }

  /** `generar_comandos_serial`. */
  method SerialCommands(s: SerialInterface, validIp: string -> bool) returns (cmds: seq<string>)
    ensures cmds == SerialLines(s, validIp)
  {
    cmds := [];
    var name, ip, mask := Strip(s.name), Strip(s.ip), Strip(s.mask);
    if name != "" && ip != "" && mask != "" {
      if !validIp(ip) {
        return;
      }
      cmds := cmds + ["interface " + name, "ip address " + ip + " " + mask];
      var rate := Strip(s.clockRate);
      if rate != "" {
        if IsDigits(rate) {
          cmds := cmds + ["clock rate " + rate];
        }
      }
      if s.activate {
        cmds := cmds + ["no shutdown"];
      }
      cmds := cmds + ["exit"];
    }
  }

  /** `generar_comandos_ssh`. */
  method SshCommands(s: Ssh) returns (cmds: seq<string>)
    ensures cmds == SshLines(s)
  {
    cmds := [];
    var domain, user, password := Strip(s.domain), Strip(s.username), Strip(s.password);
    if domain != "" && user != "" && password != "" {
      cmds := cmds + ["ip domain-name " + domain, "username " + user + " password " + password,
                      "crypto key generate rsa", "1024", "line vty 0 4", "transport input ssh",
                      "login local", "exit"];
    }
  }

  /** `generar_comandos_dhcp`. */
  method DhcpCommands(d: Dhcp, validIp: string -> bool) returns (cmds: seq<string>)
    ensures cmds == DhcpLines(d, validIp)
  {
    cmds := [];
    var pool, network, mask, gateway := Strip(d.pool), Strip(d.network), Strip(d.mask), Strip(d.gateway);
    if pool != "" && network != "" && mask != "" && gateway != "" {
      var first := Strip(d.rangeStart);
      if first != "" {
        var last := Strip(d.rangeEnd);
        if last != "" {
          if validIp(first) && validIp(last) {
            cmds := cmds + ["ip dhcp excluded-address " + first + " " + last];
          }
        }
      }
      cmds := cmds + ["ip dhcp pool " + pool, "network " + network + " " + mask, "default-router " + gateway];
    }
  }

  /** `generar_comandos_ruteo`. */
  method RoutingCommands(r: Routing) returns (cmds: seq<string>)
    ensures cmds == RoutingLines(r)
  {
    cmds := [];
    var network := Strip(r.network);
    if r.protocol == "rip" && network != "" {
      cmds := cmds + ["router rip", "version 2", "network " + network, "exit"];
    } else if r.protocol == "ospf" && network != "" && Strip(r.wildcard) != "" && Strip(r.area) != "" {
      cmds := cmds + ["router ospf 1", "network " + network + " " + Strip(r.wildcard) + " area " + Strip(r.area), "exit"];
    } else if r.protocol == "eigrp" && network != "" && Strip(r.asn) != "" {
      var asn := Strip(r.asn);
      if IsDigits(asn) {
        cmds := cmds + ["router eigrp " + asn, "network " + network, "exit"];
      }
    }
  }

  /** `generar_comandos_vlans`: one block per row in table order, then the
      empty placeholders are filtered out. */
  method VlanCommands(vlans: seq<VlanEntry>) returns (cmds: seq<string>)
    ensures cmds == VlanLines(vlans)
  {
    var listed: seq<string> := [];
    for i := 0 to |vlans|
      invariant listed == RawVlanLines(vlans[..i])
    {
      assert vlans[..i + 1][..i] == vlans[..i];
      listed := listed + RawVlanBlock(vlans[i]);
    }
    assert vlans[..|vlans|] == vlans;
    cmds := [];
    for j := 0 to |listed|
      invariant cmds == DropEmpty(listed[..j])
    {
      assert listed[..j + 1][..j] == listed[..j];
      if listed[j] != "" {
        cmds := cmds + [listed[j]];
      }
    }
    assert listed[..|listed|] == listed;
    FilteredVlanLines(vlans);
  }

  /** `generar_comandos`: the blocks in their fixed order, then the
      epilogue. No step of the model can fail, so the source's fallback to
      an empty list on an exception has no counterpart here. */
  method GenerateCommands(req: Request, vlans: seq<VlanEntry>, validIp: string -> bool) returns (cmds: seq<string>)
    ensures cmds == Commands(req, vlans, validIp)
  {
    cmds := [];
    var basic := BasicCommands(req, validIp);
    cmds := cmds + basic;
    assert cmds == basic;
    var serial := SerialCommands(req.serial, validIp);
    cmds := cmds + serial;
    var ssh := SshCommands(req.ssh);
    cmds := cmds + ssh;
    var dhcp := DhcpCommands(req.dhcp, validIp);
    cmds := cmds + dhcp;
    var routing := RoutingCommands(req.routing);
    cmds := cmds + routing;
    var vlanLines := VlanCommands(vlans);
    cmds := cmds + vlanLines;
    cmds := cmds + ["exit", "write memory"];
    assert cmds == basic + serial + ssh + dhcp + routing + vlanLines + Epilogue;
  }

  // ---------------------------------------------------------------------
  // Properties
  // ---------------------------------------------------------------------

  /** Lines that begin with different characters are different. */
  lemma DifferentStart(p: string, x: string, q: string, y: string)
    requires p != [] && q != [] && p[0] != q[0]
    ensures p + x != q + y
  {
    assert (p + x)[0] == p[0] && (q + y)[0] == q[0];
  }

  /** Every output opens with `enable` / `configure terminal` and closes with
      `exit` / `write memory`. */
  lemma CommandsFrame(req: Request, vlans: seq<VlanEntry>, validIp: string -> bool)
    ensures var r := Commands(req, vlans, validIp);
      |r| >= 4 && r[..2] == Prologue && r[|r| - 2..] == Epilogue
  {
    Framed(IdentityLines(req.identity), LanLines(req.lan, validIp), ResetLines(req.resetInterface),
      SerialLines(req.serial, validIp), SshLines(req.ssh), DhcpLines(req.dhcp, validIp),
      RoutingLines(req.routing), VlanLines(vlans));
  }

  /** The frame of a command list, on the blocks as plain sequences. */
  lemma Framed(a: seq<string>, b: seq<string>, c: seq<string>, d: seq<string>,
               e: seq<string>, f: seq<string>, g: seq<string>, h: seq<string>)
    ensures var r := (Prologue + a + b + c) + d + e + f + g + h + Epilogue;
      |r| >= 4 && r[..2] == Prologue && r[|r| - 2..] == Epilogue
  {
    var r := (Prologue + a + b + c) + d + e + f + g + h + Epilogue;
    var body := a + b + c + d + e + f + g + h;
    assert r == Prologue + body + Epilogue;
  }

  /** Every text field empty or whitespace only. */
  predicate Blank(req: Request) {
    && AllSpace(req.identity.hostname) && AllSpace(req.identity.consolePassword)
    && AllSpace(req.identity.enablePassword) && AllSpace(req.identity.banner)
    && AllSpace(req.lan.name) && AllSpace(req.lan.ip) && AllSpace(req.lan.mask)
    && AllSpace(req.serial.name) && AllSpace(req.serial.ip) && AllSpace(req.serial.mask)
    && AllSpace(req.serial.clockRate)
    && AllSpace(req.ssh.domain) && AllSpace(req.ssh.username) && AllSpace(req.ssh.password)
    && AllSpace(req.resetInterface)
    && AllSpace(req.dhcp.pool) && AllSpace(req.dhcp.network) && AllSpace(req.dhcp.mask)
    && AllSpace(req.dhcp.gateway) && AllSpace(req.dhcp.rangeStart) && AllSpace(req.dhcp.rangeEnd)
    && AllSpace(req.routing.network) && AllSpace(req.routing.wildcard)
    && AllSpace(req.routing.area) && AllSpace(req.routing.asn)
  }

  /** With every field empty or blank (whatever the protocol choice and the
      check box) and no VLAN rows, only the four frame lines remain. */
  lemma {:induction false} BlankRequestCommands(req: Request, validIp: string -> bool)
    requires Blank(req)
    ensures Commands(req, [], validIp) == ["enable", "configure terminal", "exit", "write memory"]
  {
    StripEmptyIffAllSpace(req.identity.hostname);
    StripEmptyIffAllSpace(req.identity.consolePassword);
    StripEmptyIffAllSpace(req.identity.enablePassword);
    StripEmptyIffAllSpace(req.identity.banner);
    StripEmptyIffAllSpace(req.lan.name);
    StripEmptyIffAllSpace(req.serial.name);
    StripEmptyIffAllSpace(req.ssh.domain);
    StripEmptyIffAllSpace(req.resetInterface);
    StripEmptyIffAllSpace(req.dhcp.pool);
    StripEmptyIffAllSpace(req.routing.network);
  }

  /** A hostname alone adds one line, stripped, right after the prologue. */
  lemma {:induction false} HostnameOnlyCommands(hostname: string, validIp: string -> bool)
    requires Strip(hostname) != ""
    ensures var req := EmptyRequest().(identity := Identity(hostname, "", "", ""));
      Commands(req, [], validIp) == ["enable", "configure terminal", "hostname " + Strip(hostname), "exit", "write memory"]
  {
    var req := EmptyRequest().(identity := Identity(hostname, "", "", ""));
    assert IdentityLines(req.identity) == ["hostname " + Strip(hostname)];
  }

  lemma HostnameR1(validIp: string -> bool)
    ensures Commands(EmptyRequest().(identity := Identity("R1", "", "", "")), [], validIp)
      == ["enable", "configure terminal", "hostname R1", "exit", "write memory"]
  {
    StripTrimmed("R1");
    HostnameOnlyCommands("R1", validIp);
    var req := EmptyRequest().(identity := Identity("R1", "", "", ""));
    assert Commands(req, [], validIp) == ["enable", "configure terminal", "hostname " + Strip("R1"), "exit", "write memory"];
    assert Strip("R1") == "R1";
    assert "hostname " + "R1" == "hostname R1";
    assert Commands(req, [], validIp) == ["enable", "configure terminal", "hostname R1", "exit", "write memory"];
  }

  /** The banner delimiter is `$` unless the text holds a `$`; it occurs in
      the text only when the text holds both `$` and `#`. The line gives back
      the text between its delimiters. */
  lemma {:induction false} BannerFraming(banner: string)
    ensures var d, line := BannerDelimiter(banner), BannerLine(banner);
      && (d == '$' <==> '$' !in banner)
      && (d == '#' <==> '$' in banner)
      && (d in banner <==> '$' in banner && '#' in banner)
      && |line| == |banner| + 14
      && line[..12] == "banner motd "
      && line[12] == d && line[|line| - 1] == d
      && line[13..|line| - 1] == banner
  {
    var d, line := BannerDelimiter(banner), BannerLine(banner);
    assert line == "banner motd " + ([d] + banner + [d]);
    assert line[12..] == [d] + banner + [d];
  }

  /** A text with both characters gets a delimiter that it contains. */
  lemma BannerWithBothDelimiters()
    ensures BannerLine("a$b#c") == "banner motd #a$b#c#"
    ensures BannerDelimiter("a$b#c") in "a$b#c"
  {
    assert "a$b#c"[1] == '$';
    assert "a$b#c"[3] == '#';
  }

  /** The identity block ends with the banner line exactly when the stripped
      banner is non-empty. */
  lemma {:induction false} IdentityBanner(id: Identity)
    ensures var r, b := IdentityLines(id), Strip(id.banner);
      (b != "" ==> |r| >= 1 && r[|r| - 1] == BannerLine(b))
      && (b == "" ==> forall i :: 0 <= i < |r| ==> r[i][0] != 'b')
  {
    var r, b := IdentityLines(id), Strip(id.banner);
    if b == "" {
      forall i | 0 <= i < |r| ensures r[i][0] != 'b' {
        var h, e, c := Strip(id.hostname), Strip(id.enablePassword), Strip(id.consolePassword);
        assert ("hostname " + h)[0] == 'h' && ("enable secret " + e)[0] == 'e' && ("password " + c)[0] == 'p';
      }
    }
  }

  /** The LAN block is the four interface lines exactly when name, address
      and mask are given and the address passes; nothing otherwise. */
  lemma {:induction false} LanBlockShape(lan: LanInterface, validIp: string -> bool)
    ensures var r := LanLines(lan, validIp);
      && (r != [] <==> Strip(lan.name) != "" && Strip(lan.ip) != "" && Strip(lan.mask) != "" && validIp(Strip(lan.ip)))
      && (r == [] || |r| == 4)
      && (r != [] ==> r == ["interface " + Strip(lan.name), "ip address " + Strip(lan.ip) + " " + Strip(lan.mask), "no shutdown", "exit"])
  {
  }

  /** The mask is never validated: any two given masks lead to the same
      decision. */
  lemma {:induction false} LanMaskNotChecked(lan: LanInterface, mask: string, validIp: string -> bool)
    requires Strip(lan.mask) != "" && Strip(mask) != ""
    ensures |LanLines(lan, validIp)| == |LanLines(lan.(mask := mask), validIp)|
  {
  }

  /** The interface reset block has its five lines exactly when an interface
      name is given. */
  lemma {:induction false} ResetBlockShape(iface: string)
    ensures var r := ResetLines(iface);
      && (r != [] <==> !AllSpace(iface))
      && (r != [] ==> r == ["interface " + Strip(iface), "shutdown", "no ip address", "no clock rate", "exit"])
  {
    StripEmptyIffAllSpace(iface);
  }

  /** The serial block: nothing unless name, address and mask are given and
      the address passes; otherwise the interface line, the address line,
      `clock rate` exactly when the rate is all digits, `no shutdown` exactly
      when the box is ticked, and `exit`. */
  lemma {:induction false} SerialBlockShape(s: SerialInterface, validIp: string -> bool)
    ensures var r, rate := SerialLines(s, validIp), Strip(s.clockRate);
      && (r == [] <==> !SerialApplies(s, validIp))
      && (r != [] ==>
          && 3 <= |r| <= 5
          && |r| == 3 + (if IsDigits(rate) then 1 else 0) + (if s.activate then 1 else 0)
          && r[0] == "interface " + Strip(s.name)
          && r[1] == "ip address " + Strip(s.ip) + " " + Strip(s.mask)
          && r[|r| - 1] == "exit"
          && (("clock rate " + rate) in r <==> IsDigits(rate))
          && ("no shutdown" in r <==> s.activate))
  {
    var r, rate := SerialLines(s, validIp), Strip(s.clockRate);
    if r != [] {
      var clock := "clock rate " + rate;
      DifferentStart("c", "lock rate " + rate, "i", "nterface " + Strip(s.name));
      DifferentStart("c", "lock rate " + rate, "i", "p address " + Strip(s.ip) + " " + Strip(s.mask));
      assert "clock rate " + rate == "c" + ("lock rate " + rate);
      assert "interface " + Strip(s.name) == "i" + ("nterface " + Strip(s.name));
      assert "ip address " + Strip(s.ip) + " " + Strip(s.mask) == "i" + ("p address " + Strip(s.ip) + " " + Strip(s.mask));
      assert clock != "no shutdown" && clock != "exit" by { assert clock[0] == 'c'; }
      assert "no shutdown" != r[0] && "no shutdown" != r[1] by { assert r[0][0] == 'i' && r[1][0] == 'i'; }
    }
  }

  /** SSH is the fixed eight-line block or nothing. */
  lemma {:induction false} SshBlockShape(s: Ssh)
    ensures var r := SshLines(s);
      && (r != [] <==> SshApplies(s))
      && (r != [] ==>
            && |r| == 8
            && r[0] == "ip domain-name " + Strip(s.domain)
            && r[1] == "username " + Strip(s.username) + " password " + Strip(s.password)
            && r[2..] == SshTail)
  {
  }

  /** DHCP: nothing unless pool, network, mask and gateway are given;
      otherwise the three pool lines, preceded by the excluded range exactly
      when both ends are given and pass the address check. */
  lemma {:induction false} DhcpBlockShape(d: Dhcp, validIp: string -> bool)
    ensures var r := DhcpLines(d, validIp);
      && (r != [] <==> DhcpApplies(d))
      && (r != [] ==>
          && (|r| == 3 || |r| == 4)
          && r[|r| - 3..] == PoolLines(d)
          && (|r| == 4 <==> RangeApplies(d, validIp))
          && (|r| == 4 ==> r[0] == "ip dhcp excluded-address " + Strip(d.rangeStart) + " " + Strip(d.rangeEnd)))
  {
  }

  /** A range with one end missing is dropped without a trace. */
  lemma {:induction false} DhcpHalfRangeDropped(d: Dhcp, validIp: string -> bool)
    requires DhcpApplies(d) && (Strip(d.rangeStart) == "" || Strip(d.rangeEnd) == "")
    ensures DhcpLines(d, validIp) == PoolLines(d)
  {
  }

  predicate StartsWith(line: string, prefix: string) {
    |prefix| <= |line| && line[..|prefix|] == prefix
  }

  function CountStarting(lines: seq<string>, prefix: string): nat {
    if lines == [] then 0
    else CountStarting(lines[..|lines| - 1], prefix) + (if StartsWith(lines[|lines| - 1], prefix) then 1 else 0)
  }

  /** Routing emits at most one of the three blocks: RIP (four lines) for
      `rip` with a network, OSPF (three lines) for `ospf` with network,
      wildcard and area, EIGRP (three lines) for `eigrp` with a network and an
      all-digit ASN, and nothing for every other combination. */
  lemma {:induction false} RoutingChoice(r: Routing)
    ensures var out, network := RoutingLines(r), Strip(r.network);
      && (out == RipLines(network) <==> r.protocol == "rip" && network != "")
      && (out == OspfLines(network, Strip(r.wildcard), Strip(r.area)) <==>
            r.protocol == "ospf" && network != "" && Strip(r.wildcard) != "" && Strip(r.area) != "")
      && (out == EigrpLines(Strip(r.asn), network) <==>
            r.protocol == "eigrp" && network != "" && IsDigits(Strip(r.asn)))
      && (out == [] <==>
            !((r.protocol == "rip" && network != "")
              || (r.protocol == "ospf" && network != "" && Strip(r.wildcard) != "" && Strip(r.area) != "")
              || (r.protocol == "eigrp" && network != "" && IsDigits(Strip(r.asn)))))
  {
    var network := Strip(r.network);
    assert RipLines(network) != OspfLines(network, Strip(r.wildcard), Strip(r.area));
    assert RipLines(network) != EigrpLines(Strip(r.asn), network);
    assert OspfLines(network, Strip(r.wildcard), Strip(r.area))[0] != EigrpLines(Strip(r.asn), network)[0] by {
      assert "router ospf 1"[7] == 'o';
      assert ("router eigrp " + Strip(r.asn))[7] == 'e';
    }
  }

  lemma {:induction false} CountStartingAppend(a: seq<string>, b: seq<string>, prefix: string)
    ensures CountStarting(a + b, prefix) == CountStarting(a, prefix) + CountStarting(b, prefix)
  {
    if b == [] {
      assert a + b == a;
    } else {
      assert (a + b)[..|a + b| - 1] == a + b[..|b| - 1];
      CountStartingAppend(a, b[..|b| - 1], prefix);
    }
  }

  lemma {:induction false} CountStartingNone(lines: seq<string>, prefix: string)
    requires forall i :: 0 <= i < |lines| ==> !StartsWith(lines[i], prefix)
    ensures CountStarting(lines, prefix) == 0
  {
    if lines != [] {
      CountStartingNone(lines[..|lines| - 1], prefix);
    }
  }

  /** So the routing output holds at most one `router` line. */
  lemma {:induction false} RoutingAtMostOneRouter(r: Routing)
    ensures CountStarting(RoutingLines(r), "router ") <= 1
  {
    var out := RoutingLines(r);
    if out != [] {
      var rest := out[1..];
      forall i | 0 <= i < |rest| ensures !StartsWith(rest[i], "router ") {
        assert rest[i][0] != 'r';
      }
      CountStartingNone(rest, "router ");
      assert out == [out[0]] + rest;
      CountStartingAppend([out[0]], rest, "router ");
      assert [out[0]][..0] == [];
    } else {
      assert CountStarting(out, "router ") == 0;
    }
  }

  /** ASN `abc` is refused, ASN `65000` gives the EIGRP block. */
  lemma EigrpAsnExamples()
    ensures RoutingLines(Routing("eigrp", "10.0.0.0", "", "", "abc")) == []
    ensures RoutingLines(Routing("eigrp", "10.0.0.0", "", "", "65000"))
      == ["router eigrp 65000", "network 10.0.0.0", "exit"]
  {
    StripTrimmed("10.0.0.0");
    StripTrimmed("abc");
    StripTrimmed("65000");
    assert !IsAsciiDigit("abc"[0]);
    assert IsDigits("65000");
    var r := Routing("eigrp", "10.0.0.0", "", "", "65000");
    assert Strip(r.network) == "10.0.0.0" && Strip(r.asn) == "65000";
    assert RoutingLines(r) == EigrpLines("65000", "10.0.0.0");
    assert "router eigrp " + "65000" == "router eigrp 65000";
    assert "network " + "10.0.0.0" == "network 10.0.0.0";
  }

  /** A row's block is eight lines for access mode and seven otherwise; the
      access line appears exactly in access mode; no line is empty. */
  lemma {:induction false} VlanBlockShape(e: VlanEntry)
    ensures var b := VlanBlock(e);
      && |b| == (if e.mode == "access" then 8 else 7)
      && (("switchport access vlan " + e.id) in b <==> e.mode == "access")
      && b[0] == "vlan " + e.id && b[1] == "name " + e.name && b[3] == "interface " + e.iface
      && b[4] == "switchport mode " + e.mode
      && forall i :: 0 <= i < |b| ==> b[i] != ""
  {
    var b := VlanBlock(e);
    var access := "switchport access vlan " + e.id;
    assert access != b[0] && access != b[1] && access != b[3] && access != "exit" && access != "no shutdown" by {
      assert access[0] == 's' && b[0][0] == 'v' && b[1][0] == 'n' && b[3][0] == 'i';
    }
    assert access != b[4] by { assert access[11] == 'a' && b[4][11] == 'm'; }
    forall i | 0 <= i < |b| ensures b[i] != "" {
      assert |b[i]| > 0;
    }
  }

  lemma {:induction false} DropEmptyAppend(a: seq<string>, b: seq<string>)
    ensures DropEmpty(a + b) == DropEmpty(a) + DropEmpty(b)
  {
    if b != [] {
      assert (a + b)[..|a + b| - 1] == a + b[..|b| - 1];
      DropEmptyAppend(a, b[..|b| - 1]);
    } else {
      assert a + b == a;
    }
  }

  lemma {:induction false} DropEmptyNone(lines: seq<string>)
    requires forall i :: 0 <= i < |lines| ==> lines[i] != ""
    ensures DropEmpty(lines) == lines
  {
    if lines != [] {
      DropEmptyNone(lines[..|lines| - 1]);
    }
  }

  /** Filtering a list with at most one empty entry, at a known place. */
  lemma {:induction false} DropEmptyAround(head: seq<string>, x: string, tail: seq<string>)
    requires forall i :: 0 <= i < |head| ==> head[i] != ""
    requires forall i :: 0 <= i < |tail| ==> tail[i] != ""
    ensures DropEmpty(head + [x] + tail) == head + (if x == "" then [] else [x]) + tail
  {
    DropEmptyNone(head);
    DropEmptyNone(tail);
    DropEmptyAppend(head + [x], tail);
    DropEmptyAppend(head, [x]);
    assert [x][..0] == [];
  }

  lemma {:induction false} DropEmptyBlock(e: VlanEntry)
    ensures DropEmpty(RawVlanBlock(e)) == VlanBlock(e)
  {
    var head := ["vlan " + e.id, "name " + e.name, "exit", "interface " + e.iface, "switchport mode " + e.mode];
    var x := if e.mode == "access" then "switchport access vlan " + e.id else "";
    var tail := ["no shutdown", "exit"];
    assert RawVlanBlock(e) == head + [x] + tail;
    assert VlanBlock(e) == head + (if x == "" then [] else [x]) + tail;
    DropEmptyAround(head, x, tail);
  }

  /** Filtering the placeholders out of the listed blocks leaves exactly the
      blocks of `VlanBlock`, in row order. */
  lemma {:induction false} FilteredVlanLines(vlans: seq<VlanEntry>)
    ensures DropEmpty(RawVlanLines(vlans)) == VlanLines(vlans)
  {
    if vlans != [] {
      var init, last := vlans[..|vlans| - 1], vlans[|vlans| - 1];
      FilteredVlanLines(init);
      DropEmptyAppend(RawVlanLines(init), RawVlanBlock(last));
      DropEmptyBlock(last);
    }
  }

  /** One block per row, in row order: the lines of a concatenation of rows
      are the lines of the parts, one after the other. */
  lemma {:induction false} VlanLinesAppend(a: seq<VlanEntry>, b: seq<VlanEntry>)
    ensures VlanLines(a + b) == VlanLines(a) + VlanLines(b)
  {
    if b == [] {
      assert a + b == a;
    } else {
      assert (a + b)[..|a + b| - 1] == a + b[..|b| - 1];
      VlanLinesAppend(a, b[..|b| - 1]);
    }
  }

  lemma VlanLinesSingle(e: VlanEntry)
    ensures VlanLines([e]) == VlanBlock(e)
  {
    assert [e][..0] == [];
  }

  /** No VLAN line is empty and their number is seven per row plus one per
      access row. */
  lemma {:induction false} VlanLinesShape(vlans: seq<VlanEntry>)
    ensures var r := VlanLines(vlans);
      && |r| == 7 * |vlans| + AccessRows(vlans)
      && forall i :: 0 <= i < |r| ==> r[i] != ""
  {
    if vlans != [] {
      var init, last := vlans[..|vlans| - 1], vlans[|vlans| - 1];
      VlanLinesShape(init);
      VlanBlockShape(last);
      var r := VlanLines(vlans);
      assert r == VlanLines(init) + VlanBlock(last);
      forall i | 0 <= i < |r| ensures r[i] != "" {
        if i >= |VlanLines(init)| {
          assert r[i] == VlanBlock(last)[i - |VlanLines(init)|];
        }
      }
    }
  }

  function AccessRows(vlans: seq<VlanEntry>): nat {
    if vlans == [] then 0
    else AccessRows(vlans[..|vlans| - 1]) + (if vlans[|vlans| - 1].mode == "access" then 1 else 0)
  }

  /** Within a row's block only the first line starts with `vlan `, and it
      carries the row's id. */
  lemma VlanBlockIdLine(e: VlanEntry)
    ensures var b := VlanBlock(e);
      forall j :: 0 <= j < |b| && StartsWith(b[j], "vlan ") ==> j == 0 && b[j][5..] == e.id
  {
    var b := VlanBlock(e);
    assert ("vlan " + e.id)[5..] == e.id;
    forall j | 0 <= j < |b| ensures StartsWith(b[j], "vlan ") ==> j == 0 {
      if j != 0 {
        assert b[j][0] != 'v';
      }
    }
  }

  /** Every `vlan <id>` line names an id that reads as an integer in
      1..4094. */
  predicate VlanIdsInRange(lines: seq<string>) {
    forall i :: 0 <= i < |lines| && StartsWith(lines[i], "vlan ") ==> VlanTable.IdInRange(lines[i][5..])
  }

  lemma VlanIdsInRangeAppend(a: seq<string>, b: seq<string>)
    requires VlanIdsInRange(a) && VlanIdsInRange(b)
    ensures VlanIdsInRange(a + b)
  {
    forall i | 0 <= i < |a + b| && StartsWith((a + b)[i], "vlan ") ensures VlanTable.IdInRange((a + b)[i][5..]) {
      if i < |a| {
        assert (a + b)[i] == a[i];
      } else {
        assert (a + b)[i] == b[i - |a|];
      }
    }
  }

  /** So when every row was admitted, every `vlan <id>` line carries an id in
      range. */
  lemma {:induction false} VlanLinesIdsAdmitted(vlans: seq<VlanEntry>)
    requires forall k :: 0 <= k < |vlans| ==> VlanTable.Admissible(vlans[k])
    ensures VlanIdsInRange(VlanLines(vlans))
  {
    if vlans != [] {
      var init, last := vlans[..|vlans| - 1], vlans[|vlans| - 1];
      VlanLinesIdsAdmitted(init);
      VlanBlockIdLine(last);
      assert VlanTable.Admissible(last);
      var b := VlanBlock(last);
      forall j | 0 <= j < |b| && StartsWith(b[j], "vlan ") ensures VlanTable.IdInRange(b[j][5..]) {
        assert b[j][5..] == last.id;
      }
      VlanIdsInRangeAppend(VlanLines(init), b);
    }
  }

  /** So an admitted table never yields `vlan 5000`. */
  lemma VlanLinesNever5000(vlans: seq<VlanEntry>)
    requires forall k :: 0 <= k < |vlans| ==> VlanTable.Admissible(vlans[k])
    ensures "vlan 5000" !in VlanLines(vlans)
  {
    VlanLinesIdsAdmitted(vlans);
    NoLineFor5000(VlanLines(vlans));
  }

  /** The invariant of the VLAN table carries the promise: whatever rows
      `agregar_vlan` let in, their lines hold no `vlan 5000`. */
  lemma TableNever5000(t: VlanTable.VlanTree)
    requires t.Valid()
    ensures "vlan 5000" !in VlanLines(t.entries)
  {
    VlanLinesNever5000(t.entries);
  }

  // Each block's lines begin with a character other than `v`, or are
  // `version 2`, so none of them is `vlan 5000`.

  lemma IdentityNo5000(id: Identity)
    ensures "vlan 5000" !in IdentityLines(id)
  {
    var h, e, c, b := Strip(id.hostname), Strip(id.enablePassword), Strip(id.consolePassword), Strip(id.banner);
    assert ("hostname " + h)[0] == 'h' && ("enable secret " + e)[0] == 'e' && ("password " + c)[0] == 'p';
    assert BannerLine(b)[0] == 'b';
    assert "vlan 5000" !in HostnameLines(h) && "vlan 5000" !in EnableLines(e);
    assert "vlan 5000" !in ConsoleLines(c) && "vlan 5000" !in BannerLines(b);
  }

  lemma LanNo5000(lan: LanInterface, validIp: string -> bool)
    ensures "vlan 5000" !in LanLines(lan, validIp)
  {
    var n, ip, m := Strip(lan.name), Strip(lan.ip), Strip(lan.mask);
    assert ("interface " + n)[0] == 'i' && ("ip address " + ip + " " + m)[0] == 'i';
  }

  lemma ResetNo5000(iface: string)
    ensures "vlan 5000" !in ResetLines(iface)
  {
    assert ("interface " + Strip(iface))[0] == 'i';
  }

  lemma SerialNo5000(s: SerialInterface, validIp: string -> bool)
    ensures "vlan 5000" !in SerialLines(s, validIp)
  {
    var n, ip, m, rate := Strip(s.name), Strip(s.ip), Strip(s.mask), Strip(s.clockRate);
    assert ("interface " + n)[0] == 'i' && ("ip address " + ip + " " + m)[0] == 'i';
    assert ("clock rate " + rate)[0] == 'c';
  }

  lemma SshNo5000(s: Ssh)
    ensures "vlan 5000" !in SshLines(s)
  {
    var d, u, p := Strip(s.domain), Strip(s.username), Strip(s.password);
    assert ("ip domain-name " + d)[0] == 'i' && ("username " + u + " password " + p)[0] == 'u';
  }

  lemma DhcpNo5000(d: Dhcp, validIp: string -> bool)
    ensures "vlan 5000" !in DhcpLines(d, validIp)
  {
    var pool, net, m, gw := Strip(d.pool), Strip(d.network), Strip(d.mask), Strip(d.gateway);
    var lo, hi := Strip(d.rangeStart), Strip(d.rangeEnd);
    assert ("ip dhcp pool " + pool)[0] == 'i' && ("network " + net + " " + m)[0] == 'n';
    assert ("default-router " + gw)[0] == 'd' && ("ip dhcp excluded-address " + lo + " " + hi)[0] == 'i';
    assert "vlan 5000" !in PoolLines(d);
  }

  lemma RoutingNo5000(r: Routing)
    ensures "vlan 5000" !in RoutingLines(r)
  {
    var net, w, area, asn := Strip(r.network), Strip(r.wildcard), Strip(r.area), Strip(r.asn);
    assert ("network " + net)[0] == 'n' && ("network " + net + " " + w + " area " + area)[0] == 'n';
    assert ("router eigrp " + asn)[0] == 'r';
    assert "vlan 5000" !in RipLines(net) && "vlan 5000" !in OspfLines(net, w, area);
    assert "vlan 5000" !in EigrpLines(asn, net);
  }

  /** A line absent from every block is absent from their concatenation, on
      the blocks as plain sequences. */
  lemma AbsentFromAll(x: string, a: seq<string>, b: seq<string>, c: seq<string>, d: seq<string>,
                      e: seq<string>, f: seq<string>, g: seq<string>, h: seq<string>)
    requires x !in Prologue && x !in Epilogue && x !in a && x !in b && x !in c && x !in d
    requires x !in e && x !in f && x !in g && x !in h
    ensures x !in (Prologue + a + b + c) + d + e + f + g + h + Epilogue
  {
  }

  /** Whatever the form holds and whatever rows the table admitted, the
      generated configuration never holds `vlan 5000`. */
  lemma CommandsNever5000(req: Request, t: VlanTable.VlanTree, validIp: string -> bool)
    requires t.Valid()
    ensures "vlan 5000" !in Commands(req, t.entries, validIp)
  {
    IdentityNo5000(req.identity);
    LanNo5000(req.lan, validIp);
    ResetNo5000(req.resetInterface);
    SerialNo5000(req.serial, validIp);
    SshNo5000(req.ssh);
    DhcpNo5000(req.dhcp, validIp);
    RoutingNo5000(req.routing);
    TableNever5000(t);
    AbsentFromAll("vlan 5000", IdentityLines(req.identity), LanLines(req.lan, validIp), ResetLines(req.resetInterface),
      SerialLines(req.serial, validIp), SshLines(req.ssh), DhcpLines(req.dhcp, validIp),
      RoutingLines(req.routing), VlanLines(t.entries));
  }

  lemma NoLineFor5000(lines: seq<string>)
    requires VlanIdsInRange(lines)
    ensures "vlan 5000" !in lines
  {
    VlanTable.Id5000OutOfRange();
    var line := "vlan 5000";
    forall i | 0 <= i < |lines| ensures lines[i] != line {
      if lines[i] == line {
        assert StartsWith(lines[i], "vlan ");
      }
    }
  }
}
