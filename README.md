# Cisco IOS command generator, modelled in Dafny

The repository is a desktop tool that fills in a form for a Cisco router or
switch and turns it into an ordered list of IOS command lines. This project
models the two versions of its generator:

- `cisco2.py`, the current version:
  - `generar_comandos` joins six sub-generators: basic configuration, serial
    interface, SSH, DHCP, dynamic routing and VLANs.
  - The form's text fields are passed through `str.strip()` before they are
    tested. Two exceptions are kept as the code has them: the routing
    protocol is compared unstripped, and `agregar_vlan` tests the id, name,
    interface and mode of a VLAN row raw.
  - Addresses are checked by `validar_ip`.
  - The clock rate and the EIGRP ASN are checked with `str.isdigit()`.
  - VLAN rows are admitted into the VLAN table by `agregar_vlan`.
  - The separate dotted-quad checker `validar_formato_ip` is modelled too.
- `cisco.py`, the earlier version:
  - A single `generar_comandos` with no stripping and no validation.
  - The banner is always framed by `#`.
  - SSH comes before the interface reset.
  - The DHCP sub-lines are indented by one space.
  - There is no VLAN section.

Files:

- `request.dfy` (`ConfigRequest`): the form as an immutable record, one
  sub-record per tab. A VLAN table row is a record too.
- `py_strings.dfy` (`PyStrings`) models the Python primitives the generators use:
  - `str.strip()`, with the full set of characters for which `str.isspace()`
    holds.
  - `str.isdigit()`, for ASCII digits only.
  - `int(str)`: surrounding whitespace, a sign, and `_` between digits. The
    whitespace it skips is that of `str.isspace()` minus the four separators
    U+001C..U+001F, which `int()` does not skip. A text of more than 4300
    digits (`sys.get_int_max_str_digits()` at its default, leading zeros
    included, underscores and sign not) is refused.
  - `str.split(sep)`.
- `ip_format.dfy` (`IpFormat`): `validar_formato_ip`. The regular
  expression's `$` also matches before a final newline, so the model accepts
  `"a.b.c.d\n"` just as the Python code does.
- `vlan_table.dfy` (`VlanTable`): the admission rule of `agregar_vlan`. It
  also has the class `VlanTree`, whose `Add` appends an admitted row to its
  `entries`.
- `cisco2.dfy` (`Cisco2`): the current generator.
  - One function per block gives the block's lines.
  - Imperative methods build the list step by step, as the source does. Each
    method is proved equal to its block function.
  - Lemmas state each block's shape, the frame lines, the routing choice, and
    the VLAN output.
- `cisco1.dfy` (`Cisco1`): the earlier generator.
  - It has the same structure as `Cisco2`.
  - Lemmas compare it with the current version block by block.

`validar_ip` wraps `ipaddress.ip_address`, a library call. It is the
parameter `validIp: string -> bool` of every member of `Cisco2` that needs
it, so nothing proved depends on how it decides. It accepts IPv6 and refuses
IPv4 octets with leading zeros, so it is not the same as `validar_formato_ip`.
The model never equates the two.

Two behaviours of the code are worth stating plainly:

- A banner is framed by `$`, or by `#` when its text holds a `$`. A banner
  that holds both `$` and `#` is therefore framed by `#`, a character it
  contains (`Cisco2.BannerFraming`, `Cisco2.BannerWithBothDelimiters`).
- The address gate of the generators is `ipaddress.ip_address`, not a
  dotted-quad check. The model leaves it as a parameter.

## Model

| member | source | states |
|---|---|---|
| PyStrings.StripEmptyIffAllSpace | cisco2.py:696-697 | a stripped field is empty exactly when the raw field is empty or all whitespace |
| PyStrings.StripShape | cisco2.py:696 | `strip()` returns an infix of its input that neither starts nor ends with whitespace, and only whitespace was removed on either side |
| PyStrings.StripIdempotent | cisco2.py:696 | stripping twice gives the same text as stripping once |
| PyStrings.StripPadded | cisco2.py:632 | surrounding spaces are removed, so `int()` of a padded numeral equals `int()` of the numeral |
| PyStrings.PyIntDecimal | cisco2.py:632 | `int()` of the base-ten numeral of n is n, unless the numeral has more than 4300 digits, when it fails |
| PyStrings.PyIntDigits | cisco2.py:689 | `int()` of a run of ASCII digits, with or without one trailing newline, is its value when the run has at most 4300 digits, and fails otherwise |
| PyStrings.UnderscoredValue | cisco2.py:632 | for two runs of ASCII digits `a` and `b`, `int(a + "_" + b)` reads as the digits `a + b`, as if the underscore were absent: their value when there are at most 4300 of them, a failure otherwise |
| PyStrings.LongNumeralRefused | cisco2.py:632 | `int()` refuses a run of more than 4300 ASCII digits, leading zeros counted, with or without a trailing newline |
| PyStrings.DoubleUnderscoreRefused | cisco2.py:632 | two underscores in a row between digits make `int()` fail |
| PyStrings.PyIntNotBlank | cisco2.py:632 | `int()` never succeeds on an empty or all-whitespace text |
| PyStrings.IntSkipsLessThanStrip | cisco2.py:632 | `int()` skips a leading space but not a leading U+001C, which `strip()` removes |
| PyStrings.Decimal | cisco2.py:632 | the numeral of n is all digits, one digit below 10, with no leading zero from 10 on |
| PyStrings.DecimalValue | cisco2.py:632 | reading the numeral of n back gives n |
| PyStrings.DecimalLength | cisco2.py:686 | the numeral of n has at most three digits exactly when n < 1000 |
| PyStrings.Split | cisco2.py:689 | `split(sep)` gives at least one piece, and no piece holds the separator |
| PyStrings.SplitPrefix | cisco2.py:689 | splitting `x + sep + y`, where x has no separator, gives x followed by the pieces of y |
| PyStrings.SplitAppend | cisco2.py:689 | appending a non-separator character extends the last piece only |
| IpFormat.PatternBody | cisco2.py:686-687 | the text the pattern sees is the input, or the input without one final newline |
| IpFormat.ValidFormatIpMeaning | cisco2.py:684-689 | `validar_formato_ip` holds exactly when the text is four dot-separated groups of 1-3 ASCII digits, optionally followed by one newline, each group denoting at most 255 |
| IpFormat.PiecesReadAsGroups | cisco2.py:689 | when the pattern matches, `int()` of the i-th piece of `split('.')` is the value of the i-th group |
| IpFormat.Join4Valid | cisco2.py:684-689 | four digit groups joined by dots pass exactly when each has at most three digits and value at most 255 |
| IpFormat.DottedQuadValid | cisco2.py:684-689 | the dotted quad a.b.c.d passes exactly when every number is at most 255 |
| IpFormat.TrailingNewlineAccepted | cisco2.py:686-689 | a valid dotted quad followed by a newline passes too |
| IpFormat.LeadingZerosAccepted | cisco2.py:686-689 | `010.001.000.255` passes: leading zeros are allowed |
| VlanTable.NumeralInRange | cisco2.py:631-634 | the id given as the numeral of n reads as in range exactly when 1 <= n <= 4094 |
| VlanTable.Id5000OutOfRange | cisco2.py:631-634 | the id `5000` is out of range |
| VlanTable.AdmitNumeral | cisco2.py:627-639 | a row whose id is the numeral of n is admitted exactly when 1 <= n <= 4094 and name, interface and mode are non-empty |
| VlanTable.Id5000Refused | cisco2.py:627-639 | a row with id `5000` is refused whatever its other fields |
| VlanTable.UnderscoredIdAdmitted | cisco2.py:627-639 | the id `4_094` is admitted, since `int()` reads it as 4094 |
| VlanTable.SeparatorIdRefused | cisco2.py:631-637 | an id with a leading U+001C is refused, since `int()` does not skip it |
| VlanTable.LongIdRefused | cisco2.py:631-637 | an all-digit id of more than 4300 digits is refused, whatever number it denotes |
| VlanTable.ZeroPaddedOneRefused | cisco2.py:631-637 | 4300 zeros followed by `1` are refused, though they denote 1 |
| VlanTable.PaddedIdAdmitted | cisco2.py:627-639 | a space-padded id in range is admitted, since `int()` ignores the padding |
| VlanTable.VlanTree.constructor | cisco2.py:572 | the table starts empty |
| VlanTable.VlanTree.Add | cisco2.py:620-645 | the row is added exactly when it is admissible; then it is appended at the end and earlier rows are unchanged, otherwise the table is unchanged; every stored row stays admissible |
| Cisco2.BasicCommands | cisco2.py:691-740 | the basic block is the prologue, then the identity lines, the LAN block and the reset block |
| Cisco2.SerialCommands | cisco2.py:742-770 | the list built equals the serial block |
| Cisco2.SshCommands | cisco2.py:772-791 | the list built equals the SSH block |
| Cisco2.DhcpCommands | cisco2.py:793-815 | the list built equals the DHCP block |
| Cisco2.RoutingCommands | cisco2.py:817-852 | the list built equals the routing block |
| Cisco2.VlanCommands | cisco2.py:854-872 | the loop over the rows followed by the filter yields one block per row in table order, without the empty placeholder |
| Cisco2.GenerateCommands | cisco2.py:874-889 | the output is basic, serial, SSH, DHCP, routing and VLAN blocks in that order, then `exit` / `write memory` |
| Cisco2.CommandsFrame | cisco2.py:874-889 | every output has at least four lines, starts `enable` / `configure terminal` and ends `exit` / `write memory` |
| Cisco2.BlankRequestCommands | cisco2.py:691-889 | with every text field empty or whitespace only and no VLAN rows, the output is exactly the four frame lines, whatever the protocol and the check box |
| Cisco2.HostnameOnlyCommands | cisco2.py:693-697 | a hostname alone adds the single line `hostname <stripped name>` right after the prologue |
| Cisco2.HostnameR1 | cisco2.py:693-697 | hostname `R1` alone gives `enable`, `configure terminal`, `hostname R1`, `exit`, `write memory` |
| Cisco2.BannerFraming | cisco2.py:712-714 | the delimiter is `$` exactly when the banner has no `$`, and `#` otherwise; it occurs in the banner exactly when both occur; the line is `banner motd `, the delimiter, the banner, the delimiter |
| Cisco2.BannerWithBothDelimiters | cisco2.py:712-714 | `a$b#c` is framed by `#`, a character it contains |
| Cisco2.IdentityBanner | cisco2.py:696-714 | the identity block ends with the banner line exactly when the stripped banner is non-empty, and otherwise has no banner line |
| Cisco2.LanBlockShape | cisco2.py:717-728 | the four LAN lines `interface <name>`, `ip address <ip> <mask>`, `no shutdown`, `exit`, on the stripped fields, are emitted exactly when name, address and mask are non-empty after stripping and the address passes; otherwise nothing |
| Cisco2.LanMaskNotChecked | cisco2.py:717-728 | replacing a non-empty mask by another non-empty mask never changes whether the block is emitted |
| Cisco2.ResetBlockShape | cisco2.py:731-738 | the five reset lines `interface <name>` (stripped), `shutdown`, `no ip address`, `no clock rate`, `exit` are emitted exactly when the interface field is not blank |
| Cisco2.SerialBlockShape | cisco2.py:746-770 | empty exactly when a field is missing or the address fails; otherwise interface line, address line, `clock rate` exactly when the rate is all digits, `no shutdown` exactly when activated, `exit`; 3 to 5 lines |
| Cisco2.SshBlockShape | cisco2.py:776-789 | the SSH block is the fixed eight lines exactly when domain, user and password are non-empty, otherwise nothing |
| Cisco2.DhcpBlockShape | cisco2.py:797-813 | emitted exactly when pool, network, mask and gateway are non-empty; the three pool lines, preceded by the excluded range exactly when both ends are given and pass |
| Cisco2.DhcpHalfRangeDropped | cisco2.py:802-809 | with one end of the range missing only the pool lines are emitted |
| Cisco2.RoutingChoice | cisco2.py:820-852 | RIP exactly for `rip` with a network, OSPF exactly for `ospf` with network, wildcard and area, EIGRP exactly for `eigrp` with a network and an all-digit ASN, nothing otherwise |
| Cisco2.RoutingAtMostOneRouter | cisco2.py:820-852 | the routing block holds at most one `router` line |
| Cisco2.EigrpAsnExamples | cisco2.py:840-848 | ASN `abc` gives nothing; ASN `65000` gives `router eigrp 65000`, `network 10.0.0.0`, `exit` |
| Cisco2.VlanBlockShape | cisco2.py:861-870 | a row's block is 8 lines in access mode and 7 otherwise; the access line appears exactly in access mode; no line is empty |
| Cisco2.DropEmptyAppend | cisco2.py:872 | the filter distributes over concatenation |
| Cisco2.DropEmptyBlock | cisco2.py:861-872 | filtering a listed row removes exactly its placeholder |
| Cisco2.FilteredVlanLines | cisco2.py:858-872 | filtering the listed rows gives the rows' blocks in table order |
| Cisco2.VlanLinesAppend | cisco2.py:858-870 | the lines of two row sequences concatenated are the lines of the first followed by those of the second |
| Cisco2.VlanLinesSingle | cisco2.py:858-870 | one row yields its block |
| Cisco2.VlanLinesShape | cisco2.py:858-872 | the VLAN output has 7 lines per row plus one per access row, and no empty line |
| Cisco2.VlanLinesIdsAdmitted | cisco2.py:627-639 | when every row was admitted, every `vlan <id>` line carries an id that reads as an integer in 1..4094 |
| Cisco2.VlanLinesNever5000 | cisco2.py:627-639 | an admitted table never yields `vlan 5000` |
| Cisco2.TableNever5000 | cisco2.py:627-639 | the VLAN table's invariant alone guarantees that its rows yield no `vlan 5000` |
| Cisco2.CommandsNever5000 | cisco2.py:874-889 | for any form and any table the invariant admits, the whole generated configuration holds no `vlan 5000` line |
| Cisco1.AppendIdentity | cisco.py:25-35 | the identity appends are hostname, enable secret, console block and banner, each when its raw field is non-empty |
| Cisco1.AppendLan | cisco.py:37-41 | the LAN append equals the LAN block |
| Cisco1.AppendSerial | cisco.py:50-57 | the serial append equals the serial block |
| Cisco1.AppendSsh | cisco.py:64-74 | the SSH append equals the SSH block |
| Cisco1.AppendReset | cisco.py:78-83 | the reset append equals the reset block |
| Cisco1.AppendDhcp | cisco.py:93-98 | the DHCP append equals the DHCP block |
| Cisco1.AppendRouting | cisco.py:107-121 | the routing append equals the routing block |
| Cisco1.GenerateCommands | cisco.py:13-124 | the output is prologue, identity, LAN, serial, SSH, reset, DHCP and routing blocks, then `exit` / `write memory` |
| Cisco1.CommandsFrame | cisco.py:13-124 | every output starts `enable` / `configure terminal` and ends `exit` / `write memory` |
| Cisco1.EmptyFieldsCommands | cisco.py:14-123 | with every text field empty the output is exactly the four frame lines, whatever the protocol and the check box |
| Cisco1.BannerAlwaysHash | cisco.py:34-35 | a non-empty banner is framed by `#` whatever it contains, with the text as typed in between |
| Cisco1.BannerVersionsDiffer | cisco.py:34-35 | `Hi` is framed by `#` here and by `$` in the current version |
| Cisco1.HostnameVerbatim | cisco.py:17-26 | a non-empty hostname, whitespace only included, is emitted verbatim right after the prologue |
| Cisco1.BlankHostnameVersions | cisco.py:25-26 | a one-space hostname gives five lines including `hostname` followed by two spaces, while the current version gives four |
| Cisco1.LanBlockShape | cisco.py:37-41 | the four LAN lines are emitted exactly when name, address and mask are non-empty |
| Cisco1.LanAcceptsAnyAddress | cisco.py:37-41 | an address that is no address at all is emitted |
| Cisco1.SerialBlockShape | cisco.py:50-57 | empty exactly when a field is missing; otherwise interface and address lines, `clock rate` exactly when the rate is non-empty, `no shutdown` exactly when activated, `exit` |
| Cisco1.SshThenReset | cisco.py:64-83 | the SSH block is followed directly by the interface reset block, both right after the serial block |
| Cisco1.DhcpBlockShape | cisco.py:93-98 | emitted exactly when pool, network, mask and gateway are non-empty; pool sub-lines start with a space; the excluded range comes first exactly when both ends are non-empty |
| Cisco1.EigrpAnyAsn | cisco.py:118-121 | EIGRP is emitted for any non-empty ASN |
| Cisco1.EigrpAsnVersions | cisco.py:118-121 | ASN `abc` is emitted here and refused by the current version |
| Cisco1.RoutingChoice | cisco.py:107-121 | RIP, OSPF or EIGRP exactly under their conditions, first match winning, nothing otherwise |
| Cisco1.LanVersionsAgree | cisco.py:37-41 | on stripped fields with a passing address both versions give the same LAN block |
| Cisco1.SerialVersionsAgree | cisco.py:50-57 | on stripped fields, a passing address and a rate that is absent or all digits, both versions give the same serial block |
| Cisco1.SshVersionsAgree | cisco.py:64-74 | on stripped fields both versions give the same SSH block |
| Cisco1.DhcpVersionsDiffer | cisco.py:93-98 | on stripped fields the DHCP blocks agree exactly when neither version emits one |
| Cisco1.RoutingVersionsAgree | cisco.py:107-121 | on stripped fields and an ASN that is absent or all digits both versions give the same routing block |

## Left out

- The Tkinter interface is presentation only and is not modelled: widgets,
  tooltips, the preview and clipboard, message boxes, the status bar, button
  enabling, and the module-level widget construction of `cisco.py`.
- Sending over the serial port and monitoring the device are not modelled.
  This covers backup, connectivity tests and `listar_puertos`, all of which
  are pyserial I/O, threads, queues and `time.sleep` pacing.
- Templates are not modelled: loading and saving them is JSON and
  file-system I/O.
- Logging calls and the text-file export are not modelled.
- `eliminar_vlan` is not modelled, because it depends on which rows are
  selected in the interface.
- `validar_ip` is a parameter. The body of `ipaddress.ip_address` is library
  code.
- IpFormat.ValidFormatIp: the pattern's `\d` is modelled as the ASCII
  digits `0`..`9`. Python's `\d` on a str pattern matches every Unicode
  decimal digit, and `int()` reads them, so the source also accepts
  addresses such as `"١.1.1.1"` that the model refuses.
- IpFormat.ValidFormatIpMeaning: it characterises the accepted addresses over ASCII
  digit groups only, for the same reason.
- `str.isdigit()` is modelled for ASCII digits only. Python's `isdigit()` is
  also true of other Unicode digits, superscripts such as `²` included, so
  the source emits `clock rate ²` where the model emits no clock-rate line.
- `int()` is modelled for ASCII digits only. Python's `int()` also reads
  other Unicode decimal digits.
- When the rows are read back from the table, Tkinter applies `int()` to
  every stored field that `int()` can read. An admitted id `4_094` or ` 5 `
  is then printed as `vlan 4094` or `vlan 5`, and a name `007` as `name 7`.
  The model prints every field as it was stored.
- The fallback of `generar_comandos` to an empty list when a step raises
  (cisco2.py:891-894) has no counterpart: every step of the model is total,
  so the generators below it cannot raise.
- Cisco1.GenerateCommands: the source is one function; the model splits it
  into one appending method per commented section (`AppendIdentity` through
  `AppendRouting`). Each method grows the list it is handed, in the source's
  order.
- Cisco2.BasicCommands and the other `Cisco2` methods append each `extend`
  as one concatenation of the listed lines, not one line at a time.
