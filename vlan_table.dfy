/** The VLAN table of the current generator: rows are admitted one at a time
    by `agregar_vlan` and appended at the end; the generator later reads them
    in table order. */
module VlanTable {
  import opened PyStrings
  import opened ConfigRequest

  const MinVlanId := 1
  const MaxVlanId := 4094

  /** `int(id)` succeeds and lies in 1..4094. */
  predicate IdInRange(id: string) {
    match PyInt(id)
    case Some(n) => MinVlanId <= n <= MaxVlanId
    case None => false
  }

  /** The admission rule of `agregar_vlan`: no field may be empty (the raw
      text, not stripped) and the id must read as an integer in range. */
  predicate Admissible(e: VlanEntry) {
    e.id != "" && e.name != "" && e.iface != "" && e.mode != "" && IdInRange(e.id)
  }

  /** The numeral of `n` is in range exactly when `n` is. */
  lemma {:induction false} NumeralInRange(n: nat)
    ensures IdInRange(Decimal(n)) <==> 1 <= n <= 4094
  {
    PyIntDecimal(n);
    DecimalShort(n);
  }

  lemma Id5000OutOfRange()
    ensures !IdInRange("5000")
  {
    assert Decimal(5000) == "5000";
    NumeralInRange(5000);
  }

  /** A row whose id is the numeral of `n` is admitted exactly when `n` is a
      valid VLAN number and the other three fields are filled in. */
  lemma {:induction false} AdmitNumeral(n: nat, name: string, iface: string, mode: string)
    ensures Admissible(VlanEntry(Decimal(n), name, iface, mode)) <==>
      1 <= n <= 4094 && name != "" && iface != "" && mode != ""
  {
    PyIntDecimal(n);
    DecimalShort(n);
  }

  /** An id of 5000 is refused, whatever the other fields hold. */
  lemma {:induction false} Id5000Refused(name: string, iface: string, mode: string)
    ensures !Admissible(VlanEntry("5000", name, iface, mode))
  {
    Id5000OutOfRange();
  }

  /** `int()` ignores surrounding whitespace, so a padded id is admitted. */
  lemma {:induction false} PaddedIdAdmitted(n: nat, name: string, iface: string, mode: string)
    requires 1 <= n <= 4094 && name != "" && iface != "" && mode != ""
    ensures Admissible(VlanEntry(" " + Decimal(n) + " ", name, iface, mode))
  {
    var d := Decimal(n);
    PyIntDecimal(n);
    DecimalShort(n);
    assert IsAsciiDigit(d[0]) && IsAsciiDigit(d[|d| - 1]);
    StripPadded(d);
  }

  /** `int()` reads `4_094` as 4094, so that id is admitted. */
  lemma UnderscoredIdAdmitted(name: string, iface: string, mode: string)
    requires name != "" && iface != "" && mode != ""
    ensures Admissible(VlanEntry("4_094", name, iface, mode))
  {
    assert IsDigits("4") && IsDigits("094");
    UnderscoredValue("4", "094");
    assert "4" + "_" + "094" == "4_094";
    assert "4" + "094" == "4094";
    assert DigitsValue("4094") == 4094 by {
      assert "4094"[..3] == "409" && "409"[..2] == "40" && "40"[..1] == "4" && "4"[..0] == "";
    }
  }

  /** `int()` does not skip a leading U+001C, so such an id is refused even
      though `strip()` would remove it. */
  lemma SeparatorIdRefused(name: string, iface: string, mode: string)
    ensures !Admissible(VlanEntry("\U{1C}5", name, iface, mode))
  {
    IntSkipsLessThanStrip();
  }

  /** An id of more than 4300 digits is refused, because `int()` refuses to
      read it, even when it denotes a number in range. */
  lemma LongIdRefused(id: string, name: string, iface: string, mode: string)
    requires IsDigits(id) && |id| > MaxStrDigits
    ensures !Admissible(VlanEntry(id, name, iface, mode))
  {
    LongNumeralRefused(id);
  }

  /** So 4300 zeros followed by `1`, which denote 1, are refused. */
  lemma ZeroPaddedOneRefused(name: string, iface: string, mode: string)
    ensures !Admissible(VlanEntry(seq(MaxStrDigits, _ => '0') + "1", name, iface, mode))
  {
    var id := seq(MaxStrDigits, _ => '0') + "1";
    assert forall i :: 0 <= i < |id| ==> IsAsciiDigit(id[i]) by {
      forall i | 0 <= i < |id| ensures IsAsciiDigit(id[i]) {
        if i < MaxStrDigits { assert id[i] == '0'; } else { assert id[i] == '1'; }
      }
    }
    LongIdRefused(id, name, iface, mode);
  }

  /** The rows shown in the VLAN table (`vlan_tree`). */
  class VlanTree {
    var entries: seq<VlanEntry>

    /** Every stored row was admitted. */
    ghost predicate Valid()
      reads this
    {
      forall i :: 0 <= i < |entries| ==> Admissible(entries[i])
    }

    constructor ()
      ensures Valid() && entries == []
    {
      entries := [];
    }

    /** `agregar_vlan`: admit the row and append it at the end, or leave the
        table unchanged. */
    method Add(id: string, name: string, iface: string, mode: string) returns (added: bool)
      requires Valid()
      modifies this
      ensures Valid()
      ensures added <==> Admissible(VlanEntry(id, name, iface, mode))
      ensures added ==> entries == old(entries) + [VlanEntry(id, name, iface, mode)]
      ensures !added ==> entries == old(entries)
    {
      if id == "" || name == "" || iface == "" || mode == "" {
        return false;
      }
      var parsed := PyInt(id);
      if !(parsed.Some? && MinVlanId <= parsed.value <= MaxVlanId) {
        return false;
      }
      entries := entries + [VlanEntry(id, name, iface, mode)];
      added := true;
    }
  }
}
