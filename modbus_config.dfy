/** The configuration validator of the Modbus gateway sample: register-window
    arithmetic for the four Modbus tables and the checks that decide whether a
    loaded configuration may be used.

    Sums of two u16 values are taken over int here. The source adds them as u16,
    which can overflow at three places: the validity test of a table window, the
    window membership test, and the end of an alias's registers. All three are
    also modelled as written, by the members whose names end in AsWritten, with
    lemmas that show where they differ from the sums over int. */
module ModbusConfig {
  import opened MachineInts
  import opened Wrappers

  /** The data type an alias reads from its register or registers. */
  datatype AliasType =
    | Default | Boolean | Byte | SByte | UInt16 | Int16
    | UInt32 | Int32 | UInt64 | Int64 | Float | Double
  {
    /** Bits in a value of the type; Default stands for an unsigned 16-bit word. */
    function BitWidth(): nat
    {
      match this
      case Boolean => 1
      case Byte | SByte => 8
      case Default | UInt16 | Int16 => 16
      case UInt32 | Int32 | Float => 32
      case UInt64 | Int64 | Double => 64
    }

    /** The number of 16-bit registers a value of the type occupies: the
        fewest words that hold its bits. */
    function SizeInWords(): (r: u16)
      ensures r == 1 || r == 2 || r == 4
      ensures (r - 1) * 16 < BitWidth() <= r * 16
    {
      match this
      case Default | Boolean | Byte | SByte | UInt16 | Int16 => 1
      case UInt32 => 2
      case Int32 => 2
      case UInt64 => 4
      case Int64 => 4
      case Float => 2
      case Double => 4
    }
  }

  /** A named alias for a register, given by its Modbus number. */
  datatype Alias = Alias(name: string, number: u16, dataType: AliasType, writable: bool)

  /** A table window must start below this address ... */
  const BASE_ADDRESS_LIMIT := 9998
  /** ... and must end (exclusively) at or below this one. */
  const END_ADDRESS_LIMIT := 9999
  /** The highest end an alias in the input registers may have. */
  const INPUT_REGISTERS_MAX := 39999
  /** The highest end an alias in the output registers may have. */
  const OUTPUT_REGISTERS_MAX := 49999

  /** The window [baseAddress, baseAddress + count) of one Modbus table. */
  datatype TableConfig = TableConfig(baseAddress: u16, count: u16)
  {
    /** The default configuration of a table: empty, at address 0. */
    static function Default(): (t: TableConfig)
      ensures t.Valid() && t.count == 0
      ensures forall addr: u16 :: !t.InRange(addr)
    {
      TableConfig(0, 0)
    }

    /** The window starts below 9998 and ends at or below 9999. */
    predicate Valid()
      ensures Valid() ==> baseAddress + count < 0x1_0000
      ensures Valid() ==> forall addr: u16 :: InRange(addr) ==> addr < END_ADDRESS_LIMIT
    {
      baseAddress < BASE_ADDRESS_LIMIT && baseAddress + count <= END_ADDRESS_LIMIT
    }

    /** The same test with the sum taken as u16, wrapping modulo 2^16. */
    predicate ValidAsWritten()
      ensures ValidAsWritten() <==>
        Valid() ||
        (baseAddress < BASE_ADDRESS_LIMIT && baseAddress + count >= 0x1_0000
         && baseAddress + count - 0x1_0000 <= END_ADDRESS_LIMIT)
    {
      !(baseAddress >= BASE_ADDRESS_LIMIT || WrappingAddU16(baseAddress, count) > END_ADDRESS_LIMIT)
    }

    /** addr lies in the window. */
    predicate InRange(addr: u16)
      ensures count == 0 ==> !InRange(addr)
      ensures InRange(addr) ==> 0 < count && baseAddress <= addr
    {
      addr >= baseAddress && addr < baseAddress + count
    }

    /** The same test with the sum taken as u16, wrapping modulo 2^16. */
    predicate InRangeAsWritten(addr: u16)
      ensures baseAddress + count < 0x1_0000 ==> (InRangeAsWritten(addr) <==> InRange(addr))
      ensures baseAddress + count >= 0x1_0000 ==> !InRangeAsWritten(addr)
    {
      addr >= baseAddress && addr < WrappingAddU16(baseAddress, count)
    }
  }

  /** A table is valid exactly when its base is below 9998 and every address
      in its window is below 9999. */
  lemma ValidIffWindowBelowLimit(t: TableConfig)
    ensures t.Valid() <==>
      t.baseAddress < BASE_ADDRESS_LIMIT && forall addr: u16 :: t.InRange(addr) ==> addr < END_ADDRESS_LIMIT
  {
    if t.baseAddress < BASE_ADDRESS_LIMIT && !t.Valid() {
      var last := t.baseAddress + t.count - 1;
      var top: u16 := if last < 0x1_0000 then last else 0xFFFF;
      assert t.InRange(top) && top >= END_ADDRESS_LIMIT;
    }
  }

  /** On a valid table the u16 sums of the source cannot overflow, so the
      source's tests and the ones over int agree. */
  lemma ValidTableDoesNotOverflow(t: TableConfig)
    requires t.Valid()
    ensures t.baseAddress + t.count < 0x1_0000
    ensures t.ValidAsWritten()
    ensures forall addr: u16 :: t.InRange(addr) <==> t.InRangeAsWritten(addr)
  {
  }

  /** The source's membership test and the one over int disagree only on a
      window that is not valid, so the answer of the corrected validator, which
      tests windows over int, does not depend on which of the two the per-alias
      checks use. */
  lemma InRangeDiffersOnlyOnInvalidWindow(t: TableConfig, addr: u16)
    ensures t.InRange(addr) != t.InRangeAsWritten(addr) ==> !t.Valid()
  {
  }

  /** Without overflow checks the source's window test accepts (1, 65535),
      whose end wraps to 0; its membership test then finds no address in the
      window, though 5 lies in it. */
  lemma InRangeAsWrittenMissesOnAcceptedWindow()
    ensures TableConfig(1, 0xFFFF).ValidAsWritten()
    ensures TableConfig(1, 0xFFFF).InRange(5)
    ensures !TableConfig(1, 0xFFFF).InRangeAsWritten(5)
  {
    assert WrappingAddU16(1, 0xFFFF) == 0;
  }

  /** On the invalid window (9998, 65535) the source's membership test wraps
      its end to 9997 and finds 9998 outside; the test over int finds it inside. */
  lemma InRangeAsWrittenWrapsOnInvalidWindow()
    ensures TableConfig(9998, 0xFFFF).InRange(9998)
    ensures !TableConfig(9998, 0xFFFF).InRangeAsWritten(9998)
    ensures !TableConfig(9998, 0xFFFF).Valid()
  {
    assert WrappingAddU16(9998, 0xFFFF) == 9997;
  }

  /** The window test differs from the source's only where the end passes
      65535: there it rejects the window that the wrapped sum lets through. */
  lemma ValidIffAsWrittenWithoutWrap(t: TableConfig)
    ensures t.Valid() <==> t.ValidAsWritten() && t.baseAddress + t.count < 0x1_0000
  {
  }

  /** The source's window test accepts a window whose end lies past 65535:
      1 + 65535 wraps to 0, which passes the test against 9999. */
  lemma ValidAsWrittenAcceptsWrappedWindow()
    ensures TableConfig(1, 0xFFFF).ValidAsWritten()
    ensures !TableConfig(1, 0xFFFF).Valid()
  {
    assert WrappingAddU16(1, 0xFFFF) == 0;
  }

  /** The four Modbus tables (the Table enum is not part of this model;
      these are the variants the validator matches on). */
  datatype Table = OutputCoils | InputCoils | InputRegisters | OutputRegisters
  {
    predicate IsCoil()
    {
      this == OutputCoils || this == InputCoils
    }

    /** The bound on the end of an alias in a register table. */
    function RegisterMax(): nat
    {
      if this == InputRegisters then INPUT_REGISTERS_MAX else OUTPUT_REGISTERS_MAX
    }
  }

  /** Table::table_from_number, which is not part of this model: it maps an
      alias number to a table and an address within that table. */
  type TableLookup = u16 -> (Table, u16)

  /** A coil alias must be Boolean or Default; register aliases may have any type. */
  predicate CoilTypeOk(table: Table, dataType: AliasType)
  {
    table.IsCoil() ==> dataType == Boolean || dataType == Default
  }

  /** In a register table, number + the type's word count must not pass the
      table's maximum; coil aliases are not subject to this check. */
  predicate RegisterEndOk(table: Table, number: u16, dataType: AliasType)
  {
    !table.IsCoil() ==> number + dataType.SizeInWords() <= table.RegisterMax()
  }

  /** The same check with the end taken as u16, wrapping modulo 2^16. */
  predicate RegisterEndOkAsWritten(table: Table, number: u16, dataType: AliasType)
    ensures number + dataType.SizeInWords() < 0x1_0000 ==>
      (RegisterEndOkAsWritten(table, number, dataType) <==> RegisterEndOk(table, number, dataType))
    ensures number + dataType.SizeInWords() >= 0x1_0000 ==> RegisterEndOkAsWritten(table, number, dataType)
  {
    !table.IsCoil() ==> !(WrappingAddU16(number, dataType.SizeInWords()) > table.RegisterMax())
  }

  /** The end check differs from the source's only where the end passes
      65535: there it rejects the alias that the wrapped sum lets through. */
  lemma RegisterEndOkIffAsWrittenWithoutWrap(table: Table, number: u16, dataType: AliasType)
    ensures RegisterEndOk(table, number, dataType) <==>
      RegisterEndOkAsWritten(table, number, dataType)
      && (table.IsCoil() || number + dataType.SizeInWords() < 0x1_0000)
  {
  }

  /** The source's end check passes an alias whose registers run past 65535:
      65534 + 4 wraps to 2, which passes the test against 49999. */
  lemma RegisterEndAsWrittenMissesWrap()
    ensures RegisterEndOkAsWritten(OutputRegisters, 0xFFFE, Double)
    ensures !RegisterEndOk(OutputRegisters, 0xFFFE, Double)
  {
    assert WrappingAddU16(0xFFFE, 4) == 2;
  }

  /** No two aliases share a name. */
  predicate NamesDistinct(aliases: seq<Alias>)
  {
    forall i, j :: 0 <= i < j < |aliases| ==> aliases[i].name != aliases[j].name
  }

  /** The set of the aliases' names, as the validator collects it. */
  function NameSet(aliases: seq<Alias>): (names: set<string>)
    ensures |names| <= |aliases|
  {
    if aliases == [] then {} else NameSet(aliases[..|aliases| - 1]) + {aliases[|aliases| - 1].name}
  }

  /** The name set holds the name of every alias and nothing else. */
  lemma {:induction false} NameSetMembers(aliases: seq<Alias>)
    ensures forall i :: 0 <= i < |aliases| ==> aliases[i].name in NameSet(aliases)
    ensures forall n :: n in NameSet(aliases) ==> exists i :: 0 <= i < |aliases| && aliases[i].name == n
  {
    if aliases != [] {
      var init := aliases[..|aliases| - 1];
      NameSetMembers(init);
      assert forall i :: 0 <= i < |init| ==> aliases[i] == init[i];
    }
  }

  /** Appending an alias keeps the names distinct exactly when its name is new. */
  lemma NamesDistinctSnoc(init: seq<Alias>, last: Alias)
    ensures NamesDistinct(init + [last]) <==>
      NamesDistinct(init) && forall i :: 0 <= i < |init| ==> init[i].name != last.name
  {
    var all := init + [last];
    assert forall i :: 0 <= i < |init| ==> all[i] == init[i];
    assert all[|init|] == last;
  }

  /** Collecting the names loses none of them exactly when the names are distinct,
      which is what comparing the set's size with the list's length decides. */
  lemma {:induction false} DistinctIffNoNameCollapses(aliases: seq<Alias>)
    ensures |NameSet(aliases)| == |aliases| <==> NamesDistinct(aliases)
  {
    if aliases != [] {
      var init, last := aliases[..|aliases| - 1], aliases[|aliases| - 1];
      assert aliases == init + [last];
      DistinctIffNoNameCollapses(init);
      NamesDistinctSnoc(init, last);
      NameSetMembers(init);
      if last.name in NameSet(init) {
        assert NameSet(aliases) == NameSet(init);
        var i :| 0 <= i < |init| && init[i].name == last.name;
      } else {
        assert |NameSet(aliases)| == |NameSet(init)| + 1;
      }
    }
  }

  /** Collects the aliases' names into a set, one alias at a time. */
  method CollectNames(aliases: seq<Alias>) returns (names: set<string>)
    ensures names == NameSet(aliases)
  {
    names := {};
    var i := 0;
    while i < |aliases|
      invariant 0 <= i <= |aliases|
      invariant names == NameSet(aliases[..i])
    {
      assert aliases[..i + 1][..i] == aliases[..i];
      names := names + {aliases[i].name};
      i := i + 1;
    }
    assert aliases[..|aliases|] == aliases;
  }

  /** The whole configuration of the gateway. */
  datatype Config = Config(
    slaveAddress: string,
    readInterval: u32,
    inputCoils: TableConfig,
    outputCoils: TableConfig,
    inputRegisters: TableConfig,
    outputRegisters: TableConfig,
    aliases: Option<seq<Alias>>)
  {
    /** The window of the given table. */
    function TableConfigFor(table: Table): TableConfig
    {
      match table
      case OutputCoils => outputCoils
      case InputCoils => inputCoils
      case InputRegisters => inputRegisters
      case OutputRegisters => outputRegisters
    }

    /** The alias's address lies in the window of the table its number names. */
    predicate Addressable(lookup: TableLookup, a: Alias)
    {
      var (table, addr) := lookup(a.number);
      TableConfigFor(table).InRange(addr)
    }

    /** The three per-alias checks. */
    predicate AliasOk(lookup: TableLookup, a: Alias)
    {
      var (table, _) := lookup(a.number);
      Addressable(lookup, a) && CoilTypeOk(table, a.dataType) && RegisterEndOk(table, a.number, a.dataType)
    }

    /** The checks made for one alias, each failing one clearing the flag. */
    method CheckAlias(lookup: TableLookup, a: Alias) returns (ok: bool)
      ensures ok <==> AliasOk(lookup, a)
    {
      ok := true;
      var number := a.number;
      var (table, addr) := lookup(number);
      var inRange := match table
        case OutputCoils => outputCoils.InRange(addr)
        case InputCoils => inputCoils.InRange(addr)
        case InputRegisters => inputRegisters.InRange(addr)
        case OutputRegisters => outputRegisters.InRange(addr);
      if !inRange {
        ok := false;
      }
      if table == OutputCoils || table == InputCoils {
        if a.dataType != Boolean && a.dataType != Default {
          ok := false;
        }
      } else {
        var cnt := a.dataType.SizeInWords();
        var end := number as int + cnt as int;
        var max := if table == InputRegisters then INPUT_REGISTERS_MAX else OUTPUT_REGISTERS_MAX;
        if end > max {
          ok := false;
        }
      }
    }

    /** The configuration is usable: a slave address is given, all four
        windows are valid and, when aliases are given, their names are
        distinct and each alias passes its three checks. Every check is made,
        whatever the earlier ones found. */
    method Valid(lookup: TableLookup) returns (valid: bool)
      ensures valid <==>
        && slaveAddress != []
        && inputCoils.Valid() && outputCoils.Valid()
        && inputRegisters.Valid() && outputRegisters.Valid()
        && (aliases.Some? ==>
              && NamesDistinct(aliases.value)
              && forall i :: 0 <= i < |aliases.value| ==> AliasOk(lookup, aliases.value[i]))
    {
      valid := true;
      if slaveAddress == [] {
        valid := false;
      }
      if !inputCoils.Valid() {
        valid := false;
      }
      if !outputCoils.Valid() {
        valid := false;
      }
      if !inputRegisters.Valid() {
        valid := false;
      }
      if !outputRegisters.Valid() {
        valid := false;
      }
      if aliases.Some? {
        var list := aliases.value;
        var names := CollectNames(list);
        DistinctIffNoNameCollapses(list);
        if |names| != |list| {
          valid := false;
        }
        ghost var before := valid;
        var i := 0;
        while i < |list|
          invariant 0 <= i <= |list|
          invariant valid <==> before && forall j :: 0 <= j < i ==> AliasOk(lookup, list[j])
        {
          var ok := CheckAlias(lookup, list[i]);
          if !ok {
            valid := false;
          }
          i := i + 1;
        }
      }
    }
  }
}
