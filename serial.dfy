/**
 * The serial port: the data byte SB at 0xFF01 and the control byte SC at
 * 0xFF02, whose bit 0 is the start flag and bit 7 the transfer flag.  The
 * class holds the two fields the program updates; `SerialState` is their
 * value, on which the functions say what each operation does.
 */
module Serial {
  import opened Wrappers
  import opened Addresses

  /** The error a serial access panics with. */
  datatype Fault = UnhandledRead(addr: Addr) | UnhandledWrite(addr: Addr)

  datatype SerialState = SerialState(data: bv8, ctrl: bv8)

  const ResetState := SerialState(0, 0)

  /** Bit 7 of SC: a transfer is requested. */
  const TransferBit: bv8 := 0x80

  function ReadSpec(s: SerialState, addr: Addr): (res: Result<bv8, Fault>)
    ensures res.Err? <==> addr != 0xFF01 && addr != 0xFF02
  {
    if addr == 0xFF01 then Ok(s.data)
    else if addr == 0xFF02 then Ok(s.ctrl)
    else Err(UnhandledRead(addr))
  }

  function WriteSpec(s: SerialState, addr: Addr, val: bv8): (res: Result<SerialState, Fault>)
    ensures res.Err? <==> addr != 0xFF01 && addr != 0xFF02
  {
    if addr == 0xFF01 then Ok(s.(data := val))
    else if addr == 0xFF02 then Ok(s.(ctrl := val))
    else Err(UnhandledWrite(addr))
  }

  /** A byte written to either register reads back; the other register keeps its value. */
  lemma ReadAfterWrite(s: SerialState, addr: Addr, other: Addr, val: bv8)
    requires addr == 0xFF01 || addr == 0xFF02
    ensures WriteSpec(s, addr, val).Ok?
    ensures ReadSpec(WriteSpec(s, addr, val).value, addr) == Ok(val)
    ensures other != addr ==> ReadSpec(WriteSpec(s, addr, val).value, other) == ReadSpec(s, other)
  {
  }

  /**
   * The register side of printing: a requested transfer is acknowledged by
   * clearing bit 7 of SC.  The printing of the byte itself is output.
   */
  function PrintSpec(s: SerialState): (r: SerialState)
    ensures r.data == s.data
    ensures r.ctrl & TransferBit == 0
    ensures r.ctrl & 0x7F == s.ctrl & 0x7F
  {
    if s.ctrl & TransferBit != 0 then s.(ctrl := s.ctrl & 0x7F) else s
  }

  /** Printing twice acknowledges nothing more than printing once. */
  lemma PrintIdempotent(s: SerialState)
    ensures PrintSpec(PrintSpec(s)) == PrintSpec(s)
    ensures s.ctrl & TransferBit == 0 ==> PrintSpec(s) == s
  {
  }

  class SerialPort {
    var data: bv8
    var ctrl: bv8

    function State(): SerialState
      reads this
    {
      SerialState(data, ctrl)
    }

    constructor ()
      ensures State() == ResetState
    {
      data, ctrl := 0, 0;
    }

    method Reset()
      modifies this
      ensures State() == ResetState
    {
      data := 0;
      ctrl := 0;
    }

    method Read(addr: Addr) returns (res: Result<bv8, Fault>)
      ensures res == ReadSpec(State(), addr)
    {
      if addr == 0xFF01 {
        return Ok(data);
      } else if addr == 0xFF02 {
        return Ok(ctrl);
      }
      return Err(UnhandledRead(addr));
    }

    /** On a panic the port is left as it was. */
    method Write(addr: Addr, val: bv8) returns (res: Result<(), Fault>)
      modifies this
      ensures res.Ok? <==> WriteSpec(old(State()), addr, val).Ok?
      ensures res.Ok? ==> State() == WriteSpec(old(State()), addr, val).value
      ensures res.Err? ==> State() == old(State()) && res.error == WriteSpec(old(State()), addr, val).error
    {
      if addr == 0xFF01 {
        data := val;
      } else if addr == 0xFF02 {
        ctrl := val;
      } else {
        return Err(UnhandledWrite(addr));
      }
      return Ok(());
    }

    method Print()
      modifies this
      ensures State() == PrintSpec(old(State()))
    {
      if ctrl & TransferBit != 0 {
        ctrl := ctrl & 0x7F;
      }
    }
  }
}
