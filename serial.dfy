// The serial port registers: SB (0xFF01, the data byte) and SC (0xFF02, the
// control byte, of which only bits 0, 1 and 7 are declared).
module Serial {
  import opened Bits

  /** Both registers as values. */
  datatype SerialState = SerialState(data: u8, control: bv8)

  /** `SerialControl::from_bits_truncate`: keep shift clock, clock speed and start flag. */
  function TruncateControl(value: u8): (c: bv8)
    ensures c & 0x7C == 0
    ensures c & 0x83 == ToBv(value) & 0x83
  {
    ToBv(value) & 0x83
  }

  /**
   * A control byte reads back unchanged exactly when it uses only the
   * declared bits 0, 1 and 7; 0x81 (start a transfer on the internal
   * clock) is one.
   */
  lemma ControlRoundTrips(value: u8)
    ensures FromBv(TruncateControl(value)) == value <==> ToBv(value) & 0x7C == 0
  {
    var c := TruncateControl(value);
    if ToBv(value) & 0x7C == 0 {
      assert c == ToBv(value);
      ByteRoundTrip(value);
    }
    if FromBv(c) == value {
      BvRoundTrip(c);
    }
  }

  class Serial {
    var data: u8
    var control: bv8

    function State(): SerialState
      reads this
    {
      SerialState(data, control)
    }

    /** `Serial::new`: data and control are 0. */
    constructor ()
      ensures data == 0 && control == 0
    {
      data, control := 0, 0;
    }

    /** `get_data`. */
    function GetData(): u8
      reads this
    {
      data
    }

    /** `get_control`: the control bits as a byte. */
    function GetControl(): (v: u8)
      reads this
      ensures ToBv(v) == control
    {
      FromBv(control)
    }

    /** `write_data(v)`: SB holds `v`, SC is untouched. */
    method WriteData(value: u8)
      modifies this`data
      ensures GetData() == value
      ensures control == old(control)
    {
      data := value;
    }

    /** `write_control(v)`: SC reads back `v & 0x83`, SB is untouched. */
    method WriteControl(value: u8)
      modifies this`control
      ensures control == TruncateControl(value)
      ensures GetControl() == And8(value, 0x83)
      ensures data == old(data)
    {
      control := TruncateControl(value);
    }
  }
}
