// The OAM DMA register state: the source page written to start a transfer,
// the start delay, the in-transfer flag and the current address byte.
module Dma {
  import opened Bits

  /** The four fields of `OamDma`. */
  datatype DmaState = DmaState(addressByte: u8, value: u8, startDelay: u8, inTransfer: bool)

  /** `OamDma::default`: every field zero or false. */
  const Idle := DmaState(0, 0, 0, false)

  /** `dma_start(start)` on a value: every field is overwritten. */
  function Started(start: u8): (r: DmaState)
    ensures r.addressByte == 0 && r.startDelay == 2 && r.inTransfer && r.value == start
  {
    DmaState(0, start, 2, true)
  }

  class OamDma {
    var addressByte: u8
    var value: u8
    var startDelay: u8
    var inTransfer: bool

    function State(): DmaState
      reads this
    {
      DmaState(addressByte, value, startDelay, inTransfer)
    }

    /** `OamDma::default`. */
    constructor ()
      ensures State() == Idle
    {
      addressByte, value, startDelay, inTransfer := 0, 0, 0, false;
    }

    /**
     * `dma_start(start)`: every field is overwritten, so the new state
     * depends on `start` alone.
     */
    method DmaStart(start: u8)
      modifies this
      ensures State() == Started(start)
      ensures ReadRegister() == 0
    {
      addressByte := 0;
      startDelay := 2;
      inTransfer := true;
      value := start;
    }

    /** `read_register`: the current address byte. */
    function ReadRegister(): u8
      reads this
    {
      addressByte
    }
  }

  /**
   * A started transfer records its page: two starts agree exactly when
   * their pages do, and a started state is never the default one, while
   * `read_register` reads the address byte 0 in both.
   */
  lemma StartRecordsPage(a: u8, b: u8)
    ensures Started(a) == Started(b) <==> a == b
    ensures Started(a) != Idle && Started(a).addressByte == Idle.addressByte
  {
  }
}
