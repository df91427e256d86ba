/** The register file: two combinational read ports, one clocked write port, x0 fixed at zero. */
module RegisterFile {
  import opened Words

  /** What a read port returns. */
  function Read(regs: Regs, r: RegId): Word {
    if r == 0 then 0 else regs[r as nat]
  }

  /** The registers after a clock edge with the write port driven. */
  function Write(regs: Regs, we: bool, r: RegId, value: Word): Regs {
    if we && r != 0 then regs[r as nat := value] else regs
  }

  /** A read sees the last write to its own register, and no other write. */
  lemma ReadAfterWrite(regs: Regs, we: bool, w: RegId, value: Word, r: RegId)
    ensures Read(Write(regs, we, w, value), r) == if we && w == r && r != 0 then value else Read(regs, r)
  {
    if w != r { assert w as nat != r as nat; }
  }

  class RegFile {
    const regs: array<Word>

    ghost predicate Valid() reads this { regs.Length == 32 }

    ghost function Contents(): Regs
      reads this, regs
      requires Valid()
    {
      regs[..]
    }

    constructor ()
      ensures Valid() && fresh(regs)
      ensures forall k :: 0 <= k < 32 ==> regs[k] == 0
    {
      regs := new Word[32](_ => 0);
    }

    method ReadPort(raddr: RegId) returns (rdata: Word)
      requires Valid()
      ensures rdata == Read(Contents(), raddr)
    {
      rdata := if raddr == 0 then 0 else regs[raddr as nat];
    }

    method Clock(we: bool, waddr: RegId, wdata: Word)
      requires Valid()
      modifies regs
      ensures Contents() == Write(old(Contents()), we, waddr, wdata)
    {
      if we && waddr != 0 {
        regs[waddr as nat] := wdata;
      }
    }
  }
}
