/** Rounding up to a power of two, on 32-bit words (kernel/mempool.c:10-12). */
module Alignment {

  /** `os_mempool_align_up`. */
  function AlignUp(value: bv32, align: bv32): (r: bv32) {
    (value + (align - 1)) & !(align - 1)
  }

  /** For a power of two, the least multiple not below `value`, unless that does not fit. */
  lemma AlignUpIs(value: bv32, align: bv32)
    requires align != 0 && align & (align - 1) == 0
    requires value <= 0xFFFF_FFFF - (align - 1)
    ensures AlignUp(value, align) & (align - 1) == 0
    ensures value <= AlignUp(value, align) && AlignUp(value, align) - value < align
  {
  }

  /** The two block sizes of kernel/kalloc.c are multiples of the pointer size already. */
  lemma BlockSizesAligned()
    ensures AlignUp(64, 4) == 64 && AlignUp(1024, 4) == 1024
  {
  }

  /** The sizes `os_kalloc_init` computes (kernel/kalloc.c:19-20). */
  method BlockSizes() returns (kernelBlock: nat, stackBlock: nat)
    ensures kernelBlock == 64 && stackBlock == 1024
  {
    BlockSizesAligned();
    kernelBlock := AlignUp(64, 4) as nat;
    stackBlock := AlignUp(1024, 4) as nat;
  }
}
