/**
 * The default channel attributes of include/lttng-share.h.  Several of the
 * header's comments require a value to be a power of two; the lemmas below
 * prove that the values chosen are.
 */
module LttngShare {
  import opened Lttng

  const DEFAULT_CHANNEL_NAME: string := "channel0"
  const DEFAULT_CHANNEL_OVERWRITE: int := 0
  const DEFAULT_CHANNEL_SUBBUF_SIZE: nat := 4096
  const DEFAULT_CHANNEL_SUBBUF_NUM: nat := 8
  const DEFAULT_CHANNEL_SWITCH_TIMER: nat := 0
  const DEFAULT_CHANNEL_READ_TIMER: nat := 200
  const DEFAULT_CHANNEL_OUTPUT: EventOutput := EventMmap

  const DEFAULT_METADATA_SUBBUF_SIZE: nat := 4096
  const DEFAULT_METADATA_SUBBUF_NUM: nat := 2

  const DEFAULT_KERNEL_CHANNEL_SUBBUF_SIZE: nat := 262144
  const DEFAULT_KERNEL_CHANNEL_SUBBUF_NUM: nat := 4
  const DEFAULT_KERNEL_CHANNEL_OUTPUT: EventOutput := EventSplice

  /**
   * The per-pid user-space defaults.  Their defining header is not part
   * of this model; they are taken as 4096, 8 and mmap, equal to the
   * generic DEFAULT_CHANNEL_* values above.
   */
  const DEFAULT_UST_CHANNEL_SUBBUF_SIZE: nat := DEFAULT_CHANNEL_SUBBUF_SIZE
  const DEFAULT_UST_CHANNEL_SUBBUF_NUM: nat := DEFAULT_CHANNEL_SUBBUF_NUM
  const DEFAULT_UST_CHANNEL_OUTPUT: EventOutput := DEFAULT_CHANNEL_OUTPUT

  /** 2 to the power `k`. */
  function Pow2(k: nat): (r: nat)
    ensures r >= 1
  {
    if k == 0 then 1 else 2 * Pow2(k - 1)
  }

  lemma {:induction false} Pow2Add(a: nat, b: nat)
    ensures Pow2(a + b) == Pow2(a) * Pow2(b)
  {
    if a > 0 {
      Pow2Add(a - 1, b);
    }
  }

  ghost predicate IsPowerOfTwo(n: int) {
    exists k: nat :: Pow2(k) == n
  }

  lemma DefaultSubbufSizeIsPowerOfTwo()
    ensures DEFAULT_CHANNEL_SUBBUF_SIZE == 4096
    ensures IsPowerOfTwo(DEFAULT_CHANNEL_SUBBUF_SIZE)
  {
    assert Pow2(12) == 4096;
  }

  lemma DefaultSubbufNumIsPowerOfTwo()
    ensures DEFAULT_CHANNEL_SUBBUF_NUM == 8
    ensures IsPowerOfTwo(DEFAULT_CHANNEL_SUBBUF_NUM)
  {
    assert Pow2(3) == 8;
  }

  lemma KernelSubbufSizeIsPowerOfTwo()
    ensures DEFAULT_KERNEL_CHANNEL_SUBBUF_SIZE == 262144
    ensures IsPowerOfTwo(DEFAULT_KERNEL_CHANNEL_SUBBUF_SIZE)
  {
    assert Pow2(9) == 512;
    Pow2Add(9, 9);
  }

  lemma KernelSubbufNumIsPowerOfTwo()
    ensures DEFAULT_KERNEL_CHANNEL_SUBBUF_NUM == 4
    ensures IsPowerOfTwo(DEFAULT_KERNEL_CHANNEL_SUBBUF_NUM)
  {
    assert Pow2(2) == 4;
  }

  lemma MetadataDefaultsArePowersOfTwo()
    ensures DEFAULT_METADATA_SUBBUF_SIZE == 4096 && DEFAULT_METADATA_SUBBUF_NUM == 2
    ensures IsPowerOfTwo(DEFAULT_METADATA_SUBBUF_SIZE) && IsPowerOfTwo(DEFAULT_METADATA_SUBBUF_NUM)
  {
    assert Pow2(12) == 4096;
    assert Pow2(1) == 2;
  }

  /** The per-pid user-space defaults inherit the powers of two of the generic ones. */
  lemma UstDefaultsArePowersOfTwo()
    ensures IsPowerOfTwo(DEFAULT_UST_CHANNEL_SUBBUF_SIZE) && IsPowerOfTwo(DEFAULT_UST_CHANNEL_SUBBUF_NUM)
  {
    DefaultSubbufSizeIsPowerOfTwo();
    DefaultSubbufNumIsPowerOfTwo();
  }

  /** Kernel outputs by splice, every other default by mmap. */
  lemma DefaultOutputs()
    ensures DEFAULT_KERNEL_CHANNEL_OUTPUT == EventSplice
    ensures DEFAULT_CHANNEL_OUTPUT == EventMmap && DEFAULT_UST_CHANNEL_OUTPUT == EventMmap
    ensures DEFAULT_KERNEL_CHANNEL_OUTPUT != DEFAULT_CHANNEL_OUTPUT
  {
  }
}
