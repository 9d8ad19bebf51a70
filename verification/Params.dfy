// Constants and notions that several models share.

// lib/linden/prioq.h and prioq.c
module PrioqParams {
  const NUM_LEVELS := 32
  const KEYMIN := 0
  // The stored sentinel: ~1UL truncated to the 32 bits of pkey_t.
  const KEYMAX := 0xFFFF_FFFE
  // pkey_t has 32 bits.
  const KEYS := 0x1_0000_0000
}

// lib/linden/gc/gc.c
module GcParams {
  const NR_EPOCHS := 3
  const BLKS_PER_CHUNK := 100
}

module Sequences {
  ghost predicate Distinct<T>(s: seq<T>) {
    forall j, k :: 0 <= j < k < |s| ==> s[j] != s[k]
  }
}
