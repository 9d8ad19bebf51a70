// The number of levels that a new node gets: alloc_node of lib/linden/prioq.c and get_rand_level
// of lib/spraylist/skiplist.c, the random numbers being parameters.

module Levels {
  import opened PrioqParams
  import opened IntAlgo

  // How many ones end the binary form of n.
  function TrailingOnes(n: nat): nat {
    if n % 2 == 1 then 1 + TrailingOnes(n / 2) else 0
  }

  lemma {:induction false} OnesBound(n: nat, k: nat)
    requires n < Pow2(k)
    ensures TrailingOnes(n) <= k
  {
    if n % 2 == 1 { OnesBound(n / 2, k - 1); }
  }

  // Lines 67-75 of prioq.c for the 32-bit number r: the assertion holds, and level 32 is never drawn.
  method NodeLevel(r: nat) returns (level: nat)
    ensures level == 1 + TrailingOnes(r % Pow2(NUM_LEVELS - 1) / 2)
    ensures 1 <= level < NUM_LEVELS
  {
    var m: nat := r % Pow2(NUM_LEVELS - 1);
    assert Pow2(NUM_LEVELS - 1) == 2 * Pow2(NUM_LEVELS - 2);
    OnesBound(m / 2, NUM_LEVELS - 2);
    level := 1;
    var s: nat := m / 2;
    while s % 2 == 1
      invariant level + TrailingOnes(s) == 1 + TrailingOnes(m / 2)
      decreases s
    {
      level := level + 1;
      s := s / 2;
    }
  }

  // How many coins at the front show heads.
  function Heads(coins: seq<bool>): nat {
    if coins != [] && coins[0] then 1 + Heads(coins[1..]) else 0
  }

  // get_rand_level; coins[i] is the outcome of its i-th draw.
  method RandLevel(levelMax: nat, coins: seq<bool>) returns (level: nat)
    requires |coins| >= levelMax
    ensures levelMax > 0 ==> 1 <= level <= levelMax && level == 1 + Heads(coins[..levelMax - 1])
    ensures levelMax == 0 ==> level == 1
  {
    level := 1;
    var i := 0;
    while i < levelMax - 1
      invariant levelMax > 0 ==> i <= levelMax - 1 && level == i + 1
      invariant levelMax > 0 ==> 1 + Heads(coins[..levelMax - 1]) == level + Heads(coins[i..levelMax - 1])
      invariant levelMax == 0 ==> level == 1
    {
      if !coins[i] {
        break;
      }
      assert coins[i..levelMax - 1][1..] == coins[i + 1..levelMax - 1];
      level := level + 1;
      i := i + 1;
    }
  }
}
