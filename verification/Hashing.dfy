// The two hash functions of the store (src/datastructure.c:76-128).
module Hashing {
  import opened Records

  const FNV_BASIS: bv32 := 2166136261
  const FNV_PRIME: bv32 := 16777619

  function Byte(c: char): bv32 {
    (c as int % 256) as bv32
  }

  function FnvStep(hash: bv32, byte: bv32): bv32 {
    (hash ^ byte) * FNV_PRIME
  }

  // FNV-1a over the characters of a string
  function Fnv(s: string): bv32 {
    if s == [] then FNV_BASIS else FnvStep(Fnv(s[..|s| - 1]), Byte(s[|s| - 1]))
  }

  function HashStr(s: string): nat {
    Fnv(s) as nat
  }

  /** hashStr() */
  method ComputeHash(s: string) returns (hash: bv32)
    ensures hash == Fnv(s) && hash as nat == HashStr(s)
  {
    hash := FNV_BASIS;
    for i := 0 to |s|
      invariant hash == Fnv(s[..i])
    {
      assert s[..i + 1][..i] == s[..i];
      hash := FnvStep(hash, Byte(s[i]));
    }
    assert s[..|s|] == s;
  }

  function Bits32(n: nat): bv32 {
    (n % 0x1_0000_0000) as bv32
  }

  // The type in the lowest five bits, the client above it, then the domain
  function Combined(domainID: bv32, clientID: bv32, t: bv32): bv32 {
    (domainID << 16) ^ (clientID << 5) ^ t
  }

  // hashCacheIDs()
  function HashIds(domainID: nat, clientID: nat, t: QType): nat {
    Combined(Bits32(domainID), Bits32(clientID), Bits32(TypeCode(t))) as nat
  }

  /** Two published values of the 32-bit FNV-1a hash. */
  lemma KnownHashes()
    ensures Fnv("") == 0x811c9dc5 && Fnv("a") == 0xe40c292c
  {
    assert "a"[..0] == "";
    assert Byte('a') == 97;
  }

  /** Within 65536 domains, 2048 clients and 32 types the combination can be taken apart again, so
      no two of them share a hash. */
  lemma CombinedApart(domainID: bv32, clientID: bv32, t: bv32)
    requires domainID < 65536 && clientID < 2048 && t < 32
    ensures var h := Combined(domainID, clientID, t);
            domainID == h >> 16 && clientID == (h >> 5) & 2047 && t == h & 31
  {
  }
}
