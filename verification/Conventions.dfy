/** Sharding conventions (util/conventions.go). */
module Conventions {
  import opened Types
  import opened Decimal

  /** The shard of a document. */
  function IndexChunk(id: DocID, parts: nat): (chunk: nat)
    requires parts > 0
    ensures chunk < parts
  {
    id % parts
  }

  function IndexChunkName(index: string, parts: nat, chunkNo: nat): string {
    if parts > 1 then index + "_part_" + PrintNat(chunkNo) else index
  }

  /** Different shards of an index have different names. */
  lemma ChunkNamesDiffer(index: string, parts: nat, a: nat, b: nat)
    requires a < parts && b < parts && IndexChunkName(index, parts, a) == IndexChunkName(index, parts, b)
    ensures a == b
  {
    if parts > 1 {
      var prefix := index + "_part_";
      assert (prefix + PrintNat(a))[|prefix|..] == PrintNat(a);
      assert (prefix + PrintNat(b))[|prefix|..] == PrintNat(b);
      PrintedIsUnique(a, b);
    }
  }

  /** Documents are dealt to the shards in turn: the first ones by their number, and each next document to the next shard. */
  lemma ShardsTakeTurns(id: DocID, parts: nat)
    requires parts > 0
    ensures id < parts ==> IndexChunk(id, parts) == id
    ensures IndexChunk(id + 1, parts) == if IndexChunk(id, parts) + 1 < parts then IndexChunk(id, parts) + 1 else 0
  {
    var q, r := id / parts, id % parts;
    assert id == q * parts + r;
    if r + 1 < parts {
      Remainder(q, parts, r + 1);
    } else {
      assert id + 1 == (q + 1) * parts + 0;
      Remainder(q + 1, parts, 0);
    }
  }

  lemma Remainder(q: nat, parts: nat, r: nat)
    requires r < parts
    ensures (q * parts + r) % parts == r
  {
    var x := q * parts + r;
    var p, rest := x / parts, x % parts;
    assert x == p * parts + rest;
    assert (p - q) * parts == p * parts - q * parts;
    Multiples(p - q, parts);
  }

  lemma Multiples(n: int, parts: nat)
    ensures n >= 1 ==> n * parts >= parts
    ensures n <= -1 ==> n * parts <= 0 - parts
  {
    assert n * parts == (n - 1) * parts + parts == (n + 1) * parts - parts;
  }

  /** An index in one part keeps its name, and every shard's name starts with that of the index. */
  lemma ShardNameStartsWithIndex(index: string, parts: nat, chunkNo: nat)
    ensures parts <= 1 ==> IndexChunkName(index, parts, chunkNo) == index
    ensures index <= IndexChunkName(index, parts, chunkNo)
  {
  }
}
