/** The windowed commutative accumulator over blocks' output events. */
module UtxoHash {
  import opened HashPacking

  datatype Event = Added(id: nat) | Removed(id: nat)

  /** The digest of an event; an arbitrary function of it. */
  type EventHasher = Event -> Digest

  ghost function ZeroDigest(): Digest {
    seq(32, i => 0)
  }

  function XorDigests(a: Digest, b: Digest): Digest {
    seq(32, i requires 0 <= i < 32 => a[i] ^ b[i])
  }

  ghost function XorAll(hashes: seq<Digest>): Digest {
    if hashes == [] then ZeroDigest() else XorDigests(XorAll(hashes[..|hashes| - 1]), hashes[|hashes| - 1])
  }

  // ---- Exclusive or ------------------------------------------------------------------------------

  lemma {:induction false} ByteXor(a: bv8, b: bv8, c: bv8)
    ensures a ^ b == b ^ a && (a ^ b) ^ c == a ^ (b ^ c) && a ^ 0 == a && 0 ^ a == a && a ^ a == 0
  {
  }

  lemma {:induction false} XorCommutes(a: Digest, b: Digest)
    ensures XorDigests(a, b) == XorDigests(b, a)
  {
    forall i | 0 <= i < 32
      ensures XorDigests(a, b)[i] == XorDigests(b, a)[i]
    {
      ByteXor(a[i], b[i], 0);
    }
  }

  lemma {:induction false} XorAssociates(a: Digest, b: Digest, c: Digest)
    ensures XorDigests(XorDigests(a, b), c) == XorDigests(a, XorDigests(b, c))
  {
    forall i | 0 <= i < 32
      ensures XorDigests(XorDigests(a, b), c)[i] == XorDigests(a, XorDigests(b, c))[i]
    {
      ByteXor(a[i], b[i], c[i]);
    }
  }

  lemma {:induction false} XorUnit(a: Digest)
    ensures XorDigests(a, ZeroDigest()) == a && XorDigests(ZeroDigest(), a) == a && XorDigests(a, a) == ZeroDigest()
  {
    forall i | 0 <= i < 32
      ensures XorDigests(a, ZeroDigest())[i] == a[i] && XorDigests(ZeroDigest(), a)[i] == a[i]
          && XorDigests(a, a)[i] == ZeroDigest()[i]
    {
      ByteXor(a[i], 0, 0);
    }
  }

  lemma {:induction false} XorAppend(hashes: seq<Digest>, h: Digest)
    ensures XorAll(hashes + [h]) == XorDigests(XorAll(hashes), h)
  {
    assert (hashes + [h])[..|hashes|] == hashes;
  }

  lemma {:induction false} XorConcat(a: seq<Digest>, b: seq<Digest>)
    ensures XorAll(a + b) == XorDigests(XorAll(a), XorAll(b))
  {
    if b == [] {
      assert a + b == a;
      XorUnit(XorAll(a));
    } else {
      var front, last := b[..|b| - 1], b[|b| - 1];
      XorConcat(a, front);
      XorAppend(a + front, last);
      XorAssociates(XorAll(a), XorAll(front), last);
      assert a + b == a + front + [last];
    }
  }

  /** Dropping the oldest of several hashes undoes its contribution. */
  lemma {:induction false} XorDropFirst(hashes: seq<Digest>)
    requires hashes != []
    ensures XorDigests(XorAll(hashes), hashes[0]) == XorAll(hashes[1..])
  {
    var first, rest := hashes[0], XorAll(hashes[1..]);
    XorConcat([first], hashes[1..]);
    assert hashes == [first] + hashes[1..];
    XorAppend([], first);
    assert [] + [first] == [first];
    XorUnit(first);
    XorCommutes(first, rest);
    XorAssociates(rest, first, first);
    XorUnit(rest);
  }

  // ---- Order of events ------------------------------------------------------------------------------

  ghost function BlockDigest(hash: EventHasher, events: seq<Event>): Digest {
    if events == [] then ZeroDigest() else XorDigests(BlockDigest(hash, events[..|events| - 1]),
      hash(events[|events| - 1]))
  }

  lemma {:induction false} DigestAppend(hash: EventHasher, events: seq<Event>, e: Event)
    ensures BlockDigest(hash, events + [e]) == XorDigests(BlockDigest(hash, events), hash(e))
  {
    assert (events + [e])[..|events|] == events;
  }

  /** Taking any event out of a block and appending it leaves the digest unchanged. */
  lemma {:induction false} DigestMove(hash: EventHasher, events: seq<Event>, at: nat)
    requires at < |events|
    ensures BlockDigest(hash, events)
        == XorDigests(BlockDigest(hash, events[..at] + events[at + 1..]), hash(events[at]))
  {
    var last := |events| - 1;
    if at == last {
      assert events[..at] + events[at + 1..] == events[..last];
    } else {
      var front := events[..last];
      DigestMove(hash, front, at);
      var rest := BlockDigest(hash, front[..at] + front[at + 1..]);
      assert events[..at] + events[at + 1..] == front[..at] + front[at + 1..] + [events[last]];
      DigestAppend(hash, front[..at] + front[at + 1..], events[last]);
      XorAssociates(rest, hash(events[at]), hash(events[last]));
      XorCommutes(hash(events[at]), hash(events[last]));
      XorAssociates(rest, hash(events[last]), hash(events[at]));
    }
  }

  /** Blocks with the same events, each as often, have the same digest in whatever order. */
  lemma {:induction false} OrderIrrelevant(hash: EventHasher, a: seq<Event>, b: seq<Event>)
    requires multiset(a) == multiset(b)
    ensures BlockDigest(hash, a) == BlockDigest(hash, b)
  {
    if a == [] {
      assert |multiset(b)| == 0;
      assert b == [];
    } else {
      var last := |a| - 1;
      assert a[last] in multiset(a);
      var at :| 0 <= at < |b| && b[at] == a[last];
      var rest := b[..at] + b[at + 1..];
      assert b == b[..at] + [b[at]] + b[at + 1..];
      assert multiset(b) == multiset(rest) + multiset{b[at]};
      assert a == a[..last] + [a[last]];
      assert multiset(a) == multiset(a[..last]) + multiset{a[last]};
      assert multiset(a[..last]) == multiset(a) - multiset{a[last]};
      assert multiset(rest) == multiset(b) - multiset{b[at]};
      OrderIrrelevant(hash, a[..last], rest);
      DigestMove(hash, b, at);
    }
  }

  // ---- The accumulator as the program keeps it ----------------------------------------------------------

  method XorInto(dst: array<bv8>, src: Digest)
    requires dst.Length == 32
    modifies dst
    ensures dst[..] == XorDigests(old(dst[..]), src)
  {
    for i := 0 to 32
      invariant forall j | 0 <= j < i :: dst[j] == old(dst[j]) ^ src[j]
      invariant forall j | i <= j < 32 :: dst[j] == old(dst[j])
    {
      dst[i] := dst[i] ^ src[i];
    }
  }

  /** The last `window` of `blocks`, or all of them. */
  ghost function Recent<T>(blocks: seq<T>, window: nat): seq<T> {
    if |blocks| <= window then blocks else blocks[|blocks| - window..]
  }

  ghost predicate Suffix<T>(all: seq<T>, part: seq<T>) {
    |part| <= |all| && part == all[|all| - |part|..]
  }

  lemma {:induction false} SuffixDrop<T>(all: seq<T>, part: seq<T>)
    requires Suffix(all, part) && part != []
    ensures Suffix(all, part[1..])
  {
  }

  lemma {:induction false} RecentGrows<T>(blocks: seq<T>, b: T, window: nat)
    ensures Suffix(blocks + [b], Recent(blocks, window) + [b])
    ensures |Recent(blocks, window) + [b]| >= window || Recent(blocks, window) + [b] == blocks + [b]
  {
  }

  class RollingUtxoHash {
    var window: seq<Digest>
    const acc: array<bv8>
    const windowBlocks: nat
    const current: array<bv8>

    /** `digests` are those of the finished blocks; `events` those of the block under way. */
    ghost predicate Holds(hash: EventHasher, digests: seq<Digest>, events: seq<Event>)
      reads this, acc, current
    {
      && acc != current && acc.Length == 32 && current.Length == 32
      && (windowBlocks > 0 ==>
            && window == Recent(digests, windowBlocks)
            && acc[..] == XorAll(window)
            && current[..] == BlockDigest(hash, events))
    }

    constructor (windowBlocks: nat, ghost hash: EventHasher)
      ensures Holds(hash, [], []) && this.windowBlocks == windowBlocks && fresh(acc) && fresh(current)
    {
      window := [];
      this.windowBlocks := windowBlocks;
      acc := new bv8[32](i => 0);
      current := new bv8[32](i => 0);
    }

    method NoteEvent(hash: EventHasher, e: Event, ghost digests: seq<Digest>, ghost events: seq<Event>)
      requires Holds(hash, digests, events)
      modifies current
      ensures Holds(hash, digests, events + [e])
    {
      if windowBlocks == 0 {
        return;
      }
      DigestAppend(hash, events, e);
      XorInto(current, hash(e));
    }

    /** Adds the block under way to the window, and drops the one that leaves it. */
    method FinalizeBlock(ghost hash: EventHasher, ghost digests: seq<Digest>, ghost events: seq<Event>)
      requires Holds(hash, digests, events)
      modifies this`window, acc, current
      ensures Holds(hash, digests + [BlockDigest(hash, events)], [])
    {
      if windowBlocks == 0 {
        return;
      }
      var block: Digest := current[..];
      XorAppend(window, block);
      RecentGrows(digests, block, windowBlocks);
      XorInto(acc, block);
      window := window + [block];
      Clear(current);
      DropOld(digests + [block]);
    }

    method DropOld(ghost all: seq<Digest>)
      requires acc.Length == 32 && acc[..] == XorAll(window)
      requires Suffix(all, window) && (|window| >= windowBlocks || window == all)
      modifies this`window, acc
      ensures window == Recent(all, windowBlocks) && acc[..] == XorAll(window)
    {
      while |window| > windowBlocks
        invariant acc[..] == XorAll(window)
        invariant Suffix(all, window) && (|window| >= windowBlocks || window == all)
      {
        XorDropFirst(window);
        SuffixDrop(all, window);
        XorInto(acc, window[0]);
        window := window[1..];
      }
    }
  }

  method Clear(digest: array<bv8>)
    requires digest.Length == 32
    modifies digest
    ensures digest[..] == ZeroDigest()
  {
    for i := 0 to 32
      invariant forall j | 0 <= j < i :: digest[j] == 0
    {
      digest[i] := 0;
    }
  }
}
