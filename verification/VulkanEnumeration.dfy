/** Vulkan enumeration wrappers: the layer appends its own entries to those of the next layer
    or driver, under the two-call contract (Surface Format Support in the Window System
    Integration chapter of the Vulkan specification). */
module VulkanEnumeration {
  import opened Common

  const U32: nat := 0x1_0000_0000

  datatype Code = Success | Incomplete | Error(code: int)

  /** What a call leaves behind: its result, the count it stores and the entries it wrote. */
  datatype Reply<T> = Reply(code: Code, count: nat, items: seq<T>)

  /** An enumeration entry point: `None` asks for the count, `Some(k)` fills `k` elements. */
  type Enumerator<!T> = Option<nat> -> Reply<T>

  function Min(a: nat, b: nat): nat { if a < b then a else b }

  /** Saturating subtraction on unsigned numbers. */
  function Minus(a: nat, b: nat): nat { if a < b then 0 else a - b }

  /** The two-call contract for `n` entries. */
  ghost predicate Conforms<T(!new)>(e: Enumerator<T>, n: nat) {
    && e(None) == Reply(Success, n, [])
    && forall k: nat ::
         && |e(Some(k)).items| == e(Some(k)).count == Min(k, n)
         && e(Some(k)).code == if k >= n then Success else Incomplete
  }

  /** The wrapper: reserves room for the extra entries, forwards, then appends as many as fit.
      The count query adds in 32 bits. */
  function Wrap<T>(e: Enumerator<T>, extras: seq<T>): Enumerator<T> {
    (q: Option<nat>) =>
      match q
      case None =>
        var r := e(None);
        if r.code != Success then r else Reply(Success, (r.count + |extras|) % U32, [])
      case Some(k) =>
        var r := e(Some(Minus(k, |extras|)));
        if r.code.Error? then r
        else
          var copied := Min(Minus(k, r.count), |extras|);
          Reply(if copied < |extras| then Incomplete else r.code, r.count + copied, r.items + extras[..copied])
  }

  /** Wrapping keeps the contract, with the extra entries added, exactly as long as the total
      fits in 32 bits. So wrapped enumerators can be wrapped again. */
  lemma WrapConformsIffCountFits<T(!new)>(e: Enumerator<T>, n: nat, extras: seq<T>)
    requires Conforms(e, n)
    ensures Conforms(Wrap(e, extras), n + |extras|) <==> n + |extras| < U32
  {
    var w := Wrap(e, extras);
    assert w(None).count == (n + |extras|) % U32;
    forall k: nat
      ensures |w(Some(k)).items| == w(Some(k)).count == Min(k, n + |extras|)
      ensures w(Some(k)).code == if k >= n + |extras| then Success else Incomplete
    {
      var r := e(Some(Minus(k, |extras|)));
      assert |r.items| == r.count == Min(Minus(k, |extras|), n);
    }
  }

  /** With room for the extras the caller gets all of them, after exactly what the driver
      writes into the remaining room (all of its entries if they fit); with less room it gets
      the first extras only. */
  lemma WrapKeepsBothLists<T(!new)>(e: Enumerator<T>, n: nat, extras: seq<T>, k: nat)
    requires Conforms(e, n)
    ensures k >= |extras| ==> Wrap(e, extras)(Some(k)).items == e(Some(k - |extras|)).items + extras
    ensures k < |extras| ==> Wrap(e, extras)(Some(k)).items == extras[..k]
  {
    var r := e(Some(Minus(k, |extras|)));
    assert |r.items| == r.count == Min(Minus(k, |extras|), n);
    if k >= |extras| {
      assert extras[..|extras|] == extras;
    }
  }

  /** An error of the driver is passed on as it is; nothing is appended to what it wrote. */
  lemma WrapForwardsErrors<T>(e: Enumerator<T>, extras: seq<T>, k: nat)
    ensures e(None).code != Success ==> Wrap(e, extras)(None) == e(None)
    ensures var room := if k < |extras| then 0 else k - |extras|;
            e(Some(room)).code.Error? ==> Wrap(e, extras)(Some(k)) == e(Some(room))
  {
    var r := e(Some(Minus(k, |extras|)));
  }

  /** Two wrappers on top of each other are one wrapper with both lists, as seen by the counts
      and results of any caller. */
  lemma WrapTwice<T(!new)>(e: Enumerator<T>, n: nat, a: seq<T>, b: seq<T>)
    requires Conforms(e, n) && n + |a| + |b| < U32
    ensures Conforms(Wrap(Wrap(e, a), b), n + |a| + |b|) && Conforms(Wrap(e, a + b), n + |a| + |b|)
  {
    WrapConformsIffCountFits(e, n, a);
    WrapConformsIffCountFits(Wrap(e, a), n + |a|, b);
    WrapConformsIffCountFits(e, n, a + b);
  }

  /** The answer for the layer's own name: its list alone. */
  function OwnList<T>(extras: seq<T>): Enumerator<T> {
    (q: Option<nat>) =>
      match q
      case None => Reply(Success, |extras| % U32, [])
      case Some(k) =>
        var count := Min(k, |extras|);
        Reply(if count < |extras| then Incomplete else Success, count, extras[..count])
  }

  /** Asking for the layer by name is the same as wrapping a driver that has nothing. */
  lemma OwnListWrapsNothing<T(!new)>(none: Enumerator<T>, extras: seq<T>, q: Option<nat>)
    requires Conforms(none, 0)
    ensures Wrap(none, extras)(q) == OwnList(extras)(q)
  {
    if q.Some? {
      var r := none(Some(Minus(q.value, |extras|)));
      assert |r.items| == r.count == 0 && r.code == Success;
      assert r.items == [];
    }
  }

  /** The wrapper as it writes through the caller's buffer: the driver fills the front, a loop
      appends the extras. Nothing past the written entries, nor past the capacity, is touched
      unless the driver itself fails. */
  method AppendEntries<T(!new)>(e: Enumerator<T>, extras: seq<T>, buffer: array<T>, capacity: nat)
    returns (code: Code, count: nat)
    requires capacity <= buffer.Length
    requires forall k: nat :: |e(Some(k)).items| == e(Some(k)).count <= k
    modifies buffer
    ensures count <= capacity
    ensures Reply(code, count, buffer[..count]) == Wrap(e, extras)(Some(capacity))
    ensures forall i :: count <= i < buffer.Length ==> buffer[i] == old(buffer[i])
  {
    var reply := e(Some(Minus(capacity, |extras|)));
    WriteEntries(buffer, 0, reply.items);
    assert buffer[..reply.count] == reply.items;
    if reply.code.Error? {
      return reply.code, reply.count;
    }
    var base := reply.count;
    var copied := Min(Minus(capacity, base), |extras|);
    WriteEntries(buffer, base, extras[..copied]);
    return if copied < |extras| then Incomplete else reply.code, base + copied;
  }

  /** Writes entries into the buffer from index `at` on. */
  method WriteEntries<T>(buffer: array<T>, at: nat, items: seq<T>)
    requires at + |items| <= buffer.Length
    modifies buffer
    ensures buffer[..at + |items|] == old(buffer[..at]) + items
    ensures forall i :: at + |items| <= i < buffer.Length ==> buffer[i] == old(buffer[i])
  {
    var i := 0;
    while i < |items|
      invariant 0 <= i <= |items|
      invariant forall j :: 0 <= j < at ==> buffer[j] == old(buffer[j])
      invariant forall j :: at <= j < at + i ==> buffer[j] == items[j - at]
      invariant forall j :: at + i <= j < buffer.Length ==> buffer[j] == old(buffer[j])
    {
      buffer[at + i] := items[i];
      i := i + 1;
    }
  }
}
