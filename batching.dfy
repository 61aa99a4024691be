/** The fixed-size groups in which the controller sends long lists: targets
    are (de)registered 20 to a call and private IPs are looked up 5 to a
    call. `Batches` is the reference definition; the loops that build the
    groups one element at a time are proved against it where they occur. */
module Batching {

  /** Consecutive groups of `size`, in order; only the last may be shorter. */
  function Batches<T>(s: seq<T>, size: nat): seq<seq<T>>
    requires size > 0
    decreases |s|
  {
    if |s| == 0 then []
    else if |s| <= size then [s]
    else [s[..size]] + Batches(s[size..], size)
  }

  /** The groups glued back together. */
  function Flatten<T>(bs: seq<seq<T>>): seq<T>
  {
    if bs == [] then [] else bs[0] + Flatten(bs[1..])
  }

  /** Splitting into groups loses, adds and reorders nothing; no group is
      empty or longer than `size`, all but the last are exactly `size` long,
      and an empty list gives no group at all. */
  lemma {:induction false} BatchesShape<T>(s: seq<T>, size: nat)
    requires size > 0
    ensures Flatten(Batches(s, size)) == s
    ensures |s| == 0 <==> Batches(s, size) == []
    ensures forall k :: 0 <= k < |Batches(s, size)| ==> 0 < |Batches(s, size)[k]| <= size
    ensures forall k :: 0 <= k < |Batches(s, size)| - 1 ==> |Batches(s, size)[k]| == size
    decreases |s|
  {
    var b := Batches(s, size);
    if |s| == 0 {
    } else if |s| <= size {
      assert Flatten(b) == s + Flatten<T>([]);
    } else {
      BatchesShape(s[size..], size);
      var rest := Batches(s[size..], size);
      assert b == [s[..size]] + rest;
      assert b[1..] == rest;
      assert Flatten(b) == s[..size] + Flatten(rest);
      assert s == s[..size] + s[size..];
      forall k | 1 <= k < |b| ensures b[k] == rest[k - 1] { }
    }
  }

  /** Appending a short group after a whole number of full groups: the
      step taken when the sending loops flush their last, partial group. */
  lemma {:induction false} BatchesAppend<T>(a: seq<T>, b: seq<T>, size: nat, full: nat)
    requires size > 0 && |a| == full * size && 0 < |b| <= size
    ensures Batches(a + b, size) == Batches(a, size) + [b]
    decreases full
  {
    if full == 0 {
      assert a + b == b;
    } else {
      assert |a| == (full - 1) * size + size;
      BatchesAppend(a[size..], b, size, full - 1);
      assert (a + b)[..size] == a[..size];
      assert (a + b)[size..] == a[size..] + b;
      if |a| == size {
        assert a[size..] == [];
        assert Batches(a, size) == [a];
      }
    }
  }

  /** A whole number of full groups followed by anything: the groups of the
      whole are the groups of each part. */
  lemma {:induction false} BatchesSplit<T>(a: seq<T>, b: seq<T>, size: nat, full: nat)
    requires size > 0 && |a| == full * size
    ensures Batches(a + b, size) == Batches(a, size) + Batches(b, size)
    decreases full
  {
    if full == 0 {
      assert a + b == b;
    } else {
      assert |a| == (full - 1) * size + size;
      BatchesSplit(a[size..], b, size, full - 1);
      assert (a + b)[..size] == a[..size];
      assert (a + b)[size..] == a[size..] + b;
      if |a| == size {
        assert a[size..] == [];
        assert Batches(a, size) == [a];
        assert Batches<T>([], size) == [];
        if b == [] {
          assert a + b == a;
        }
      }
    }
  }
}
