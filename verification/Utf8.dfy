/** UTF-8 text as bytes: characters are a lead byte and its continuation bytes. */
module Utf8 {

  type Byte = b: int | 0 <= b < 256
  type Bytes = seq<Byte>

  predicate Continuation(b: Byte) {
    0x80 <= b < 0xC0
  }

  /** How many bytes the character starting with `lead` takes. */
  function Width(lead: Byte): (n: nat)
    ensures 1 <= n <= 4
  {
    if lead < 0x80 then 1 else if lead < 0xE0 then 2 else if lead < 0xF0 then 3 else 4
  }

  /** A sequence of whole characters. */
  predicate WellFormed(t: Bytes)
    decreases |t|
  {
    t == [] ||
    (&& !Continuation(t[0]) && Width(t[0]) <= |t|
     && (forall i | 0 < i < Width(t[0]) :: Continuation(t[i]))
     && WellFormed(t[Width(t[0])..]))
  }

  /** Any text the program handles. */
  type Text = t: Bytes | WellFormed(t) witness []

  /** Where a text may be cut. */
  predicate Boundary(t: Bytes, k: nat) {
    k == 0 || k == |t| || (k < |t| && !Continuation(t[k]))
  }

  lemma {:induction false} Concat(a: Text, b: Text)
    ensures WellFormed(a + b)
    decreases |a|
  {
    if a == [] {
      assert a + b == b;
    } else {
      var w := Width(a[0]);
      assert (a + b)[w..] == a[w..] + b;
      assert forall i | 0 < i < w :: (a + b)[i] == a[i];
      Concat(a[w..], b);
    }
  }

  /** Cutting at a boundary leaves two texts. */
  lemma {:induction false} Cut(t: Text, k: nat)
    requires k <= |t| && Boundary(t, k)
    ensures WellFormed(t[..k]) && WellFormed(t[k..])
    decreases |t|
  {
    if k == |t| {
      assert t[..k] == t && t[k..] == [];
    } else if k > 0 {
      var w := Width(t[0]);
      assert k >= w;
      assert t[w..][k - w..] == t[k..] && t[w..][..k - w] == t[..k][w..];
      assert Boundary(t[w..], k - w);
      Cut(t[w..], k - w);
    } else {
      assert t[..0] == [] && t[0..] == t;
    }
  }

  /** A text that begins another ends at a boundary of it. */
  lemma {:induction false} PrefixEndsAtBoundary(a: Text, t: Text)
    requires a <= t
    ensures Boundary(t, |a|)
    decreases |a|
  {
    if a != [] {
      var w := Width(a[0]);
      assert a[0] == t[0];
      assert a[w..] <= t[w..];
      PrefixEndsAtBoundary(a[w..], t[w..]);
    }
  }

  /** The last place at or before `limit` where `t` may be cut. */
  function FloorBoundary(t: Bytes, limit: nat): (k: nat)
    ensures k <= limit && k <= |t| && Boundary(t, k)
    ensures forall j | k < j <= limit && j <= |t| :: !Boundary(t, j)
  {
    if |t| <= limit then |t|
    else if Boundary(t, limit) then limit
    else FloorBoundary(t, limit - 1)
  }

  /** A character is at most four bytes, so a cut gives up at most three. */
  lemma {:induction false} FloorBoundaryTight(t: Text, limit: nat)
    requires limit < |t|
    ensures limit - FloorBoundary(t, limit) <= 3
    decreases |t|
  {
    var w := Width(t[0]);
    if limit >= w {
      FloorBoundaryTight(t[w..], limit - w);
      var k := FloorBoundary(t[w..], limit - w);
      assert Boundary(t, k + w) by {
        if 0 < k < |t[w..]| {
          assert t[w..][k] == t[k + w];
        } else if k == 0 && w < |t| {
          assert t[w..][0] == t[w];
        }
      }
    }
  }
}
