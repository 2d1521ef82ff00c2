/** Identifiers, machine integers and small collection helpers shared by every component. */
module MeshTypes {

  datatype Option<+T> = None | Some(value: T)

  const U8_MAX: nat := 255
  const U16_MAX: nat := 65_535
  const U32_MAX: nat := 4_294_967_295
  const U64_MAX: nat := 18_446_744_073_709_551_615

  /** A 32-byte array read big-endian: array order is numeric order. */
  const ID_SPACE: nat := 0x1_0000000000000000_0000000000000000_0000000000000000_0000000000000000

  type Id = n: nat | n < ID_SPACE

  /** Identity of a mesh node. */
  type NodeId = Id

  /** Identity of one local link incarnation; only its order and equality matter. */
  type LinkId = Id

  /** Milliseconds since a runtime-defined epoch (u64). */
  type Time = t: nat | t <= U64_MAX

  type byte = b: nat | b < 256

  function Min(a: int, b: int): (m: int) {
    if a <= b then a else b
  }

  function Max(a: int, b: int): (m: int) {
    if a <= b then b else a
  }

  /** u64 saturating addition. */
  function After(t: Time, ms: nat): (r: Time) {
    if t + ms <= U64_MAX then t + ms else U64_MAX
  }

  predicate IsNext(s: set<Id>, low: nat, m: Id) {
    m in s && low <= m && forall x :: x in s && low <= x ==> m <= x
  }

  /** The members of `s` from `low` upwards. */
  function From(s: set<Id>, low: nat): set<Id> {
    set x | x in s && low <= x
  }

  lemma {:induction false} NextExists(s: set<Id>, low: nat)
    requires From(s, low) != {}
    ensures exists m :: IsNext(s, low, m)
    decreases |s|
  {
    var a :| a in From(s, low);
    var below := set x | x in s && x < a;
    if From(below, low) != {} {
      assert a !in below && below <= s;
      SubsetSize(below, s);
      NextExists(below, low);
      var m :| IsNext(below, low, m);
      assert m in From(below, low);
      forall x | x in s && low <= x ensures m <= x {
        assert x in below || a <= x;
      }
      assert IsNext(s, low, m);
    } else {
      forall x | x in s && low <= x ensures a <= x {
        assert x < a ==> x in From(below, low);
      }
      assert IsNext(s, low, a);
    }
  }

  lemma FromSplit(s: set<Id>, low: nat, m: Id)
    requires IsNext(s, low, m)
    ensures From(s, low) == From(s, m as nat + 1) + {m}
    ensures |From(s, low)| == |From(s, m as nat + 1)| + 1
  {
  }

  ghost predicate StrictlyAscending(r: seq<Id>) {
    r == [] || ((forall x :: x in r[1..] ==> r[0] < x) && StrictlyAscending(r[1..]))
  }

  /** The members of `s` from `low` upwards, in order. */
  function AscendingFrom(s: set<Id>, low: nat): (r: seq<Id>)
    ensures forall x :: x in r <==> x in s && low <= x
    decreases |From(s, low)|
  {
    if From(s, low) == {} then
      assert forall x :: x in s && low <= x ==> x in From(s, low);
      []
    else
      NextExists(s, low);
      var m :| IsNext(s, low, m);
      FromSplit(s, low, m);
      [m] + AscendingFrom(s, m as nat + 1)
  }

  /** The order in which a BTreeMap or BTreeSet with these keys is iterated. */
  function Ascending(s: set<Id>): (r: seq<Id>)
    ensures forall x :: x in r <==> x in s
  {
    AscendingFrom(s, 0)
  }

  lemma PutFirstAscends(m: Id, rest: seq<Id>)
    requires StrictlyAscending(rest) && forall x :: x in rest ==> m < x
    ensures StrictlyAscending([m] + rest)
  {
    assert ([m] + rest)[1..] == rest;
  }

  lemma {:induction false} AscendingFromFacts(s: set<Id>, low: nat)
    ensures StrictlyAscending(AscendingFrom(s, low))
    ensures |AscendingFrom(s, low)| == |From(s, low)|
    decreases |From(s, low)|
  {
    if From(s, low) != {} {
      NextExists(s, low);
      var m :| IsNext(s, low, m) && AscendingFrom(s, low) == [m] + AscendingFrom(s, m as nat + 1);
      var rest := AscendingFrom(s, m as nat + 1);
      FromSplit(s, low, m);
      AscendingFromFacts(s, m as nat + 1);
      PutFirstAscends(m, rest);
    }
  }

  lemma AscendingFacts(s: set<Id>)
    ensures StrictlyAscending(Ascending(s))
    ensures |Ascending(s)| == |s|
  {
    assert s == From(s, 0);
    AscendingFromFacts(s, 0);
  }

  lemma {:induction false} SubsetSize<T>(a: set<T>, b: set<T>)
    requires a <= b
    ensures |a| <= |b|
    ensures a != b ==> |a| < |b|
  {
    var extra := b - a;
    assert b == a + extra;
    assert a != b ==> extra != {};
  }

  lemma Associates<T>(a: seq<T>, b: seq<T>, c: seq<T>)
    ensures a + (b + c) == (a + b) + c
  {
  }

  /** A prefix of a sum of lists. */
  lemma PrefixOfSum<T>(a: seq<T>, b: seq<T>, n: nat)
    ensures n <= |a| ==> (a + b)[..n] == a[..n]
    ensures n <= |b| ==> (a + b)[..|a| + n] == a + b[..n]
  {
  }

  /** Taking the first element off a sum of lists. */
  lemma FirstOfSum<T>(a: seq<T>, b: seq<T>)
    ensures if a == [] then a + b == b else (a + b)[0] == a[0] && (a + b)[1..] == a[1..] + b
  {
  }

  /** The parts of a sum of lists, at their places in it. */
  lemma Cut<T>(a: seq<T>, b: seq<T>, c: seq<T>)
    ensures var s := a + b + c; s[..|a|] == a && s[|a|..|a| + |b|] == b && s[|a| + |b|..] == c && s[..|a| + |b|] == a + b
  {
  }
}
