/**
 * Sequence operations on the waiting (reserved) queue: positional insertion,
 * repositioning relative to an origin, the tellWaiting window and lookup by GID.
 */
module ReservedQueue {
  import opened Wrappers

  function Min(a: nat, b: nat): nat {
    if a <= b then a else b
  }

  /** Inserts `x` before index `pos`; a position past the end appends. */
  function InsertAt<T>(s: seq<T>, pos: nat, x: T): (r: seq<T>)
    ensures |r| == |s| + 1
    ensures r[Min(pos, |s|)] == x
    ensures forall k :: 0 <= k < Min(pos, |s|) ==> r[k] == s[k]
    ensures forall k :: Min(pos, |s|) < k < |r| ==> r[k] == s[k - 1]
  {
    var p := Min(pos, |s|);
    s[..p] + [x] + s[p..]
  }

  /** The sequence without the element at index `i`. */
  function RemoveAt<T>(s: seq<T>, i: nat): (r: seq<T>)
    requires i < |s|
    ensures |r| == |s| - 1
    ensures forall k :: 0 <= k < i ==> r[k] == s[k]
    ensures forall k :: i <= k < |r| ==> r[k] == s[k + 1]
  {
    s[..i] + s[i + 1..]
  }

  /** Where changePosition measures its offset from. */
  datatype Origin = PosSet | PosCur | PosEnd

  function ParseOrigin(keyword: string): (r: Option<Origin>)
  {
    if keyword == "POS_SET" then Some(PosSet)
    else if keyword == "POS_CUR" then Some(PosCur)
    else if keyword == "POS_END" then Some(PosEnd)
    else None
  }

  /** The unclamped destination: the offset from the front, from `cur`, or from the length. */
  function RawTarget(cur: nat, len: nat, offset: int, how: Origin): int {
    match how
    case PosSet => offset
    case PosCur => cur + offset
    case PosEnd => len + offset
  }

  /** The destination index, clamped into the queue. */
  function Target(cur: nat, len: nat, offset: int, how: Origin): (p: nat)
    requires cur < len
    ensures p < len
    ensures 0 <= RawTarget(cur, len, offset, how) < len ==> p == RawTarget(cur, len, offset, how)
    ensures RawTarget(cur, len, offset, how) < 0 ==> p == 0
    ensures RawTarget(cur, len, offset, how) >= len ==> p == len - 1
  {
    var raw := RawTarget(cur, len, offset, how);
    if raw < 0 then 0 else if raw >= len then len - 1 else raw
  }

  /** The element at `i` taken out and put back so that it ends at index `p`. */
  function Moved<T>(s: seq<T>, i: nat, p: nat): (r: seq<T>)
    requires i < |s| && p < |s|
    ensures |r| == |s| && r[p] == s[i]
  {
    var rest := RemoveAt(s, i);
    InsertAt(rest, p, s[i])
  }

  /** Where the element at index `k` of `Moved(s, i, p)` came from. */
  function MovedSource(i: nat, p: nat, k: nat): nat {
    if k == p then i
    else if i < p && i <= k < p then k + 1
    else if p < i && p < k <= i then k - 1
    else k
  }

  lemma MovedAt<T>(s: seq<T>, i: nat, p: nat, k: nat)
    requires i < |s| && p < |s| && k < |s|
    ensures MovedSource(i, p, k) < |s|
    ensures Moved(s, i, p)[k] == s[MovedSource(i, p, k)]
  {
  }

  /**
   * Repositioning is a permutation that puts the moved element at `p` and keeps
   * every other element in its relative order.
   */
  lemma MovedIsReorder<T>(s: seq<T>, i: nat, p: nat)
    requires i < |s| && p < |s|
    ensures multiset(Moved(s, i, p)) == multiset(s)
    ensures RemoveAt(Moved(s, i, p), p) == RemoveAt(s, i)
  {
    var rest := RemoveAt(s, i);
    assert s == s[..i] + [s[i]] + s[i + 1..];
    assert multiset(s) == multiset(s[..i]) + multiset{s[i]} + multiset(s[i + 1..]);
    assert rest == s[..i] + s[i + 1..];
    assert multiset(rest) + multiset{s[i]} == multiset(s);
    assert rest == rest[..p] + rest[p..];
    assert Moved(s, i, p) == rest[..p] + [s[i]] + rest[p..];
    assert multiset(Moved(s, i, p)) == multiset(rest[..p]) + multiset{s[i]} + multiset(rest[p..]);
    var r := Moved(s, i, p);
    assert r == r[..p] + [r[p]] + r[p + 1..];
    assert r[..p] == rest[..p] && r[p + 1..] == rest[p..];
  }

  /** The indices repositioning reads from are all distinct. */
  lemma MovedSourceInjective(i: nat, p: nat, k1: nat, k2: nat)
    requires MovedSource(i, p, k1) == MovedSource(i, p, k2)
    ensures k1 == k2
  {
  }

  /**
   * The tellWaiting window: up to `num` elements starting at `offset`,
   * clamped to the end of the queue.
   */
  function Window<T>(s: seq<T>, offset: nat, num: nat): (r: seq<T>)
    ensures |r| == if offset >= |s| then 0 else Min(num, |s| - offset)
    ensures forall k :: 0 <= k < |r| ==> r[k] == s[offset + k]
  {
    if offset >= |s| then [] else s[offset..offset + Min(num, |s| - offset)]
  }

  /** No element occurs twice. */
  predicate Distinct<T(==)>(s: seq<T>) {
    forall a, b :: 0 <= a < |s| && 0 <= b < |s| && a != b ==> s[a] != s[b]
  }

  /** Moving an element keeps a sequence free of duplicates. */
  lemma MovedDistinct<T>(s: seq<T>, i: nat, p: nat)
    requires i < |s| && p < |s| && Distinct(s)
    ensures Distinct(Moved(s, i, p))
  {
    var r := Moved(s, i, p);
    forall a, b | 0 <= a < |r| && 0 <= b < |r| && a != b
      ensures r[a] != r[b]
    {
      MovedAt(s, i, p, a);
      MovedAt(s, i, p, b);
      if MovedSource(i, p, a) == MovedSource(i, p, b) {
        MovedSourceInjective(i, p, a, b);
      }
    }
  }

  /** Moving an element keeps the same members. */
  lemma MovedMembers<T>(s: seq<T>, i: nat, p: nat)
    requires i < |s| && p < |s|
    ensures forall x :: x in Moved(s, i, p) <==> x in s
  {
    MovedIsReorder(s, i, p);
    forall x
      ensures x in Moved(s, i, p) <==> x in s
    {
      assert x in Moved(s, i, p) <==> x in multiset(Moved(s, i, p));
      assert x in s <==> x in multiset(s);
    }
  }

  /** The first index holding `x`. */
  function IndexOf<T(==)>(s: seq<T>, x: T): (r: Option<nat>)
    ensures r.None? <==> x !in s
    ensures r.Some? ==> r.value < |s| && s[r.value] == x && forall j :: 0 <= j < r.value ==> s[j] != x
  {
    if s == [] then None
    else if s[0] == x then Some(0)
    else
      match IndexOf(s[1..], x)
      case None => None
      case Some(j) => Some(j + 1)
  }
}
