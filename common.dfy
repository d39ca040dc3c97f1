/** Small helpers shared by the analyzer and the streaming ingest. */
module Common {

  /** Python's `Optional`: `None` or a value. */
  datatype Option<+T> = None | Some(value: T)

  function Max(a: real, b: real): real { if a >= b then a else b }

  function Min(a: real, b: real): real { if a <= b then a else b }

  /** The Python idiom `if len(s) > m: s = s[-m:]`.
      Because `s[-0:]` is the whole list, a bound of 0 trims nothing. */
  function KeepLast<T>(s: seq<T>, m: nat): (r: seq<T>)
    ensures |r| == (if m > 0 && |s| > m then m else |s|)
    ensures r == s[|s| - |r|..]
  {
    if m > 0 && |s| > m then s[|s| - m..] else s
  }

  /** Taking a suffix of a suffix is taking a suffix of the whole. */
  lemma SuffixOfSuffix<T>(u: seq<T>, v: seq<T>, len: nat)
    requires |u| <= |v| && u == v[|v| - |u|..]
    requires len <= |u|
    ensures u[|u| - len..] == v[|v| - len..]
  {
    var a, b := u[|u| - len..], v[|v| - len..];
    forall i | 0 <= i < len
      ensures a[i] == b[i]
    {
      assert u[|u| - len + i] == v[|v| - |u| + (|u| - len + i)];
    }
  }

  /** Trimming before appending and trimming after it agree: a bounded
      buffer that is trimmed after every append holds the most recent
      elements of the whole stream. */
  lemma KeepLastConcat<T>(s: seq<T>, t: seq<T>, m: nat)
    ensures KeepLast(KeepLast(s, m) + t, m) == KeepLast(s + t, m)
  {
    if m > 0 {
      var k := KeepLast(s, m);
      var u, v := k + t, s + t;
      assert u == v[|v| - |u|..] by {
        assert k == s[|s| - |k|..];
        assert v[|v| - |u|..] == s[|s| - |k|..] + t;
      }
      SuffixOfSuffix(u, v, |KeepLast(v, m)|);
    }
  }

  /** The chunks joined in order. */
  function Concat<T>(chunks: seq<seq<T>>): seq<T>
  {
    if chunks == [] then [] else Concat(chunks[..|chunks| - 1]) + chunks[|chunks| - 1]
  }

  /** A bounded buffer fed whole chunks, trimmed after each one. */
  function Chunked<T>(buffer: seq<T>, chunks: seq<seq<T>>, m: nat): seq<T>
  {
    if chunks == [] then buffer
    else KeepLast(Chunked(buffer, chunks[..|chunks| - 1], m) + chunks[|chunks| - 1], m)
  }

  /** However a stream is cut into chunks, trimming after every chunk keeps
      the most recent elements of the whole stream. */
  lemma {:induction false} ChunkedIsRecent<T>(buffer: seq<T>, chunks: seq<seq<T>>, m: nat)
    requires m > 0 ==> |buffer| <= m
    ensures Chunked(buffer, chunks, m) == KeepLast(buffer + Concat(chunks), m)
  {
    if chunks == [] {
      assert buffer + [] == buffer;
    } else {
      var prefix, last := chunks[..|chunks| - 1], chunks[|chunks| - 1];
      var all := buffer + Concat(prefix);
      calc {
        Chunked(buffer, chunks, m);
        KeepLast(Chunked(buffer, prefix, m) + last, m);
        { ChunkedIsRecent(buffer, prefix, m); }
        KeepLast(KeepLast(all, m) + last, m);
        { KeepLastConcat(all, last, m); }
        KeepLast(all + last, m);
        { AppendAssoc(buffer, Concat(prefix), last); }
        KeepLast(buffer + Concat(chunks), m);
      }
    }
  }

  lemma AppendAssoc<T>(a: seq<T>, b: seq<T>, c: seq<T>)
    ensures a + b + c == a + (b + c)
  {
  }

  ghost predicate IsSorted(s: seq<real>)
  {
    forall i, j :: 0 <= i < j < |s| ==> s[i] <= s[j]
  }

  /** Prepending an element no larger than the head keeps a sequence sorted. */
  lemma SortedCons(x: real, s: seq<real>)
    requires IsSorted(s)
    requires |s| > 0 ==> x <= s[0]
    ensures IsSorted([x] + s)
  {
    var r := [x] + s;
    forall i, j | 0 <= i < j < |r|
      ensures r[i] <= r[j]
    {
      if i > 0 {
        assert r[i] == s[i - 1] && r[j] == s[j - 1];
      } else {
        assert r[j] == s[j - 1] && s[0] <= s[j - 1];
      }
    }
  }

  /** Dropping the head keeps a sequence sorted, and the head is no larger than the new head. */
  lemma SortedTail(s: seq<real>)
    requires IsSorted(s) && |s| > 0
    ensures IsSorted(s[1..])
    ensures |s| > 1 ==> s[0] <= s[1..][0]
  {
    var tail := s[1..];
    forall i, j | 0 <= i < j < |tail|
      ensures tail[i] <= tail[j]
    {
      assert tail[i] == s[i + 1] && tail[j] == s[j + 1];
    }
  }

  /** Inserts `x` into a sorted sequence. */
  function Insert(x: real, s: seq<real>): (r: seq<real>)
    requires IsSorted(s)
    ensures |r| == |s| + 1
    ensures IsSorted(r)
    ensures multiset(r) == multiset(s) + multiset{x}
  {
    if s == [] then [x]
    else if x <= s[0] then
      SortedCons(x, s);
      [x] + s
    else
      var tail := s[1..];
      SortedTail(s);
      var t := Insert(x, tail);
      SortedCons(s[0], t);
      assert s == [s[0]] + tail;
      [s[0]] + t
  }

  /** Python's `sorted` on a list of reals: an ascending permutation. */
  function SortAscending(s: seq<real>): (r: seq<real>)
    ensures |r| == |s|
    ensures IsSorted(r)
    ensures multiset(r) == multiset(s)
  {
    if s == [] then []
    else
      assert s == [s[0]] + s[1..];
      Insert(s[0], SortAscending(s[1..]))
  }
}
