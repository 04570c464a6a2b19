/**
 * String helpers the emission engine relies on: `fmt::join`, `std::string::find`
 * and `details::Split` (src/pygen.cpp:193-205), with the round trip between
 * joining and splitting.
 */
module Strings {
  import opened Wrappers

  /** `parts` with `sep` between neighbours, as `fmt::join(parts, sep)` renders it. */
  function Join(parts: seq<string>, sep: string): string
  {
    if |parts| == 0 then ""
    else if |parts| == 1 then parts[0]
    else parts[0] + sep + Join(parts[1..], sep)
  }

  // Regroupings of `+`. Each is plain associativity; they are stated once so
  // that a proof can name the regrouping it needs instead of leaving the
  // solver to search for it among long concatenations.

  lemma {:induction false} AppendAssoc3<T>(p: seq<T>, x: seq<T>, y: seq<T>)
    ensures p + x + y == p + (x + y)
  {
  }

  lemma {:induction false} AppendAssoc(p: string, x: string, y: string, z: string)
    ensures p + x + y + z == p + (x + y + z)
  {
  }

  lemma {:induction false} AppendAssoc5(p: string, w: string, x: string, y: string, z: string)
    ensures p + w + x + y + z == p + (w + x + y + z)
  {
  }

  lemma {:induction false} JoinAssoc(head: string, sep: string, x: string)
    ensures head + sep + x + sep == head + sep + (x + sep)
  {
  }

  /**
   * Joining one more piece: the earlier join, the separator unless nothing
   * came before, then the new piece.
   */
  lemma {:induction false} JoinSnoc(parts: seq<string>, sep: string, x: string)
    ensures Join(parts + [x], sep) == Join(parts, sep) + (if parts == [] then "" else sep) + x
    decreases |parts|
  {
    if |parts| == 1 {
      assert (parts + [x])[1..] == [x];
    } else if |parts| >= 2 {
      assert (parts + [x])[1..] == parts[1..] + [x];
      JoinSnoc(parts[1..], sep, x);
      AppendAssoc(parts[0], sep, Join(parts[1..], sep), sep + x);
    } else {
      assert parts + [x] == [x];
    }
  }

  /** `sep` occurs in `s` starting at index `k`. */
  predicate OccursAt(s: string, sep: string, k: nat)
  {
    k + |sep| <= |s| && s[k..k + |sep|] == sep
  }

  predicate Contains(s: string, sep: string)
  {
    exists k: nat | k <= |s| :: OccursAt(s, sep, k)
  }

  /**
   * No proper prefix of `sep` is also a suffix of it, so two occurrences of
   * `sep` can never overlap (", " and "," are such separators).
   */
  predicate Borderless(sep: string)
  {
    forall b :: 0 < b < |sep| ==> sep[..b] != sep[|sep| - b..]
  }

  /** ", ", the separator of parameter and import lists, never overlaps itself. */
  lemma {:induction false} CommaSpaceBorderless()
    ensures Borderless(", ")
  {
    assert ", "[..1] == "," && ", "[1..] == " ";
  }

  /** `s.find(sep, from)`: the first occurrence of `sep` at or after `from`. */
  function Find(s: string, sep: string, from: nat): (r: Option<nat>)
    ensures r.Some? ==> from <= r.value && r.value + |sep| <= |s|
    decreases |s| - from
  {
    if from + |sep| > |s| then None
    else if s[from..from + |sep|] == sep then Some(from)
    else Find(s, sep, from + 1)
  }

  /**
   * `Find` returns the first occurrence at or after `from`: `sep` occurs there
   * and nowhere between `from` and it; `None` means it occurs nowhere from `from` on.
   */
  lemma {:induction false} FindSpec(s: string, sep: string, from: nat)
    ensures var r := Find(s, sep, from);
            r.Some? ==> from <= r.value && OccursAt(s, sep, r.value)
    ensures var r := Find(s, sep, from);
            r.Some? ==> forall j: nat :: from <= j < r.value ==> !OccursAt(s, sep, j)
    ensures var r := Find(s, sep, from);
            r.None? ==> forall j: nat :: from <= j ==> !OccursAt(s, sep, j)
    decreases |s| - from
  {
    if from + |sep| <= |s| && s[from..from + |sep|] != sep {
      FindSpec(s, sep, from + 1);
    }
  }

  /** Searching from `p + i` in `s` is searching from `i` in `s[p..]`, shifted by `p`. */
  lemma {:induction false} FindShift(s: string, sep: string, p: nat, i: nat)
    requires p <= |s|
    ensures Find(s, sep, p + i) ==
              match Find(s[p..], sep, i)
              case None => None
              case Some(k) => Some(k + p)
    decreases |s| - p - i
  {
    if p + i + |sep| > |s| {
    } else {
      assert s[p..][i..i + |sep|] == s[p + i..p + i + |sep|];
      if s[p + i..p + i + |sep|] != sep {
        FindShift(s, sep, p, i + 1);
      }
    }
  }

  /**
   * The reference meaning of `Split`: the piece before the first separator,
   * then the split of what follows it; nothing for the empty string, and the
   * whole string when no separator occurs.
   */
  function SplitRef(src: string, sep: string): seq<string>
    requires |sep| > 0
    decreases |src|
  {
    if |src| == 0 then []
    else
      match Find(src, sep, 0)
      case None => [src]
      case Some(k) => [src[..k]] + SplitRef(src[k + |sep|..], sep)
  }

  /** One turn of the loop: the piece up to the separator found from `pos1`, then the rest. */
  lemma {:induction false} SplitStep(src: string, sep: string, pos1: nat, k: nat)
    requires |sep| > 0 && pos1 <= |src|
    requires Find(src, sep, pos1) == Some(k)
    ensures k + |sep| <= |src|
    ensures SplitRef(src[pos1..], sep) == [src[pos1..k]] + SplitRef(src[k + |sep|..], sep)
  {
    var t := src[pos1..];
    var j := k - pos1;
    assert Find(t, sep, 0) == Some(j) by {
      FindShift(src, sep, pos1, 0);
    }
    SplitRefFirst(t, sep, j);
    assert t[..j] == src[pos1..k];
    assert t[j + |sep|..] == src[k + |sep|..];
  }

  /** The first piece ends where the first separator starts. */
  lemma {:induction false} SplitRefFirst(s: string, sep: string, j: nat)
    requires |sep| > 0
    requires Find(s, sep, 0) == Some(j)
    ensures j + |sep| <= |s|
    ensures SplitRef(s, sep) == [s[..j]] + SplitRef(s[j + |sep|..], sep)
  {
    assert |s| > 0;
  }

  /** After the loop: the remainder is one last piece, or nothing when it is empty. */
  lemma {:induction false} SplitLast(src: string, sep: string, pos1: nat)
    requires |sep| > 0 && pos1 <= |src|
    requires Find(src, sep, pos1) == None
    ensures SplitRef(src[pos1..], sep) == if pos1 == |src| then [] else [src[pos1..]]
  {
    FindShift(src, sep, pos1, 0);
  }

  /** `details::Split(src, sep)`, the loop of src/pygen.cpp:193-205. */
  method Split(src: string, sep: string) returns (res: seq<string>)
    requires |sep| > 0
    ensures res == SplitRef(src, sep)
    ensures res == [] <==> src == ""
    ensures forall i :: 0 <= i < |res| ==> !Contains(res[i], sep)
  {
    res := [];
    var pos1: nat := 0;
    var pos2 := Find(src, sep, 0);
    assert src[0..] == src;
    assert res + SplitRef(src, sep) == SplitRef(src, sep);
    while pos2.Some?
      invariant pos1 <= |src|
      invariant pos2 == Find(src, sep, pos1)
      invariant res + SplitRef(src[pos1..], sep) == SplitRef(src, sep)
      decreases |src| - pos1
    {
      var k := pos2.value;
      var piece, rest := src[pos1..k], SplitRef(src[k + |sep|..], sep);
      assert SplitRef(src[pos1..], sep) == [piece] + rest by {
        SplitStep(src, sep, pos1, k);
      }
      AppendAssoc3(res, [piece], rest);
      res := res + [piece];
      pos1 := k + |sep|;
      pos2 := Find(src, sep, pos1);
      assert res + SplitRef(src[pos1..], sep) == SplitRef(src, sep);
    }
    SplitLast(src, sep, pos1);
    if pos1 != |src| {
      res := res + [src[pos1..]];
    }
    SplitRefEmpty(src, sep);
    SplitRefPieces(src, sep);
  }

  lemma {:induction false} SplitRefEmpty(src: string, sep: string)
    requires |sep| > 0
    ensures SplitRef(src, sep) == [] <==> src == ""
  {
  }

  /** A prefix of `s` that ends before the first occurrence of `sep` does not contain `sep`. */
  lemma {:induction false} PrefixFree(s: string, sep: string, k: nat)
    requires |sep| > 0 && k <= |s|
    requires forall j: nat :: j < k ==> !OccursAt(s, sep, j)
    ensures !Contains(s[..k], sep)
  {
    forall j: nat | j <= k
      ensures !OccursAt(s[..k], sep, j)
    {
      if j + |sep| <= k {
        assert s[..k][j..j + |sep|] == s[j..j + |sep|];
        assert !OccursAt(s, sep, j);
      }
    }
  }

  /** No piece `Split` produces contains the separator. */
  lemma {:induction false} SplitRefPieces(src: string, sep: string)
    requires |sep| > 0
    ensures forall i :: 0 <= i < |SplitRef(src, sep)| ==> !Contains(SplitRef(src, sep)[i], sep)
    decreases |src|
  {
    if src != "" {
      FindSpec(src, sep, 0);
      match Find(src, sep, 0)
      case None =>
      case Some(k) =>
        PrefixFree(src, sep, k);
        SplitRefPieces(src[k + |sep|..], sep);
    }
  }

  /**
   * Joining the pieces with the separator gives `src` back when the last piece
   * is non-empty, and `src` minus one trailing separator otherwise.
   */
  lemma {:induction false} SplitRefJoin(src: string, sep: string)
    requires |sep| > 0
    ensures var r := SplitRef(src, sep);
            r != [] ==> (Join(r, sep) == src && r[|r| - 1] != "") || Join(r, sep) + sep == src
    decreases |src|
  {
    if src != "" {
      match Find(src, sep, 0)
      case None =>
      case Some(k) =>
        FindSpec(src, sep, 0);
        var head, tail := src[..k], src[k + |sep|..];
        assert src == head + sep + tail;
        var rest := SplitRef(tail, sep);
        var r := [head] + rest;
        SplitRefFirst(src, sep, k);
        SplitRefEmpty(tail, sep);
        if rest == [] {
          assert Join(r, sep) + sep == src;
        } else {
          assert r[1..] == rest;
          assert Join(r, sep) == head + sep + Join(rest, sep);
          SplitRefJoin(tail, sep);
          if Join(rest, sep) == tail && rest[|rest| - 1] != "" {
            assert r[|r| - 1] == rest[|rest| - 1];
          } else {
            JoinAssoc(head, sep, Join(rest, sep));
          }
        }
    }
  }

  /** A separator occurrence cannot start inside a sep-free piece that a borderless separator follows. */
  lemma {:induction false} NoEarlyOccurrence(p: string, sep: string, rest: string, j: nat)
    requires Borderless(sep) && !Contains(p, sep)
    requires j < |p|
    ensures !OccursAt(p + sep + rest, sep, j)
  {
    var s := p + sep + rest;
    if j + |sep| <= |p| {
      assert s[j..j + |sep|] == p[j..j + |sep|];
      assert !OccursAt(p, sep, j);
    } else if j + |sep| <= |s| {
      var b := j + |sep| - |p|;
      assert s[j..j + |sep|][|sep| - b..] == s[|p|..|p| + b] == sep[..b];
      assert sep[..b] != sep[|sep| - b..];
    }
  }

  /** The first piece of `p + sep + rest` is `p` when `p` holds no occurrence of a borderless `sep`. */
  lemma {:induction false} SplitRefAfter(p: string, sep: string, rest: string)
    requires |sep| > 0 && Borderless(sep) && !Contains(p, sep)
    ensures SplitRef(p + sep + rest, sep) == [p] + SplitRef(rest, sep)
  {
    var s := p + sep + rest;
    assert s[|p|..|p| + |sep|] == sep;
    assert OccursAt(s, sep, |p|);
    var f := Find(s, sep, 0);
    FindSpec(s, sep, 0);
    if f.value < |p| {
      NoEarlyOccurrence(p, sep, rest, f.value);
    }
    assert f.value == |p|;
    SplitRefFirst(s, sep, |p|);
    assert s[..|p|] == p;
    assert s[|p| + |sep|..] == rest;
  }

  /**
   * Split inverts Join: pieces free of a borderless separator, the last one
   * non-empty, come back out of `Split` exactly and in order.
   */
  lemma {:induction false} SplitJoinRoundTrip(parts: seq<string>, sep: string)
    requires |sep| > 0 && Borderless(sep)
    requires forall i :: 0 <= i < |parts| ==> !Contains(parts[i], sep)
    requires parts != [] ==> parts[|parts| - 1] != ""
    ensures SplitRef(Join(parts, sep), sep) == parts
  {
    if |parts| == 1 {
      FindSpec(parts[0], sep, 0);
      assert Find(parts[0], sep, 0) == None;
    } else if |parts| >= 2 {
      var p := parts[0];
      var rest := Join(parts[1..], sep);
      assert Join(parts, sep) == p + sep + rest;
      SplitRefAfter(p, sep, rest);
      SplitJoinRoundTrip(parts[1..], sep);
      assert parts == [p] + parts[1..];
    }
  }

  /** `s` ends with `suffix`. */
  predicate EndsWith(s: string, suffix: string)
  {
    |suffix| <= |s| && s[|s| - |suffix|..] == suffix
  }

  /**
   * When the pieces join back to the whole input, the input does not end
   * with a borderless separator: a trailing separator is always the one the
   * join loses.
   */
  lemma {:induction false} JoinedNoTrailing(src: string, sep: string)
    requires |sep| > 0 && Borderless(sep)
    ensures Join(SplitRef(src, sep), sep) == src ==> !EndsWith(src, sep)
    decreases |src|
  {
    if |src| > 0 {
      FindSpec(src, sep, 0);
      match Find(src, sep, 0)
      case None =>
        if |sep| <= |src| {
          assert !OccursAt(src, sep, |src| - |sep|);
        }
      case Some(k) =>
        var head, tail := src[..k], src[k + |sep|..];
        SplitRefFirst(src, sep, k);
        var rest := SplitRef(tail, sep);
        if rest != [] && Join(SplitRef(src, sep), sep) == src {
          assert ([head] + rest)[1..] == rest;
          assert src == head + sep + tail;
          assert Join(rest, sep) == tail by {
            assert head + sep + Join(rest, sep) == head + sep + tail;
            assert (head + sep + Join(rest, sep))[k + |sep|..] == Join(rest, sep);
          }
          JoinedNoTrailing(tail, sep);
          SplitRefEmpty(tail, sep);
          NoTrailingAfter(src, sep, k);
        }
    }
  }

  /**
   * A borderless separator at `k` followed by a non-empty remainder that does
   * not end with it: the whole string does not end with it either.
   */
  lemma {:induction false} NoTrailingAfter(src: string, sep: string, k: nat)
    requires |sep| > 0 && Borderless(sep) && OccursAt(src, sep, k)
    requires src[k + |sep|..] != "" && !EndsWith(src[k + |sep|..], sep)
    ensures !EndsWith(src, sep)
  {
    var tail := src[k + |sep|..];
    if |tail| >= |sep| {
      assert src[|src| - |sep|..] == tail[|tail| - |sep|..];
    } else {
      var b := |tail|;
      assert sep[b..] == src[k + b..k + |sep|];
      assert src[k + b..k + |sep|] == src[|src| - |sep|..][..|sep| - b];
      assert sep[..|sep| - b] != sep[|sep| - (|sep| - b)..];
    }
  }

  /**
   * For a borderless separator, joining the pieces loses exactly one
   * trailing separator when the input ends with one, and gives the input
   * back otherwise.
   */
  lemma {:induction false} SplitRefJoinTrailing(src: string, sep: string)
    requires |sep| > 0 && Borderless(sep)
    ensures Join(SplitRef(src, sep), sep) + sep == src <==> EndsWith(src, sep)
    ensures !EndsWith(src, sep) ==> Join(SplitRef(src, sep), sep) == src
  {
    var j := Join(SplitRef(src, sep), sep);
    SplitRefJoin(src, sep);
    SplitRefEmpty(src, sep);
    JoinedNoTrailing(src, sep);
    if j + sep == src {
      assert src[|src| - |sep|..] == sep;
    }
  }
}
