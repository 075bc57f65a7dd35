/**
 * The text operations the SMTP stream's find-and-replace is specified with: where a
 * string occurs, `strpos`, `str_replace`, `explode` with a string separator, and the
 * facts that let a replacement be computed piecewise.
 */
module SmtpText {
  import opened Wrappers
  import Php

  /** `$s` contains `from` starting at position `i`. */
  predicate OccursAt(s: string, from: string, i: int) {
    0 <= i && i + |from| <= |s| && s[i..i + |from|] == from
  }

  /** An occurrence that ends within `s` is one of `s`. */
  lemma OccursShrink(s: string, y: string, from: string, j: int)
    requires OccursAt(s + y, from, j) && j + |from| <= |s|
    ensures OccursAt(s, from, j)
  {
    assert (s + y)[j..j + |from|] == s[j..j + |from|];
  }

  /** Occurrences in a suffix are the occurrences in the whole text, shifted. */
  lemma OccursShift(s: string, from: string, m: nat, j: int)
    requires m <= |s|
    ensures OccursAt(s[m..], from, j) <==> OccursAt(s, from, m + j) && j >= 0
  {
    if 0 <= j && j + |from| <= |s| - m {
      assert s[m..][j..j + |from|] == s[m + j..m + j + |from|];
    }
  }

  /** `strpos($s, $from)`, for a non-empty `from`: the first position where it occurs, or false. */
  function FirstOccurrence(s: string, from: string): (r: Option<nat>)
    requires |from| > 0
    ensures r.Some? ==> OccursAt(s, from, r.value)
    ensures r.Some? ==> forall j :: 0 <= j < r.value ==> !OccursAt(s, from, j)
    ensures r.None? ==> forall j :: !OccursAt(s, from, j)
    decreases |s|
  {
    if |s| < |from| then None
    else if s[..|from|] == from then Some(0)
    else
      ShiftOne(s, from);
      assert !OccursAt(s, from, 0);
      match FirstOccurrence(s[1..], from)
      case None => None
      case Some(i) => Some(i + 1)
  }

  lemma ShiftOne(s: string, from: string)
    requires |s| >= 1
    ensures forall j :: 1 <= j ==> (OccursAt(s, from, j) <==> OccursAt(s[1..], from, j - 1))
  {
    forall j | 1 <= j
      ensures OccursAt(s, from, j) <==> OccursAt(s[1..], from, j - 1)
    {
      OccursShift(s, from, 1, j - 1);
    }
  }

  /**
   * `str_replace($from, $to, $s)`: scanning left to right, each occurrence of `from` is
   * replaced by `to` and the scan resumes after it, so occurrences never overlap; an
   * empty `from` replaces nothing.
   */
  function ReplaceAll(s: string, from: string, to: string): string
    decreases |s|
  {
    if |from| == 0 || |s| < |from| then s
    else if s[..|from|] == from then to + ReplaceAll(s[|from|..], from, to)
    else [s[0]] + ReplaceAll(s[1..], from, to)
  }

  /**
   * `explode($from, $s)` for a non-empty `from`: the pieces between the occurrences,
   * found scanning left to right like `str_replace` does.
   */
  function Explode(s: string, from: string): (parts: seq<string>)
    requires |from| > 0
    ensures |parts| >= 1
    ensures |parts| == 1 ==> parts[0] == s
    ensures |parts| == 1 <==> FirstOccurrence(s, from).None?
    ensures FirstOccurrence(parts[|parts| - 1], from).None?
    decreases |s|
  {
    if |s| < |from| then [s]
    else if s[..|from|] == from then [""] + Explode(s[|from|..], from)
    else
      var ps := Explode(s[1..], from);
      assert s == [s[0]] + s[1..];
      [[s[0]] + ps[0]] + ps[1..]
  }

  /** The concatenated chunks. */
  function Flatten(chunks: seq<string>): string {
    if chunks == [] then "" else chunks[0] + Flatten(chunks[1..])
  }

  lemma {:induction false} FlattenConcat(chunks: seq<string>, more: seq<string>)
    ensures Flatten(chunks + more) == Flatten(chunks) + Flatten(more)
    decreases |chunks|
  {
    if chunks == [] {
      assert chunks + more == more;
    } else {
      assert (chunks + more)[1..] == chunks[1..] + more;
      FlattenConcat(chunks[1..], more);
      Assoc(chunks[0], Flatten(chunks[1..]), Flatten(more));
    }
  }

  lemma {:induction false} FlattenAppend(chunks: seq<string>, c: string)
    ensures Flatten(chunks + [c]) == Flatten(chunks) + c
  {
    if chunks != [] {
      assert (chunks + [c])[1..] == chunks[1..] + [c];
      FlattenAppend(chunks[1..], c);
    }
  }

  /** Replacing can start at any position before which `from` does not begin. */
  lemma {:induction false} ReplaceSkip(s: string, from: string, to: string, m: nat)
    requires |from| > 0 && m <= |s|
    requires forall j :: 0 <= j < m ==> !OccursAt(s, from, j)
    ensures ReplaceAll(s, from, to) == s[..m] + ReplaceAll(s[m..], from, to)
    decreases m
  {
    if m > 0 {
      if |s| < |from| {
        assert s == s[..m] + s[m..];
      } else {
        assert !OccursAt(s, from, 0);
        var t := s[1..];
        forall j | 0 <= j < m - 1
          ensures !OccursAt(t, from, j)
        {
          OccursShift(s, from, 1, j);
        }
        ReplaceSkip(t, from, to, m - 1);
        assert t[m - 1..] == s[m..];
        assert t[..m - 1] == s[1..m];
        assert s[..m] == [s[0]] + s[1..m];
        assert ReplaceAll(s, from, to) == [s[0]] + ReplaceAll(t, from, to);
        Assoc([s[0]], t[..m - 1], ReplaceAll(t[m - 1..], from, to));
      }
    }
  }

  /** Text without `from` is left as it is. */
  lemma ReplaceNone(s: string, from: string, to: string)
    requires |from| > 0 && FirstOccurrence(s, from).None?
    ensures ReplaceAll(s, from, to) == s
  {
    ReplaceSkip(s, from, to, |s|);
    assert s[..|s|] == s;
  }

  lemma ExplodeAtStart(s: string, from: string)
    requires |from| > 0 && |s| >= |from| && s[..|from|] == from
    ensures Explode(s, from) == [""] + Explode(s[|from|..], from)
  {
  }

  lemma ExplodeSkipFirst(s: string, from: string)
    requires |from| > 0 && |s| >= |from| && s[..|from|] != from
    ensures var ps := Explode(s[1..], from);
      Explode(s, from) == [[s[0]] + ps[0]] + ps[1..]
  {
  }

  /** Joining with `to` a piece in front of at least one more. */
  lemma ImplodeCons(to: string, a: string, ps: seq<string>)
    requires |ps| >= 1
    ensures Php.Implode(to, [a] + ps) == (a + to) + Php.Implode(to, ps)
  {
    assert ([a] + ps)[1..] == ps;
  }

  lemma Assoc(a: string, b: string, c: string)
    ensures a + (b + c) == (a + b) + c
  {
  }

  /** Text that begins with `from`, whatever follows it: the occurrence becomes `to`. */
  lemma ReplaceAtStart(s: string, y: string, from: string, to: string)
    requires |from| > 0 && |s| >= |from| && s[..|from|] == from
    ensures ReplaceAll(s + y, from, to) == to + ReplaceAll(s[|from|..] + y, from, to)
  {
    assert (s + y)[..|from|] == from;
    assert (s + y)[|from|..] == s[|from|..] + y;
  }

  /** Text long enough for `from` that does not begin with it: its first character is kept. */
  lemma ReplaceSkipFirst(s: string, y: string, from: string, to: string)
    requires |from| > 0 && |s| >= |from| && s[..|from|] != from
    ensures ReplaceAll(s + y, from, to) == [s[0]] + ReplaceAll(s[1..] + y, from, to)
  {
    assert (s + y)[..|from|] == s[..|from|];
    assert (s + y)[1..] == s[1..] + y;
  }

  /** The joined pieces after an empty first piece: `to` in front. */
  lemma JoinAfterEmpty(to: string, ps: seq<string>, rest: string, x: string)
    requires |ps| >= 1
    requires |ps| >= 2 ==> x == Php.Implode(to, ps[..|ps| - 1]) + to + rest
    requires |ps| == 1 ==> x == rest
    ensures to + x == Php.Implode(to, ([""] + ps)[..|ps|]) + to + rest
  {
    var qs := ([""] + ps)[..|ps|];
    if |ps| >= 2 {
      assert qs == [""] + ps[..|ps| - 1];
      ImplodeCons(to, "", ps[..|ps| - 1]);
      Assoc(to, Php.Implode(to, ps[..|ps| - 1]) + to, rest);
      Assoc(to, Php.Implode(to, ps[..|ps| - 1]), to);
    } else {
      assert qs == [""];
    }
  }

  /** The joined pieces after a character is put in front of the first piece. */
  lemma JoinAfterChar(to: string, c: string, ps: seq<string>, rest: string, x: string)
    requires |ps| >= 2
    requires x == Php.Implode(to, ps[..|ps| - 1]) + to + rest
    ensures c + x == Php.Implode(to, ([c + ps[0]] + ps[1..])[..|ps| - 1]) + to + rest
  {
    var qs := ([c + ps[0]] + ps[1..])[..|ps| - 1];
    if |ps| >= 3 {
      var mid := ps[1..|ps| - 1];
      assert ps[..|ps| - 1] == [ps[0]] + mid;
      assert qs == [c + ps[0]] + mid;
      ImplodeCons(to, ps[0], mid);
      ImplodeCons(to, c + ps[0], mid);
      var tail := Php.Implode(to, mid);
      Assoc(c, (ps[0] + to) + tail, to + rest);
      Assoc(c, ps[0] + to, tail);
      Assoc(c, ps[0], to);
      Assoc(Php.Implode(to, ps[..|ps| - 1]), to, rest);
      Assoc(Php.Implode(to, qs), to, rest);
    } else {
      assert ps[..|ps| - 1] == [ps[0]];
      assert qs == [c + ps[0]];
      Assoc(c, ps[0], to + rest);
      Assoc(c + ps[0], to, rest);
      Assoc(ps[0], to, rest);
    }
  }

  /**
   * Splitting at the occurrences and joining the pieces -- all but the last -- with `to`,
   * followed by `to`, is the replacement of everything up to the last piece; whatever
   * follows is replaced starting from that last piece.
   */
  lemma {:induction false} ExplodeReplace(s: string, y: string, from: string, to: string)
    requires |from| > 0 && |Explode(s, from)| >= 2
    ensures var parts := Explode(s, from);
      ReplaceAll(s + y, from, to) ==
        Php.Implode(to, parts[..|parts| - 1]) + to + ReplaceAll(parts[|parts| - 1] + y, from, to)
    decreases |s|
  {
    var parts := Explode(s, from);
    if s[..|from|] == from {
      var t := s[|from|..];
      var ps := Explode(t, from);
      ExplodeAtStart(s, from);
      ReplaceAtStart(s, y, from, to);
      if |ps| >= 2 {
        ExplodeReplace(t, y, from, to);
      }
      JoinAfterEmpty(to, ps, ReplaceAll(ps[|ps| - 1] + y, from, to), ReplaceAll(t + y, from, to));
    } else {
      var t := s[1..];
      var ps := Explode(t, from);
      ExplodeSkipFirst(s, from);
      ReplaceSkipFirst(s, y, from, to);
      ExplodeReplace(t, y, from, to);
      JoinAfterChar(to, [s[0]], ps, ReplaceAll(ps[|ps| - 1] + y, from, to), ReplaceAll(t + y, from, to));
    }
  }

  /** A suffix of text without `from` has none either. */
  lemma SuffixNoOccurrence(s: string, from: string, m: nat)
    requires |from| > 0 && m <= |s| && FirstOccurrence(s, from).None?
    ensures FirstOccurrence(s[m..], from).None?
  {
    forall j | OccursAt(s[m..], from, j)
      ensures false
    {
      OccursShift(s, from, m, j);
    }
  }

  /**
   * Text without `from` can give up all but its last `|from|` characters: whatever
   * follows, no occurrence starts in that front part.
   */
  lemma HoldBackReplace(carry: string, rest: string, from: string, to: string, m: nat)
    requires |from| > 0 && |carry| > |from| && FirstOccurrence(carry, from).None?
    requires m == |carry| - |from|
    ensures ReplaceAll(carry + rest, from, to) == carry[..m] + ReplaceAll(carry[m..] + rest, from, to)
    ensures FirstOccurrence(carry[m..], from).None?
  {
    forall j | 0 <= j < m
      ensures !OccursAt(carry + rest, from, j)
    {
      if OccursAt(carry + rest, from, j) {
        OccursShrink(carry, rest, from, j);
      }
    }
    ReplaceSkip(carry + rest, from, to, m);
    assert (carry + rest)[..m] == carry[..m];
    assert (carry + rest)[m..] == carry[m..] + rest;
    SuffixNoOccurrence(carry, from, m);
  }

  /** Emitting a piece that the replacement of the remaining text begins with. */
  lemma Emit(pieces: seq<string>, p: string, x: string, y: string)
    requires x == p + y
    ensures Flatten(pieces + [p]) + y == Flatten(pieces) + x
  {
    FlattenAppend(pieces, p);
    Assoc(Flatten(pieces), p, y);
  }

  lemma SplitLast(ps: seq<string>)
    requires |ps| >= 1
    ensures ps == ps[..|ps| - 1] + [ps[|ps| - 1]]
  {
  }

  /** Joining with `to` one more piece at the end. */
  lemma {:induction false} ImplodeSnoc(to: string, ps: seq<string>, b: string)
    requires |ps| >= 1
    ensures Php.Implode(to, ps + [b]) == Php.Implode(to, ps) + to + b
    decreases |ps|
  {
    if |ps| == 1 {
      assert (ps + [b])[1..] == [b];
    } else {
      assert (ps + [b])[1..] == ps[1..] + [b];
      ImplodeSnoc(to, ps[1..], b);
      Assoc(ps[0] + to, Php.Implode(to, ps[1..]) + to, b);
      Assoc(ps[0] + to, Php.Implode(to, ps[1..]), to);
    }
  }

  /** `str_replace($from, $to, $s)` is `implode($to, explode($from, $s))`. */
  lemma ReplaceIsImplodeExplode(s: string, from: string, to: string)
    requires |from| > 0
    ensures ReplaceAll(s, from, to) == Php.Implode(to, Explode(s, from))
  {
    var parts := Explode(s, from);
    var last := parts[|parts| - 1];
    ReplaceNone(last, from, to);
    if |parts| >= 2 {
      ExplodeReplace(s, "", from, to);
      assert s + "" == s && last + "" == last;
      SplitLast(parts);
      ImplodeSnoc(to, parts[..|parts| - 1], last);
    }
  }

  /** Replacing `from` by itself changes nothing. */
  lemma {:induction false} ReplaceIdentity(s: string, from: string)
    ensures ReplaceAll(s, from, from) == s
    decreases |s|
  {
    if |from| > 0 && |s| >= |from| {
      if s[..|from|] == from {
        ReplaceIdentity(s[|from|..], from);
        assert s == s[..|from|] + s[|from|..];
      } else {
        ReplaceIdentity(s[1..], from);
        assert s == [s[0]] + s[1..];
      }
    }
  }

  /** Joining the pieces of `explode($from, $s)` with `from` gives `$s` back. */
  lemma ExplodeRoundTrip(s: string, from: string)
    requires |from| > 0
    ensures Php.Implode(from, Explode(s, from)) == s
  {
    ReplaceIsImplodeExplode(s, from, from);
    ReplaceIdentity(s, from);
  }
}
