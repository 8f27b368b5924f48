/**
 * String operations the models share: the JavaScript string methods the
 * front end calls (trim, indexOf, startsWith, replace with a global pattern,
 * split, slice) and the few Python ones the back end calls.  Strings are
 * sequences of Unicode scalar values.
 */
module Strings {

  datatype Option<T> = None | Some(value: T)

  /** A JavaScript value that is either a string or `null`. */
  datatype MaybeText = Absent | Present(text: string)

  /**
   * The characters JavaScript's `trim()` and the regular-expression class
   * `\s` treat as white space: tab through carriage return, space, no-break
   * space, ogham space mark, the spaces U+2000 to U+200A, the line and
   * paragraph separators, narrow no-break space, medium mathematical space,
   * ideographic space and the byte-order mark.
   */
  predicate IsSpace(c: char) {
    || '\t' <= c <= '\r'
    || c == ' '
    || c == '\U{00A0}'
    || c == '\U{1680}'
    || '\U{2000}' <= c <= '\U{200A}'
    || c == '\U{2028}' || c == '\U{2029}'
    || c == '\U{202F}' || c == '\U{205F}'
    || c == '\U{3000}' || c == '\U{FEFF}'
  }

  predicate AllSpace(s: string) {
    forall i :: 0 <= i < |s| ==> IsSpace(s[i])
  }

  /** The number of white-space characters `s` starts with. */
  function Lead(s: string): (n: nat)
    ensures n <= |s|
    ensures forall i :: 0 <= i < n ==> IsSpace(s[i])
    ensures n == |s| || !IsSpace(s[n])
  {
    if s != [] && IsSpace(s[0]) then 1 + Lead(s[1..]) else 0
  }

  /** The number of white-space characters `s` ends with. */
  function Trail(s: string): (n: nat)
    ensures n <= |s|
    ensures forall i :: |s| - n <= i < |s| ==> IsSpace(s[i])
    ensures n == |s| || !IsSpace(s[|s| - n - 1])
  {
    if s != [] && IsSpace(s[|s| - 1]) then 1 + Trail(s[..|s| - 1]) else 0
  }

  /** JavaScript `s.trim()`: the slice of `s` between its leading and trailing white space. */
  function Trim(s: string): (r: string)
    ensures Lead(s) + |r| <= |s| && r == s[Lead(s)..Lead(s) + |r|]
    ensures r == [] || (!IsSpace(r[0]) && !IsSpace(r[|r| - 1]))
  {
    var a := Lead(s);
    s[a..|s| - Trail(s[a..])]
  }

  /** Trimming leaves nothing exactly when the string is all white space. */
  lemma TrimEmpty(s: string)
    ensures Trim(s) == [] <==> AllSpace(s)
  {
  }

  /** A first character that is not white space survives trimming. */
  lemma TrimKeepsHead(s: string)
    requires s != [] && !IsSpace(s[0])
    ensures Trim(s) != [] && Trim(s)[0] == s[0]
  {
    assert Lead(s) == 0;
    assert Trail(s) < |s|;
  }

  /** JavaScript `s.startsWith(p)`. */
  predicate StartsWith(s: string, p: string) {
    |p| <= |s| && s[..|p|] == p
  }

  predicate EndsWith(s: string, p: string) {
    |p| <= |s| && s[|s| - |p|..] == p
  }

  /** JavaScript `s.indexOf(c)` for a one-character needle: -1 when absent. */
  function IndexOf(s: string, c: char): (r: int)
    ensures -1 <= r < |s|
    ensures r == -1 <==> c !in s
    ensures 0 <= r ==> s[r] == c && c !in s[..r]
  {
    if s == [] then -1
    else if s[0] == c then 0
    else
      var k := IndexOf(s[1..], c);
      if k == -1 then -1
      else
        assert s[..k + 1] == [s[0]] + s[1..][..k];
        k + 1
  }

  /**
   * The smaller of `s.indexOf(a)` and `s.indexOf(b)` when both occur, the one
   * that occurs otherwise, and -1 when neither does: the first position
   * holding either character.
   */
  function FirstOfEither(s: string, a: char, b: char): (r: int)
    ensures -1 <= r < |s|
    ensures r == -1 <==> a !in s && b !in s
    ensures 0 <= r ==> (s[r] == a || s[r] == b) && a !in s[..r] && b !in s[..r]
  {
    var i, j := IndexOf(s, a), IndexOf(s, b);
    if i != -1 && j != -1 then
      if i <= j then
        assert s[..i] == s[..j][..i];
        i
      else
        assert s[..j] == s[..i][..j];
        j
    else if i != -1 then i
    else j
  }

  predicate OccursAt(s: string, pat: string, i: int) {
    0 <= i && i + |pat| <= |s| && s[i..i + |pat|] == pat
  }

  /** JavaScript `s.includes(pat)` and Python `pat in s`. */
  predicate HasSub(s: string, pat: string) {
    exists i :: 0 <= i <= |s| - |pat| && OccursAt(s, pat, i)
  }

  /** The first occurrence of `pat` in `s` at or after `k`, or -1. */
  function FindFrom(s: string, pat: string, k: nat): (r: int)
    ensures r == -1 || (k <= r && OccursAt(s, pat, r))
    ensures forall j :: k <= j && (r == -1 || j < r) ==> !OccursAt(s, pat, j)
    decreases |s| - k
  {
    if k + |pat| > |s| then -1
    else if s[k..k + |pat|] == pat then k
    else FindFrom(s, pat, k + 1)
  }

  /** JavaScript `s.indexOf(pat)`: the index of the leftmost occurrence, or -1. */
  function Find(s: string, pat: string): (r: int)
    ensures r == -1 <==> !HasSub(s, pat)
    ensures r != -1 ==> OccursAt(s, pat, r) && forall j :: 0 <= j < r ==> !OccursAt(s, pat, j)
  {
    FindFrom(s, pat, 0)
  }

  /**
   * JavaScript `s.replace(/pat/g, rep)` for a pattern without special
   * characters: leftmost, non-overlapping occurrences are replaced.
   */
  function ReplaceAll(s: string, pat: string, rep: string): string
    requires |pat| > 0
    decreases |s|
  {
    var i := Find(s, pat);
    if i < 0 then s else s[..i] + rep + ReplaceAll(s[i + |pat|..], pat, rep)
  }

  /** Deleting every occurrence of a pattern leaves a first character that cannot start it in place. */
  lemma {:induction false} DeleteKeepsHead(s: string, pat: string)
    requires |pat| > 0 && s != [] && s[0] != pat[0]
    ensures ReplaceAll(s, pat, "") != [] && ReplaceAll(s, pat, "")[0] == s[0]
  {
    var i := Find(s, pat);
    if i >= 0 {
      assert s[i..i + |pat|][0] == pat[0];
      assert (s[..i] + "" + ReplaceAll(s[i + |pat|..], pat, ""))[0] == s[..i][0];
    }
  }

  lemma SliceOfSlice(s: string, a: nat, b: nat, i: nat, j: nat)
    requires a <= b <= |s| && i <= j <= b - a
    ensures s[a..b][i..j] == s[a + i..a + j]
  {
    assert forall k :: 0 <= k < j - i ==> s[a..b][i..j][k] == s[a + i..a + j][k];
  }

  /** Any slice of a string free of `pat` is free of `pat`. */
  lemma SliceKeepsAbsence(s: string, pat: string, a: nat, b: nat)
    requires a <= b <= |s| && !HasSub(s, pat)
    ensures !HasSub(s[a..b], pat)
  {
    forall j | 0 <= j <= |s[a..b]| - |pat| ensures !OccursAt(s[a..b], pat, j) {
      SliceOfSlice(s, a, b, j, j + |pat|);
      assert !OccursAt(s, pat, a + j);
    }
  }

  lemma AbsenceInSlice(s: string, pat: string, a: nat, b: nat)
    requires a <= b <= |s|
    ensures !HasSub(s, pat) ==> !HasSub(s[a..b], pat)
  {
    if !HasSub(s, pat) {
      SliceKeepsAbsence(s, pat, a, b);
    }
  }

  const Fence := "```"

  /** The text before the first occurrence of `pat` is free of it. */
  lemma PrefixBeforeFirst(s: string, pat: string, i: nat)
    requires |pat| > 0 && i <= |s| && forall j :: 0 <= j < i ==> !OccursAt(s, pat, j)
    ensures !HasSub(s[..i], pat)
  {
    forall j | 0 <= j <= i - |pat| ensures !OccursAt(s[..i], pat, j) {
      SliceOfSlice(s, 0, i, j, j + |pat|);
      assert !OccursAt(s, pat, j);
    }
  }

  /** Two fence-free texts joined stay fence-free when the first does not end in a backtick. */
  lemma JoinedFenceFree(head: string, tail: string)
    requires !HasSub(head, Fence) && !HasSub(tail, Fence)
    requires head == [] || head[|head| - 1] != '`'
    ensures !HasSub(head + tail, Fence)
  {
    var whole := head + tail;
    forall j | 0 <= j <= |whole| - 3 ensures !OccursAt(whole, Fence, j) {
      if j + 3 <= |head| {
        assert whole[j..j + 3] == head[j..j + 3];
        assert !OccursAt(head, Fence, j);
      } else if j >= |head| {
        assert whole[j..j + 3] == tail[j - |head|..j - |head| + 3];
        assert !OccursAt(tail, Fence, j - |head|);
      } else {
        var k := |head| - 1 - j;
        assert whole[j..j + 3][k] == whole[j + k] == head[|head| - 1];
        assert Fence[k] == '`';
      }
    }
  }

  /** The character before the first fence is not a backtick, or the fence would start there. */
  lemma NoTickBeforeFirst(s: string, i: nat)
    requires 0 < i && i == Find(s, Fence)
    ensures s[i - 1] != '`'
  {
    assert s[i..i + 3] == Fence;
    assert !OccursAt(s, Fence, i - 1);
    assert s[i - 1..i + 2] == [s[i - 1], s[i], s[i + 1]];
  }

  /** After JavaScript's `replace(/```/g, '')` no code fence is left, whatever the input. */
  lemma {:induction false} NoFenceAfterDelete(s: string)
    ensures !HasSub(ReplaceAll(s, Fence, ""), Fence)
    decreases |s|
  {
    var i := Find(s, Fence);
    if i >= 0 {
      NoFenceAfterDelete(s[i + 3..]);
      NoFenceStep(s, i);
    }
  }

  /** Deleting the first fence keeps the result fence-free when deleting the rest does. */
  lemma NoFenceStep(s: string, i: int)
    requires i == Find(s, Fence) && i >= 0
    requires !HasSub(ReplaceAll(s[i + 3..], Fence, ""), Fence)
    ensures !HasSub(ReplaceAll(s, Fence, ""), Fence)
  {
    var head, tail := s[..i], ReplaceAll(s[i + 3..], Fence, "");
    assert ReplaceAll(s, Fence, "") == head + tail;
    PrefixBeforeFirst(s, Fence, i);
    if i > 0 {
      NoTickBeforeFirst(s, i);
      assert head[i - 1] == s[i - 1];
    }
    JoinedFenceFree(head, tail);
  }

  /** Joins `parts` with `sep` between neighbours, like JavaScript `parts.join(sep)`. */
  function JoinWith(parts: seq<string>, sep: string): string {
    if |parts| == 0 then ""
    else if |parts| == 1 then parts[0]
    else parts[0] + sep + JoinWith(parts[1..], sep)
  }

  lemma {:induction false} JoinAppend(a: seq<string>, b: seq<string>, sep: string)
    requires a != [] && b != []
    ensures JoinWith(a + b, sep) == JoinWith(a, sep) + sep + JoinWith(b, sep)
    decreases |a|
  {
    if |a| == 1 {
      assert (a + b)[1..] == b;
    } else {
      assert (a + b)[1..] == a[1..] + b;
      JoinAppend(a[1..], b, sep);
    }
  }

  /** Extending the last part extends the joined text. */
  lemma {:induction false} JoinExtendLast(a: seq<string>, x: string, y: string, sep: string)
    ensures JoinWith(a + [x + y], sep) == JoinWith(a + [x], sep) + y
    decreases |a|
  {
    if a == [] {
      assert a + [x + y] == [x + y];
      assert a + [x] == [x];
    } else {
      ConsAppend(a, [x + y]);
      ConsAppend(a, [x]);
      JoinExtendLast(a[1..], x, y, sep);
      assert (a + [x + y])[1..] == a[1..] + [x + y];
      assert (a + [x])[1..] == a[1..] + [x];
    }
  }

  /**
   * A piece `p` that was cut off in front of a separator: the first
   * occurrence of `sep` in `p + sep` is the separator itself.
   */
  predicate CutBefore(p: string, sep: string) {
    Find(p + sep, sep) == |p|
  }

  /** A piece free of the separator's first character is a cut piece. */
  lemma CutWithoutHead(p: string, sep: string)
    requires |sep| > 0 && sep[0] !in p
    ensures CutBefore(p, sep)
  {
    var s := p + sep;
    assert s[|p|..|p| + |sep|] == sep;
    assert OccursAt(s, sep, |p|);
    forall j | 0 <= j < |p| ensures !OccursAt(s, sep, j) {
      assert s[j] == p[j] != sep[0];
      assert j + |sep| <= |s| ==> s[j..j + |sep|][0] == s[j];
    }
  }

  /** Every piece of `ps` was cut in front of a separator. */
  predicate AllCut(ps: seq<string>, sep: string) {
    ps == [] || (CutBefore(ps[0], sep) && AllCut(ps[1..], sep))
  }

  lemma {:induction false} AllCutAppend(a: seq<string>, b: seq<string>, sep: string)
    requires AllCut(a, sep) && AllCut(b, sep)
    ensures AllCut(a + b, sep)
    decreases |a|
  {
    if a == [] {
      assert a + b == b;
    } else {
      assert (a + b)[1..] == a[1..] + b;
      AllCutAppend(a[1..], b, sep);
    }
  }

  /** JavaScript `s.split(sep)` for a non-empty separator; its properties are the lemmas below. */
  function SplitOn(s: string, sep: string): (r: seq<string>)
    requires |sep| > 0
    ensures |r| >= 1
    decreases |s|
  {
    var i := Find(s, sep);
    if i < 0 then [s] else [s[..i]] + SplitOn(s[i + |sep|..], sep)
  }

  /** The text before the first separator, followed by the separator, is a cut piece. */
  lemma FirstCut(s: string, sep: string, i: int)
    requires |sep| > 0 && i == Find(s, sep) && i >= 0
    ensures s == s[..i] + sep + s[i + |sep|..]
    ensures !HasSub(s[..i], sep)
    ensures CutBefore(s[..i], sep)
  {
    assert s[..i] + sep == s[..i + |sep|];
    forall j | 0 <= j <= i - |sep| ensures !OccursAt(s[..i], sep, j) {
      SliceOfSlice(s, 0, i, j, j + |sep|);
      assert !OccursAt(s, sep, j);
    }
    forall j | 0 <= j < i ensures !OccursAt(s[..i] + sep, sep, j) {
      SliceOfSlice(s, 0, i + |sep|, j, j + |sep|);
      assert !OccursAt(s, sep, j);
    }
    assert OccursAt(s[..i] + sep, sep, i);
  }

  /** The pieces joined with the separator give the text back. */
  lemma {:induction false} SplitOnJoin(s: string, sep: string)
    requires |sep| > 0
    ensures JoinWith(SplitOn(s, sep), sep) == s
    decreases |s|
  {
    var i := Find(s, sep);
    if i >= 0 {
      FirstCut(s, sep, i);
      SplitOnJoin(s[i + |sep|..], sep);
      var r := SplitOn(s, sep);
      assert r[0] == s[..i] && r[1..] == SplitOn(s[i + |sep|..], sep);
    }
  }

  /** No piece contains the separator. */
  lemma {:induction false} SplitOnFree(s: string, sep: string, k: nat)
    requires |sep| > 0 && k < |SplitOn(s, sep)|
    ensures !HasSub(SplitOn(s, sep)[k], sep)
    decreases |s|
  {
    var i := Find(s, sep);
    if i >= 0 {
      FirstCut(s, sep, i);
      if k > 0 {
        SplitOnFree(s[i + |sep|..], sep, k - 1);
      }
    }
  }

  /** Every piece but the last was cut in front of a separator. */
  lemma {:induction false} SplitOnCut(s: string, sep: string)
    requires |sep| > 0
    ensures AllCut(SplitOn(s, sep)[..|SplitOn(s, sep)| - 1], sep)
    decreases |s|
  {
    var i := Find(s, sep);
    if i >= 0 {
      FirstCut(s, sep, i);
      var rest := SplitOn(s[i + |sep|..], sep);
      SplitOnCut(s[i + |sep|..], sep);
      var r := SplitOn(s, sep);
      assert r == [s[..i]] + rest;
      assert r[..|r| - 1] == [s[..i]] + rest[..|rest| - 1];
      assert (r[..|r| - 1])[1..] == rest[..|rest| - 1];
    }
  }

  /** No piece contains the separator, and every piece but the last was cut in front of one. */
  lemma SplitOnPieces(s: string, sep: string)
    requires |sep| > 0
    ensures forall k :: 0 <= k < |SplitOn(s, sep)| ==> !HasSub(SplitOn(s, sep)[k], sep)
    ensures AllCut(SplitOn(s, sep)[..|SplitOn(s, sep)| - 1], sep)
  {
    forall k | 0 <= k < |SplitOn(s, sep)| ensures !HasSub(SplitOn(s, sep)[k], sep) {
      SplitOnFree(s, sep, k);
    }
    SplitOnCut(s, sep);
  }

  /** A string without the separator splits into itself alone. */
  lemma SplitWithout(s: string, sep: string)
    requires |sep| > 0 && !HasSub(s, sep)
    ensures SplitOn(s, sep) == [s]
  {
  }

  /** Splitting is unaffected by pieces already cut in front of a separator. */
  lemma SplitAfterCut(p: string, sep: string, y: string)
    requires |sep| > 0 && CutBefore(p, sep)
    ensures SplitOn(p + sep + y, sep) == [p] + SplitOn(y, sep)
  {
    var s := p + sep + y;
    assert s[..|p| + |sep|] == p + sep;
    assert OccursAt(s, sep, |p|) by { assert s[|p|..|p| + |sep|] == sep; }
    forall j | 0 <= j < |p| ensures !OccursAt(s, sep, j) {
      SliceOfSlice(s, 0, |p| + |sep|, j, j + |sep|);
      assert !OccursAt(p + sep, sep, j);
    }
    assert Find(s, sep) == |p|;
    assert s[..|p|] == p && s[|p| + |sep|..] == y;
  }

  lemma LastSplit<T>(s: seq<T>)
    requires s != []
    ensures s == s[..|s| - 1] + [s[|s| - 1]]
  {
  }

  lemma DropLast<T>(t: seq<T>, y: T)
    ensures (t + [y])[..|t|] == t && (t + [y])[|t|] == y && |t + [y]| == |t| + 1
  {
  }

  lemma AppendAssoc<T>(a: seq<T>, b: seq<T>, c: seq<T>)
    ensures (a + b) + c == a + (b + c)
  {
  }

  lemma AppendEmpty<T>(a: seq<T>)
    ensures a + [] == a && [] + a == a
  {
  }

  lemma PrefixSplit<T>(s: seq<T>, i: nat, j: nat)
    requires i <= j <= |s|
    ensures s[..i] + s[i..j] == s[..j]
  {
  }

  /** Each element mapped to a sequence, the sequences joined in order. */
  function FlatMap<T, U>(f: T -> seq<U>, xs: seq<T>): seq<U> {
    if xs == [] then [] else FlatMap(f, xs[..|xs| - 1]) + f(xs[|xs| - 1])
  }

  lemma FlatMapSnoc<T, U>(f: T -> seq<U>, xs: seq<T>, x: T)
    ensures FlatMap(f, xs + [x]) == FlatMap(f, xs) + f(x)
  {
    assert (xs + [x])[..|xs|] == xs;
  }

  lemma {:induction false} FlatMapAppend<T, U>(f: T -> seq<U>, a: seq<T>, b: seq<T>)
    ensures FlatMap(f, a + b) == FlatMap(f, a) + FlatMap(f, b)
    decreases |b|
  {
    if b == [] {
      assert a + b == a;
      assert FlatMap(f, a) + [] == FlatMap(f, a);
    } else {
      var b0, last := b[..|b| - 1], b[|b| - 1];
      FlatMapAppend(f, a, b0);
      assert b == b0 + [last];
      assert a + b == (a + b0) + [last];
      FlatMapSnoc(f, a + b0, last);
      FlatMapSnoc(f, b0, last);
      AppendAssoc(FlatMap(f, a), FlatMap(f, b0), f(last));
    }
  }

  lemma ConsAppend<T>(a: seq<T>, b: seq<T>)
    requires a != []
    ensures a + b == [a[0]] + (a[1..] + b)
  {
  }

  /** Splitting text that starts with cut pieces yields those pieces, then the split of the rest. */
  lemma {:induction false} SplitJoined(frames: seq<string>, x: string, sep: string)
    requires |sep| > 0
    requires AllCut(frames, sep)
    ensures SplitOn(JoinWith(frames + [x], sep), sep) == frames + SplitOn(x, sep)
    decreases |frames|
  {
    if frames == [] {
      assert frames + [x] == [x];
    } else {
      var whole, rest := frames + [x], frames[1..] + [x];
      assert whole[1..] == rest;
      assert JoinWith(whole, sep) == frames[0] + sep + JoinWith(rest, sep);
      SplitJoined(frames[1..], x, sep);
      SplitAfterCut(frames[0], sep, JoinWith(rest, sep));
      ConsAppend(frames, SplitOn(x, sep));
    }
  }

  /** All the strings of `parts` in order, like `parts.join('')`. */
  function Concat(parts: seq<string>): string {
    if parts == [] then "" else Concat(parts[..|parts| - 1]) + parts[|parts| - 1]
  }

  /** JavaScript `s.slice(0, n)` and Python `s[:n]` for a non-negative `n`. */
  function Take(s: string, n: nat): (r: string)
    ensures |r| == if |s| < n then |s| else n
    ensures StartsWith(s, r)
  {
    if |s| <= n then s else s[..n]
  }

  /** Python `s.replace(a, b)` for single characters. */
  function ReplaceChar(s: string, a: char, b: char): (r: string)
    ensures |r| == |s|
    ensures forall i :: 0 <= i < |s| ==> r[i] == if s[i] == a then b else s[i]
  {
    if s == [] then []
    else [if s[0] == a then b else s[0]] + ReplaceChar(s[1..], a, b)
  }

  /** JavaScript `s.replace(/\s+/g, rep)`: every maximal run of white space becomes `rep`. */
  function ReplaceSpaceRuns(s: string, rep: string): string
    decreases |s|
  {
    if s == [] then []
    else if IsSpace(s[0]) then rep + ReplaceSpaceRuns(s[Lead(s)..], rep)
    else [s[0]] + ReplaceSpaceRuns(s[1..], rep)
  }

  /** A string with no white space is left as it is. */
  lemma {:induction false} ReplaceSpaceRunsNoSpace(s: string, rep: string)
    requires forall i :: 0 <= i < |s| ==> !IsSpace(s[i])
    ensures ReplaceSpaceRuns(s, rep) == s
    decreases |s|
  {
    if s != [] {
      ReplaceSpaceRunsNoSpace(s[1..], rep);
    }
  }

  /** The result never contains white space when the replacement has none. */
  lemma {:induction false} ReplaceSpaceRunsClean(s: string, rep: string)
    requires forall i :: 0 <= i < |rep| ==> !IsSpace(rep[i])
    ensures forall i :: 0 <= i < |ReplaceSpaceRuns(s, rep)| ==> !IsSpace(ReplaceSpaceRuns(s, rep)[i])
    decreases |s|
  {
    if s == [] {
    } else if IsSpace(s[0]) {
      ReplaceSpaceRunsClean(s[Lead(s)..], rep);
    } else {
      ReplaceSpaceRunsClean(s[1..], rep);
    }
  }

  function Digit(d: nat): char
    requires d < 10
  {
    "0123456789"[d]
  }

  /** The decimal notation JavaScript's `String(n)` and Python's `str(n)` give a natural number. */
  function NatToString(n: nat): (r: string)
    ensures |r| >= 1 && forall i :: 0 <= i < |r| ==> '0' <= r[i] <= '9'
  {
    if n < 10 then [Digit(n)] else NatToString(n / 10) + [Digit(n % 10)]
  }

  /** The number a string of decimal digits denotes; the partner of `NatToString`. */
  function DecimalValue(s: string): nat
    requires forall i :: 0 <= i < |s| ==> '0' <= s[i] <= '9'
  {
    if s == [] then 0 else 10 * DecimalValue(s[..|s| - 1]) + (s[|s| - 1] as int - '0' as int)
  }

  lemma {:induction false} NatToStringRoundTrip(n: nat)
    ensures DecimalValue(NatToString(n)) == n
  {
    var r := NatToString(n);
    if n >= 10 {
      NatToStringRoundTrip(n / 10);
      assert r[..|r| - 1] == NatToString(n / 10);
      DigitValue(n % 10);
    } else {
      DigitValue(n);
    }
  }

  lemma DigitValue(d: nat)
    requires d < 10
    ensures Digit(d) as int - '0' as int == d
  {
  }

  function IntToString(n: int): (r: string)
    ensures r != []
  {
    if n < 0 then "-" + NatToString(-n) else NatToString(n)
  }

  /** Python's `os.path.basename` on a POSIX path: the text after the last '/'. */
  function Basename(p: string): (r: string)
    ensures '/' !in r
    ensures EndsWith(p, r)
    ensures |r| < |p| ==> p[|p| - |r| - 1] == '/'
  {
    if p == [] then []
    else if p[|p| - 1] == '/' then []
    else Basename(p[..|p| - 1]) + [p[|p| - 1]]
  }
}
