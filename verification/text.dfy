/** String operations the clients and the server use: Python's whitespace
    class, `strip`, slicing, `join`, `in`, `split()`, and the code-fence
    removal `re.sub(r"```(?:json)?", "", s, flags=re.IGNORECASE)`. */
module Text {

  function Min(a: int, b: int): int { if a <= b then a else b }
  function Max(a: int, b: int): int { if a <= b then b else a }

  /** The characters Python's `str.isspace` accepts, which are the ones
      `str.strip()` and `str.split()` remove when given no argument. */
  predicate IsSpace(c: char)
  {
    c in Whitespace
  }

  const Whitespace: set<char> := {
    ' ', '\t', '\n', '\r', '\U{0B}', '\U{0C}', '\U{1C}', '\U{1D}', '\U{1E}', '\U{1F}',
    '\U{85}', '\U{A0}', '\U{1680}', '\U{2000}', '\U{2001}', '\U{2002}', '\U{2003}',
    '\U{2004}', '\U{2005}', '\U{2006}', '\U{2007}', '\U{2008}', '\U{2009}', '\U{200A}',
    '\U{2028}', '\U{2029}', '\U{202F}', '\U{205F}', '\U{3000}'
  }

  predicate AllDrop(s: string, drop: char -> bool)
  {
    forall k :: 0 <= k < |s| ==> drop(s[k])
  }

  /** `s.lstrip(chars)`: the longest suffix of `s` that does not start with a dropped character. */
  function LStrip(s: string, drop: char -> bool): (r: string)
    ensures |r| <= |s| && r == s[|s| - |r|..]
    ensures forall k :: 0 <= k < |s| - |r| ==> drop(s[k])
    ensures |r| > 0 ==> !drop(r[0])
    ensures AllDrop(s, drop) ==> r == []
    decreases |s|
  {
    if |s| > 0 && drop(s[0]) then
      assert AllDrop(s, drop) ==> AllDrop(s[1..], drop);
      LStrip(s[1..], drop)
    else
      s
  }

  /** `s.rstrip(chars)`: the longest prefix of `s` that does not end with a dropped character. */
  function RStrip(s: string, drop: char -> bool): (r: string)
    ensures |r| <= |s| && r == s[..|r|]
    ensures forall k :: |r| <= k < |s| ==> drop(s[k])
    ensures |r| > 0 ==> !drop(r[|r| - 1])
    decreases |s|
  {
    if |s| > 0 && drop(s[|s| - 1]) then RStrip(s[..|s| - 1], drop) else s
  }

  /** `s.strip(chars)` */
  function Trim(s: string, drop: char -> bool): (r: string)
    ensures |r| > 0 ==> !drop(r[0]) && !drop(r[|r| - 1])
    ensures r == [] <==> AllDrop(s, drop)
    ensures (|s| > 0 && !drop(s[0]) && !drop(s[|s| - 1])) ==> r == s
  {
    var l := LStrip(s, drop);
    if |l| == 0 then
      []
    else
      assert l[0] == s[|s| - |l|];
      var r := RStrip(l, drop);
      assert r[0] == l[0];
      r
  }

  /** `s.strip()` */
  function Strip(s: string): string
  {
    Trim(s, IsSpace)
  }

  /** Text without whitespace at either end strips to itself. */
  lemma StripUnchanged(s: string)
    requires |s| > 0 && !IsSpace(s[0]) && !IsSpace(s[|s| - 1])
    ensures Strip(s) == s
  {
  }

  /** `s.strip().startswith(tuple(firsts))` for one-character prefixes. */
  predicate StrippedStartsWith(s: string, firsts: set<char>)
  {
    var t := Strip(s);
    |t| > 0 && t[0] in firsts
  }

  lemma {:induction false} LStripPadding(p: string, x: string, drop: char -> bool)
    requires AllDrop(p, drop)
    ensures LStrip(p + x, drop) == LStrip(x, drop)
    decreases |p|
  {
    if |p| > 0 {
      assert (p + x)[1..] == p[1..] + x;
      LStripPadding(p[1..], x, drop);
    } else {
      assert p + x == x;
    }
  }

  lemma {:induction false} RStripPadding(x: string, q: string, drop: char -> bool)
    requires AllDrop(q, drop)
    ensures RStrip(x + q, drop) == RStrip(x, drop)
    decreases |q|
  {
    if |q| > 0 {
      var q' := q[..|q| - 1];
      assert (x + q)[..|x + q| - 1] == x + q';
      RStripPadding(x, q', drop);
    } else {
      assert x + q == x;
    }
  }

  lemma {:induction false} LStripAppend(x: string, q: string, drop: char -> bool)
    requires !AllDrop(x, drop)
    ensures LStrip(x + q, drop) == LStrip(x, drop) + q
    decreases |x|
  {
    if drop(x[0]) {
      assert (x + q)[1..] == x[1..] + q;
      LStripAppend(x[1..], q, drop);
    }
  }

  /** Stripping ignores any padding made only of stripped characters. */
  lemma TrimPadding(p: string, x: string, q: string, drop: char -> bool)
    requires AllDrop(p, drop) && AllDrop(q, drop)
    ensures Trim(p + x + q, drop) == Trim(x, drop)
  {
    assert p + x + q == p + (x + q);
    LStripPadding(p, x + q, drop);
    if AllDrop(x, drop) {
      LStripPadding(x, q, drop);
    } else {
      LStripAppend(x, q, drop);
      RStripPadding(LStrip(x, drop), q, drop);
    }
  }

  /** `s[:n]` on a string or a list, with Python's meaning for a negative
      bound. */
  function Slice<T>(s: seq<T>, n: int): (r: seq<T>)
    ensures |r| <= |s| && r == s[..|r|]
    ensures n >= 0 ==> |r| == Min(n, |s|)
    ensures n < 0 ==> |r| == Max(0, |s| + n)
  {
    if n >= 0 then
      (if n < |s| then s[..n] else s)
    else
      (if |s| + n > 0 then s[..|s| + n] else [])
  }

  /** `sep.join(parts)` */
  function Join(sep: string, parts: seq<string>): (r: string)
    ensures |parts| == 0 ==> r == []
    ensures |parts| > 0 ==> parts[0] <= r
    decreases |parts|
  {
    if |parts| == 0 then []
    else if |parts| == 1 then parts[0]
    else parts[0] + sep + Join(sep, parts[1..])
  }

  lemma JoinCons(sep: string, parts: seq<string>)
    requires |parts| > 1
    ensures Join(sep, parts) == parts[0] + (sep + Join(sep, parts[1..]))
  {
    assert parts[0] + sep + Join(sep, parts[1..]) == parts[0] + (sep + Join(sep, parts[1..]));
  }

  /** `sub in s` */
  predicate Contains(s: string, sub: string)
  {
    exists i :: 0 <= i <= |s| - |sub| && OccursAt(s, sub, i)
  }

  predicate OccursAt(s: string, sub: string, i: int)
    requires 0 <= i <= |s| - |sub|
  {
    s[i..i + |sub|] == sub
  }

  /** A piece placed between two others occurs right after the first. */
  lemma OccursBetween(a: string, sub: string, b: string)
    ensures OccursAt(a + sub + b, sub, |a|)
    ensures Contains(a + sub + b, sub)
  {
    var s := a + sub + b;
    assert |s| == |a| + |sub| + |b|;
    assert s[|a|..|a| + |sub|] == sub;
    assert OccursAt(s, sub, |a|);
  }

  /** `s.endswith(t)` */
  predicate EndsWith(s: string, t: string)
  {
    |t| <= |s| && s[|s| - |t|..] == t
  }

  /** A string framed by `head` and `tail` starts with the one and ends with
      the other. */
  lemma Framed(head: string, mid: string, tail: string)
    ensures head <= head + mid + tail
    ensures EndsWith(head + mid + tail, tail)
  {
    var s := head + mid + tail;
    assert s[..|head|] == head;
    assert s[|s| - |tail|..] == tail;
  }

  /** What occurs in a string occurs in it after anything is put in front. */
  lemma ContainsAfter(a: string, x: string, sub: string)
    requires Contains(x, sub)
    ensures Contains(a + x, sub)
  {
    var k :| 0 <= k <= |x| - |sub| && OccursAt(x, sub, k);
    assert (a + x)[|a| + k..|a| + k + |sub|] == x[k..k + |sub|];
    assert OccursAt(a + x, sub, |a| + k);
  }

  /** Every part of a join occurs in it. */
  lemma {:induction false} JoinContains(sep: string, parts: seq<string>, i: int)
    requires 0 <= i < |parts|
    ensures Contains(Join(sep, parts), parts[i])
    decreases |parts|
  {
    if |parts| == 1 || i == 0 {
      var r := Join(sep, parts);
      assert r[0..|parts[0]|] == parts[0];
      assert OccursAt(r, parts[0], 0);
    } else {
      JoinContains(sep, parts[1..], i - 1);
      ContainsAfter(parts[0] + sep, Join(sep, parts[1..]), parts[i]);
      assert Join(sep, parts) == (parts[0] + sep) + Join(sep, parts[1..]);
    }
  }

  /** Three pieces interleaved with fixed text sit at their offsets. */
  lemma OccursTwice(a: string, x: string, b: string, y: string, c: string)
    ensures var s := a + x + b + y + c;
      && |s| == |a| + |x| + |b| + |y| + |c|
      && OccursAt(s, x, |a|)
      && OccursAt(s, y, |a| + |x| + |b|)
      && Contains(s, x) && Contains(s, y)
  {
    var s := a + x + b + y + c;
    var i, j := |a|, |a| + |x| + |b|;
    assert s[i..i + |x|] == x;
    assert s[j..j + |y|] == y;
    assert OccursAt(s, x, i) && OccursAt(s, y, j);
  }

  lemma OccursInterleaved(a: string, x: string, b: string, y: string, c: string, z: string, d: string)
    ensures var s := a + x + b + y + c + z + d;
      && |s| == |a| + |x| + |b| + |y| + |c| + |z| + |d|
      && OccursAt(s, x, |a|)
      && OccursAt(s, y, |a| + |x| + |b|)
      && OccursAt(s, z, |a| + |x| + |b| + |y| + |c|)
      && Contains(s, x) && Contains(s, y) && Contains(s, z)
  {
    var s := a + x + b + y + c + z + d;
    var i, j, k := |a|, |a| + |x| + |b|, |a| + |x| + |b| + |y| + |c|;
    assert s[i..i + |x|] == x;
    assert s[j..j + |y|] == y;
    assert s[k..k + |z|] == z;
    assert OccursAt(s, x, i) && OccursAt(s, y, j) && OccursAt(s, z, k);
  }

  // ---------------------------------------------------------------------
  // Code-fence removal

  predicate TickRunAt(s: string, i: int)
  {
    0 <= i && i + 3 <= |s| && s[i] == '`' && s[i + 1] == '`' && s[i + 2] == '`'
  }

  /** Case-insensitive match of `json` as Python's `re.IGNORECASE` does it
      (the long s U+017F folds to `s`). */
  predicate IsJsonTag(t: string)
  {
    && |t| == 4
    && (t[0] == 'j' || t[0] == 'J')
    && (t[1] == 's' || t[1] == 'S' || t[1] == '\U{017F}')
    && (t[2] == 'o' || t[2] == 'O')
    && (t[3] == 'n' || t[3] == 'N')
  }

  /** A character that can take part in neither a fence nor its tag. */
  predicate FenceNeutral(c: char)
  {
    c !in {'`', 'j', 'J', 's', 'S', '\U{017F}', 'o', 'O', 'n', 'N'}
  }

  /** How much a fence at the start of `s` takes: "```" with a directly
      following "json" in any case, "```" alone, or nothing. */
  function FenceLength(s: string): (n: nat)
    ensures n == 0 || n == 3 || n == 7
    ensures n <= |s|
    ensures n > 0 <==> TickRunAt(s, 0)
  {
    if TickRunAt(s, 0) then
      if |s| >= 7 && IsJsonTag(s[3..7]) then 7 else 3
    else 0
  }

  /** Leftmost, non-overlapping removal of "```" together with a directly
      following "json" in any case. */
  function RemoveFences(s: string): (r: string)
    ensures |r| <= |s|
    ensures |r| > 0 && r[0] == '`' ==> |s| > 0 && s[0] == '`'
    ensures |r| > 1 && r[0] == '`' && r[1] == '`' ==> |s| > 1 && s[0] == '`' && s[1] == '`'
    ensures forall i :: !TickRunAt(r, i)
    decreases |s|
  {
    var n := FenceLength(s);
    if n > 0 then
      RemoveFences(s[n..])
    else if |s| == 0 then
      []
    else
      var rest := RemoveFences(s[1..]);
      var r := [s[0]] + rest;
      assert forall i :: 1 <= i ==> (TickRunAt(r, i) <==> TickRunAt(rest, i - 1));
      r
  }

  lemma NoTickRunNoFence(r: string)
    requires forall i :: !TickRunAt(r, i)
    ensures !Contains(r, "```")
  {
    forall i | 0 <= i <= |r| - 3
      ensures !OccursAt(r, "```", i)
    {
      assert !TickRunAt(r, i);
      assert r[i..i + 3][0] == r[i] && r[i..i + 3][1] == r[i + 1] && r[i..i + 3][2] == r[i + 2];
    }
  }

  /** After removal no fence marker is left, even where removing one
      brought backticks together. */
  lemma RemoveFencesLeavesNoFence(s: string)
    ensures !Contains(RemoveFences(s), "```")
  {
    NoTickRunNoFence(RemoveFences(s));
  }

  /** Removal splits at a character that cannot belong to a fence. */
  lemma {:induction false} RemoveFencesAppend(b: string, t: string)
    requires |t| > 0 && FenceNeutral(t[0])
    ensures RemoveFences(b + t) == RemoveFences(b) + RemoveFences(t)
    decreases |b|
  {
    if |b| == 0 {
      assert b + t == t;
    } else {
      var n := FenceLength(b);
      FenceLengthAppend(b, t);
      var k := if n > 0 then n else 1;
      assert (b + t)[k..] == b[k..] + t;
      RemoveFencesAppend(b[k..], t);
    }
  }

  /** A fence-neutral tail neither creates, lengthens nor spoils a fence at
      the start of a non-empty text. */
  lemma FenceLengthAppend(b: string, t: string)
    requires |t| > 0 && FenceNeutral(t[0]) && |b| > 0
    ensures FenceLength(b + t) == FenceLength(b)
  {
    var s := b + t;
    if |b| < 3 {
      assert s[|b|] == t[0];
    } else if |b| < 7 {
      if |s| >= 7 {
        assert s[3..7][|b| - 3] == t[0];
      }
    } else {
      assert s[3..7] == b[3..7];
    }
  }

  // ---------------------------------------------------------------------
  // Whitespace normalisation: " ".join(s.split())

  predicate IsWord(w: string)
  {
    |w| > 0 && forall k :: 0 <= k < |w| ==> !IsSpace(w[k])
  }

  /** The longest prefix of `s` without whitespace. */
  function TakeWord(s: string): (w: string)
    ensures |w| <= |s| && w == s[..|w|]
    ensures |s| > 0 && !IsSpace(s[0]) ==> |w| > 0
    ensures forall k :: 0 <= k < |w| ==> !IsSpace(w[k])
    ensures |w| < |s| ==> IsSpace(s[|w|])
    decreases |s|
  {
    if |s| == 0 || IsSpace(s[0]) then [] else [s[0]] + TakeWord(s[1..])
  }

  lemma WordsPrepend(w: string, rest: seq<string>)
    requires IsWord(w)
    requires forall i :: 0 <= i < |rest| ==> IsWord(rest[i])
    ensures forall i :: 0 <= i < |[w] + rest| ==> IsWord(([w] + rest)[i])
  {
    forall i | 0 <= i < |[w] + rest|
      ensures IsWord(([w] + rest)[i])
    {
      if i > 0 { assert ([w] + rest)[i] == rest[i - 1]; }
    }
  }

  /** `s.split()`: the maximal runs of non-whitespace characters, in order. */
  function Words(s: string): (ws: seq<string>)
    ensures forall i :: 0 <= i < |ws| ==> IsWord(ws[i])
    decreases |s|
  {
    var t := LStrip(s, IsSpace);
    if |t| == 0 then
      []
    else
      var w := TakeWord(t);
      var rest := Words(t[|w|..]);
      WordsPrepend(w, rest);
      [w] + rest
  }

  /** Text in which the only whitespace is single spaces between words. */
  predicate IsNormalized(r: string)
  {
    forall k :: 0 <= k < |r| && IsSpace(r[k]) ==>
      r[k] == ' ' && 0 < k < |r| - 1 && !IsSpace(r[k - 1]) && !IsSpace(r[k + 1])
  }

  /** What a prefix of normalised text keeps: no leading whitespace and no
      two whitespace characters in a row (a single trailing ' ' may remain). */
  predicate IsNormalizedPrefix(t: string)
  {
    forall k :: 0 <= k < |t| && IsSpace(t[k]) ==>
      t[k] == ' ' && 0 < k && !IsSpace(t[k - 1]) && (k + 1 < |t| ==> !IsSpace(t[k + 1]))
  }

  lemma NormalizedPrefix(n: string, t: string)
    requires IsNormalized(n) && t <= n
    ensures IsNormalizedPrefix(t)
  {
    forall k | 0 <= k < |t| && IsSpace(t[k])
      ensures t[k] == ' ' && 0 < k && !IsSpace(t[k - 1]) && (k + 1 < |t| ==> !IsSpace(t[k + 1]))
    {
      assert t[k] == n[k] && t[k - 1] == n[k - 1];
      assert k + 1 < |t| ==> t[k + 1] == n[k + 1];
    }
  }

  /** `" ".join(s.split())` */
  function Normalize(s: string): string
  {
    Join(" ", Words(s))
  }

  lemma {:induction false} JoinWordsNormalized(ws: seq<string>)
    requires forall i :: 0 <= i < |ws| ==> IsWord(ws[i])
    ensures IsNormalized(Join(" ", ws))
    decreases |ws|
  {
    if |ws| > 1 {
      var rest := Join(" ", ws[1..]);
      JoinWordsNormalized(ws[1..]);
      var r := Join(" ", ws);
      var n := |ws[0]|;
      assert r == ws[0] + " " + rest;
      assert |rest| > 0 && rest[0] == ws[1][0] by {
        assert ws[1] <= rest;
      }
      forall k | 0 <= k < |r|
        ensures IsSpace(r[k]) ==> r[k] == ' ' && 0 < k < |r| - 1 && !IsSpace(r[k - 1]) && !IsSpace(r[k + 1])
      {
        if k < n {
          assert r[k] == ws[0][k];
        } else if k == n {
          assert r[k - 1] == ws[0][n - 1];
          assert r[k + 1] == rest[0];
        } else if k > n + 1 {
          assert r[k] == rest[k - n - 1];
          assert r[k - 1] == rest[k - n - 2];
          assert k + 1 < |r| ==> r[k + 1] == rest[k - n];
        } else {
          assert r[k] == rest[0];
        }
      }
    }
  }

  /** The normalised text has no leading or trailing whitespace and no two
      whitespace characters in a row; its only whitespace is ' '. */
  lemma NormalizeShape(s: string)
    ensures IsNormalized(Normalize(s))
  {
    JoinWordsNormalized(Words(s));
  }

  lemma {:induction false} TakeWordOfPrefix(w: string, x: string)
    requires forall k :: 0 <= k < |w| ==> !IsSpace(w[k])
    requires |x| == 0 || IsSpace(x[0])
    ensures TakeWord(w + x) == w
    decreases |w|
  {
    if |w| == 0 {
      assert w + x == x;
    } else {
      assert (w + x)[1..] == w[1..] + x;
      TakeWordOfPrefix(w[1..], x);
    }
  }

  /** A word followed by whitespace or nothing is the first word. */
  lemma WordsCons(w: string, x: string)
    requires IsWord(w)
    requires |x| == 0 || IsSpace(x[0])
    ensures Words(w + x) == [w] + Words(x)
  {
    var s := w + x;
    assert s[0] == w[0];
    assert LStrip(s, IsSpace) == s;
    TakeWordOfPrefix(w, x);
    assert s[|w|..] == x;
  }

  /** A single word splits into itself. */
  lemma WordsSingle(w: string)
    requires IsWord(w)
    ensures Words(w) == [w]
  {
    assert w + [] == w;
    TakeWordOfPrefix(w, []);
    assert LStrip(w, IsSpace) == w;
    assert w[|w|..] == [];
    assert LStrip([], IsSpace) == [];
  }

  /** One leading space does not change the words. */
  lemma WordsAfterSpace(rest: string)
    requires |rest| > 0 && !IsSpace(rest[0])
    ensures Words(" " + rest) == Words(rest)
  {
    assert (" " + rest)[1..] == rest;
    assert LStrip(" " + rest, IsSpace) == LStrip(rest, IsSpace);
  }

  /** A word, one space, and text that starts with a word `v`. */
  lemma WordsJoinStep(w: string, v: string, rest: string)
    requires IsWord(w) && IsWord(v) && v <= rest
    ensures Words(w + (" " + rest)) == [w] + Words(rest)
  {
    assert rest[0] == v[0];
    WordsCons(w, " " + rest);
    WordsAfterSpace(rest);
  }

  lemma {:induction false} WordsOfJoin(ws: seq<string>)
    requires forall i :: 0 <= i < |ws| ==> IsWord(ws[i])
    ensures Words(Join(" ", ws)) == ws
    decreases |ws|
  {
    if |ws| == 1 {
      WordsSingle(ws[0]);
      assert ws == [ws[0]];
    } else if |ws| > 1 {
      var w, tail := ws[0], ws[1..];
      var rest := Join(" ", tail);
      calc {
        Words(Join(" ", ws));
        { JoinCons(" ", ws); }
        Words(w + (" " + rest));
        { assert tail[0] <= rest; WordsJoinStep(w, tail[0], rest); }
        [w] + Words(rest);
        { WordsOfJoin(tail); }
        [w] + tail;
        ws;
      }
    }
  }

  /** Normalising twice changes nothing more. */
  lemma NormalizeIdempotent(s: string)
    ensures Normalize(Normalize(s)) == Normalize(s)
  {
    WordsOfJoin(Words(s));
  }
}
