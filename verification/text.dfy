/** String operations the renderers rely on, written out over `seq<char>`:
    JavaScript's `join`, `split` (on one character and on a longer
    separator), `trim`, `startsWith`,
    `includes`, a global literal `replace(…, "")`, and ASCII case mapping.
    Unicode case folding and the non-ASCII whitespace that `trim` also removes
    are not modelled. */
module Text {

  /** Whitespace removed by `String.prototype.trim`, restricted to ASCII. */
  predicate IsSpace(c: char) {
    c == ' ' || c == '\t' || c == '\n' || c == '\r' || c == '\U{B}' || c == '\U{C}'
  }

  predicate AllSpace(s: string) {
    forall i :: 0 <= i < |s| ==> IsSpace(s[i])
  }

  /** A string that `trim` leaves unchanged. */
  predicate NoSurroundingSpace(s: string) {
    |s| == 0 || (!IsSpace(s[0]) && !IsSpace(s[|s| - 1]))
  }

  function TrimStart(s: string): (r: string)
    ensures |r| <= |s| && r == s[|s| - |r|..]
    ensures |r| > 0 ==> !IsSpace(r[0])
    ensures AllSpace(s[..|s| - |r|])
    decreases |s|
  {
    if |s| > 0 && IsSpace(s[0]) then TrimStart(s[1..]) else s
  }

  function TrimEnd(s: string): (r: string)
    ensures |r| <= |s| && r == s[..|r|]
    ensures |r| > 0 ==> !IsSpace(r[|r| - 1])
    ensures AllSpace(s[|r|..])
    decreases |s|
  {
    if |s| > 0 && IsSpace(s[|s| - 1]) then TrimEnd(s[..|s| - 1]) else s
  }

  /** Number of leading whitespace characters. */
  function LeadingSpace(s: string): nat {
    |s| - |TrimStart(s)|
  }

  /** `s.trim()`. */
  function Trim(s: string): (r: string)
    ensures NoSurroundingSpace(r)
  {
    TrimEnd(TrimStart(s))
  }

  /** What `trim` returns is a slice of its argument, and only whitespace was
      cut away on either side. */
  lemma TrimSlice(s: string)
    ensures LeadingSpace(s) + |Trim(s)| <= |s|
    ensures Trim(s) == s[LeadingSpace(s)..LeadingSpace(s) + |Trim(s)|]
    ensures AllSpace(s[..LeadingSpace(s)]) && AllSpace(s[LeadingSpace(s) + |Trim(s)|..])
  {
    var t := TrimStart(s);
    var r := TrimEnd(t);
    assert t[|r|..] == s[LeadingSpace(s) + |r|..];
  }

  lemma {:induction false} TrimStartPadded(p: string, s: string)
    requires AllSpace(p)
    ensures TrimStart(p + s) == TrimStart(s)
    decreases |p|
  {
    if |p| > 0 {
      assert (p + s)[1..] == p[1..] + s;
      TrimStartPadded(p[1..], s);
    } else {
      assert p + s == s;
    }
  }

  lemma {:induction false} TrimEndPadded(s: string, p: string)
    requires AllSpace(p)
    ensures TrimEnd(s + p) == TrimEnd(s)
    decreases |p|
  {
    if |p| > 0 {
      assert (s + p)[..|s + p| - 1] == s + p[..|p| - 1];
      TrimEndPadded(s, p[..|p| - 1]);
    } else {
      assert s + p == s;
    }
  }

  lemma {:induction false} TrimStartAppend(s: string, q: string)
    ensures TrimStart(s + q) == if TrimStart(s) == "" then TrimStart(q) else TrimStart(s) + q
    decreases |s|
  {
    if |s| == 0 {
      assert s + q == q;
    } else {
      assert (s + q)[1..] == s[1..] + q;
      TrimStartAppend(s[1..], q);
    }
  }

  /** Whitespace around a string does not change what `trim` returns. */
  lemma TrimPadded(p: string, s: string, q: string)
    requires AllSpace(p) && AllSpace(q)
    ensures Trim(p + s + q) == Trim(s)
  {
    assert p + s + q == p + (s + q);
    TrimStartPadded(p, s + q);
    TrimStartAppend(s, q);
    var t := TrimStart(s);
    if t == "" {
      TrimStartPadded(q, "");
      assert q + "" == q;
    } else {
      TrimEndPadded(t, q);
    }
  }

  /** `trim` is the identity on a string without surrounding whitespace. */
  lemma TrimNoop(s: string)
    requires NoSurroundingSpace(s)
    ensures Trim(s) == s
  {
  }

  /** The trimmed text occurs in its argument with only whitespace around it. */
  lemma TrimOccurs(s: string)
    ensures exists k :: (0 <= k <= |s| - |Trim(s)| && OccursAt(s, Trim(s), k)
      && AllSpace(s[..k]) && AllSpace(s[k + |Trim(s)|..]))
  {
    TrimSlice(s);
    assert OccursAt(s, Trim(s), LeadingSpace(s));
  }

  /** `trim` is idempotent. */
  lemma TrimIdempotent(s: string)
    ensures Trim(Trim(s)) == Trim(s)
  {
    TrimNoop(Trim(s));
  }

  /** `items.join(sep)`. */
  function Join(items: seq<string>, sep: string): (r: string)
    decreases |items|
  {
    if |items| == 0 then ""
    else if |items| == 1 then items[0]
    else items[0] + sep + Join(items[1..], sep)
  }

  /** `s.split(c)` for a one-character separator: the pieces between
      occurrences of `c`, so that there is always at least one piece. */
  function Split(s: string, c: char): (r: seq<string>)
    ensures |r| >= 1
    ensures forall i :: 0 <= i < |r| ==> c !in r[i]
    decreases |s|
  {
    if |s| == 0 then [""]
    else
      var rest := Split(s[1..], c);
      if s[0] == c then [""] + rest
      else [[s[0]] + rest[0]] + rest[1..]
  }

  /** A prefix free of the separator is glued to the first piece. */
  lemma {:induction false} SplitPrefix(p: string, s: string, c: char)
    requires c !in p
    ensures Split(p + s, c) == [p + Split(s, c)[0]] + Split(s, c)[1..]
    decreases |p|
  {
    if |p| == 0 {
      assert p + s == s;
      assert p + Split(s, c)[0] == Split(s, c)[0];
      assert [Split(s, c)[0]] + Split(s, c)[1..] == Split(s, c);
    } else {
      assert (p + s)[1..] == p[1..] + s;
      assert (p + s)[0] == p[0];
      SplitPrefix(p[1..], s, c);
      assert [p[0]] + (p[1..] + Split(s, c)[0]) == p + Split(s, c)[0];
    }
  }

  /** One separator cuts the string into the piece before it and the pieces of the rest. */
  lemma SplitAt(p: string, s: string, c: char)
    requires c !in p
    ensures Split(p + [c] + s, c) == [p] + Split(s, c)
  {
    assert p + [c] + s == p + ([c] + s);
    SplitPrefix(p, [c] + s, c);
    assert ([c] + s)[1..] == s;
    assert p + "" == p;
  }

  /** The pieces of `items.join(pad + c + pad)` on `c`, trimmed. Proved below to
      give back `items` when the items are trimmed and free of `c`. */
  function TrimAll(pieces: seq<string>): (r: seq<string>)
    ensures |r| == |pieces|
    decreases |pieces|
  {
    if |pieces| == 0 then [] else [Trim(pieces[0])] + TrimAll(pieces[1..])
  }

  lemma HeadTail<T>(s: seq<T>)
    requires |s| > 0
    ensures s == [s[0]] + s[1..]
  {
  }

  lemma AppendEmpty<T>(s: seq<T>)
    ensures s + [] == s
  {
  }

  lemma SplitJoinStep(x: string, pad: string, c: char, tail: string)
    requires c !in x && c !in pad
    ensures Split(x + (pad + [c] + pad) + tail, c) == [x + pad] + ([pad + Split(tail, c)[0]] + Split(tail, c)[1..])
  {
    assert x + (pad + [c] + pad) + tail == (x + pad) + [c] + (pad + tail);
    SplitAt(x + pad, pad + tail, c);
    SplitPrefix(pad, tail, c);
  }

  /** Items that survive a split on `c` followed by a trim unchanged. */
  predicate TrimmedWithout(items: seq<string>, c: char) {
    forall i :: 0 <= i < |items| ==> c !in items[i] && NoSurroundingSpace(items[i])
  }

  lemma JoinSplitTrimOne(x: string, pad: string, c: char)
    requires c !in x && NoSurroundingSpace(x)
    ensures TrimAll(Split(Join([x], pad + [c] + pad), c)) == [x]
  {
    SplitPrefix(x, "", c);
    AppendEmpty(x);
    assert Split("", c) == [""];
    TrimNoop(x);
  }

  lemma JoinSplitTrimCons(x: string, rest: seq<string>, pad: string, c: char)
    requires |rest| > 0
    requires AllSpace(pad) && !IsSpace(c) && c !in x && NoSurroundingSpace(x)
    requires TrimAll(Split(Join(rest, pad + [c] + pad), c)) == rest
    ensures TrimAll(Split(Join([x] + rest, pad + [c] + pad), c)) == [x] + rest
  {
    var sep := pad + [c] + pad;
    assert c !in pad;
    var items := [x] + rest;
    assert items[1..] == rest;
    var tail := Join(rest, sep);
    var pieces := Split(tail, c);
    SplitJoinStep(x, pad, c, tail);
    var whole := [x + pad] + ([pad + pieces[0]] + pieces[1..]);
    assert Split(Join(items, sep), c) == whole;
    TrimPadded("", x, pad);
    assert "" + x + pad == x + pad;
    TrimNoop(x);
    TrimPadded(pad, pieces[0], "");
    AppendEmpty(pad + pieces[0]);
    assert whole[1..] == [pad + pieces[0]] + pieces[1..];
    HeadTail(pieces);
    assert TrimAll(pieces) == [Trim(pieces[0])] + TrimAll(pieces[1..]);
    assert TrimAll(whole) == [x] + TrimAll(pieces);
  }

  /** Joining with a whitespace-padded one-character separator, splitting on
      that character and trimming every piece recovers a non-empty list whose
      items are trimmed and do not contain the character. */
  lemma {:induction false} JoinSplitTrim(items: seq<string>, pad: string, c: char)
    requires |items| > 0
    requires AllSpace(pad) && !IsSpace(c)
    requires TrimmedWithout(items, c)
    ensures TrimAll(Split(Join(items, pad + [c] + pad), c)) == items
    decreases |items|
  {
    HeadTail(items);
    if |items| == 1 {
      JoinSplitTrimOne(items[0], pad, c);
    } else {
      JoinSplitTrim(items[1..], pad, c);
      JoinSplitTrimCons(items[0], items[1..], pad, c);
    }
  }

  /** Joining with a one-character separator and splitting on it gives back
      a non-empty list whose items do not contain the character. */
  lemma {:induction false} JoinSplit(items: seq<string>, c: char)
    requires |items| > 0
    requires forall i :: 0 <= i < |items| ==> c !in items[i]
    ensures Split(Join(items, [c]), c) == items
    decreases |items|
  {
    if |items| == 1 {
      SplitPrefix(items[0], "", c);
      assert items[0] + "" == items[0];
    } else {
      assert Join(items, [c]) == items[0] + [c] + Join(items[1..], [c]);
      SplitAt(items[0], Join(items[1..], [c]), c);
      JoinSplit(items[1..], c);
      assert items == [items[0]] + items[1..];
    }
  }

  /** A string free of the separator is one piece. */
  lemma SplitNone(s: string, c: char)
    requires c !in s
    ensures Split(s, c) == [s]
  {
    SplitPrefix(s, "", c);
    AppendEmpty(s);
  }

  /** The pieces of two strings glued by one separator are the pieces of the
      first followed by the pieces of the second. */
  lemma {:induction false} SplitConcat(a: string, b: string, c: char)
    ensures Split(a + [c] + b, c) == Split(a, c) + Split(b, c)
    decreases |a|
  {
    var s := a + [c] + b;
    if |a| == 0 {
      assert s == [c] + b;
      assert s[1..] == b;
    } else {
      assert s[0] == a[0];
      assert s[1..] == a[1..] + [c] + b;
      SplitConcat(a[1..], b, c);
      SplitConcatStep(a, b, c, Split(a[1..], c), Split(b, c));
    }
  }

  lemma SplitConcatStep(a: string, b: string, c: char, pa: seq<string>, pb: seq<string>)
    requires |a| > 0 && pa == Split(a[1..], c)
    requires Split(a[1..] + [c] + b, c) == pa + pb
    requires (a + [c] + b)[1..] == a[1..] + [c] + b
    ensures Split(a + [c] + b, c) == Split(a, c) + pb
  {
    var s := a + [c] + b;
    assert s[0] == a[0];
    if a[0] == c {
      assert Split(s, c) == [""] + (pa + pb);
    } else {
      assert (pa + pb)[0] == pa[0];
      assert (pa + pb)[1..] == pa[1..] + pb;
      assert Split(s, c) == [[a[0]] + pa[0]] + (pa[1..] + pb);
    }
  }

  /** The pieces of every string of a list, in order. */
  function SplitEach(lines: seq<string>, c: char): (r: seq<string>)
    decreases |lines|
  {
    if |lines| == 0 then [] else Split(lines[0], c) + SplitEach(lines[1..], c)
  }

  lemma {:induction false} SplitEachAppend(a: seq<string>, b: seq<string>, c: char)
    ensures SplitEach(a + b, c) == SplitEach(a, c) + SplitEach(b, c)
    decreases |a|
  {
    if |a| == 0 {
      assert a + b == b;
    } else {
      assert (a + b)[0] == a[0];
      assert (a + b)[1..] == a[1..] + b;
      SplitEachAppend(a[1..], b, c);
    }
  }

  /** Strings free of the separator are split into themselves. */
  lemma {:induction false} SplitEachNone(lines: seq<string>, c: char)
    requires NoneContain(lines, c)
    ensures SplitEach(lines, c) == lines
    decreases |lines|
  {
    if |lines| > 0 {
      SplitNone(lines[0], c);
      SplitEachNone(lines[1..], c);
      HeadTail(lines);
    }
  }

  /** Splitting a joined list on its one-character separator gives the pieces
      of every item, in order. */
  lemma {:induction false} SplitJoinEach(lines: seq<string>, c: char)
    requires |lines| > 0
    ensures Split(Join(lines, [c]), c) == SplitEach(lines, c)
    decreases |lines|
  {
    if |lines| == 1 {
      assert lines[1..] == [];
      AppendEmpty(Split(lines[0], c));
    } else {
      SplitConcat(lines[0], Join(lines[1..], [c]), c);
      SplitJoinEach(lines[1..], c);
    }
  }

  /** A join of strings free of a character, with a separator free of it, is free of it. */
  lemma {:induction false} JoinWithout(items: seq<string>, sep: string, c: char)
    requires c !in sep
    requires forall i :: 0 <= i < |items| ==> c !in items[i]
    ensures c !in Join(items, sep)
    decreases |items|
  {
    if |items| > 1 {
      JoinWithout(items[1..], sep, c);
    }
  }

  /** No line contains the character. */
  predicate NoneContain(lines: seq<string>, c: char) {
    forall i :: 0 <= i < |lines| ==> c !in lines[i]
  }

  lemma SplitEachOne(x: string, c: char)
    ensures SplitEach([x], c) == Split(x, c)
  {
    assert [x][1..] == [];
    AppendEmpty(Split(x, c));
  }

  lemma SplitEachBlock(pre: seq<string>, x: string, post: seq<string>, c: char)
    requires NoneContain(pre, c) && NoneContain(post, c)
    ensures SplitEach(pre + [x] + post, c) == pre + Split(x, c) + post
  {
    SplitEachAppend(pre + [x], post, c);
    SplitEachAppend(pre, [x], c);
    SplitEachNone(pre, c);
    SplitEachNone(post, c);
    SplitEachOne(x, c);
  }

  /** Splitting lines joined by `c`, where all lines but two are free of `c`:
      the free lines stay whole and the two others give their pieces in place. */
  lemma SplitTwoBlocks(pre: seq<string>, x: string, mid: seq<string>, y: string, post: seq<string>, c: char)
    requires NoneContain(pre, c) && NoneContain(mid, c) && NoneContain(post, c)
    ensures Split(Join(pre + [x] + mid + [y] + post, [c]), c) == pre + Split(x, c) + mid + Split(y, c) + post
  {
    SplitJoinEach(pre + [x] + mid + [y] + post, c);
    SplitEachTwo(pre, x, mid, y, post, c);
  }

  lemma SplitEachTwo(pre: seq<string>, x: string, mid: seq<string>, y: string, post: seq<string>, c: char)
    requires NoneContain(pre, c) && NoneContain(mid, c) && NoneContain(post, c)
    ensures SplitEach(pre + [x] + mid + [y] + post, c) == pre + Split(x, c) + mid + Split(y, c) + post
  {
    var front, back := pre + [x] + mid, [y] + post;
    calc {
      SplitEach(pre + [x] + mid + [y] + post, c);
      { assert pre + [x] + mid + [y] + post == front + back; }
      SplitEach(front + back, c);
      { SplitEachAppend(front, back, c); }
      SplitEach(front, c) + SplitEach(back, c);
      { SplitEachBlock(pre, x, mid, c); SplitEachBack(y, post, c); }
      (pre + Split(x, c) + mid) + (Split(y, c) + post);
      pre + Split(x, c) + mid + Split(y, c) + post;
    }
  }

  lemma SplitEachBack(y: string, post: seq<string>, c: char)
    requires NoneContain(post, c)
    ensures SplitEach([y] + post, c) == Split(y, c) + post
  {
    SplitEachBlock([], y, post, c);
    assert [] + [y] + post == [y] + post;
    assert [] + Split(y, c) + post == Split(y, c) + post;
  }

  // ---------------------------------------------------------------------------
  // Splitting on a separator of several characters
  // ---------------------------------------------------------------------------

  /** `s.split(sep)` for a non-empty separator of any length: occurrences are
      found left to right, without overlap, and cut out. The first piece is
      a prefix of `s`, and a single piece is `s` itself. */
  function SplitOn(s: string, sep: string): (r: seq<string>)
    requires |sep| > 0
    ensures |r| >= 1
    ensures |r[0]| <= |s| && r[0] == s[..|r[0]|]
    ensures |r| == 1 ==> r[0] == s
    decreases |s|
  {
    if |s| == 0 then [""]
    else if StartsWith(s, sep) then [""] + SplitOn(s[|sep|..], sep)
    else
      var rest := SplitOn(s[1..], sep);
      assert [s[0]] + rest[0] == s[..1 + |rest[0]|];
      [[s[0]] + rest[0]] + rest[1..]
  }

  /** No piece holds the separator. */
  predicate NoneHold(pieces: seq<string>, sep: string) {
    forall i :: 0 <= i < |pieces| ==> !Contains(pieces[i], sep)
  }

  /** No piece of a split holds the separator. */
  lemma {:induction false} SplitOnWithout(s: string, sep: string)
    requires |sep| > 0
    ensures NoneHold(SplitOn(s, sep), sep)
    decreases |s|
  {
    if |s| == 0 {
      assert SplitOn(s, sep) == [""];
    } else if StartsWith(s, sep) {
      SplitOnWithout(s[|sep|..], sep);
      assert SplitOn(s, sep) == [""] + SplitOn(s[|sep|..], sep);
    } else {
      var rest := SplitOn(s[1..], sep);
      SplitOnWithout(s[1..], sep);
      HeadWithout(s, rest[0], sep);
      var r := SplitOn(s, sep);
      assert r == [[s[0]] + rest[0]] + rest[1..];
      forall i | 1 <= i < |r|
        ensures !Contains(r[i], sep)
      {
        assert r[i] == rest[i];
      }
    }
  }

  /** The first piece of a string that does not start with the separator
      holds no separator when the first piece of its tail holds none. */
  lemma HeadWithout(s: string, piece: string, sep: string)
    requires |s| > 0 && !StartsWith(s, sep) && |piece| < |s| && piece == s[1..][..|piece|]
    requires !Contains(piece, sep)
    ensures !Contains([s[0]] + piece, sep)
  {
    var head := [s[0]] + piece;
    assert head == s[..|head|];
    forall k | 0 <= k <= |head| - |sep|
      ensures !OccursAt(head, sep, k)
    {
      if k == 0 {
        assert head[..|sep|] == s[..|sep|];
      } else {
        assert head[k..k + |sep|] == piece[k - 1..k - 1 + |sep|];
        assert !OccursAt(piece, sep, k - 1);
      }
    }
  }

  /** Where the separator does not occur before position `n`, the first `n`
      characters are glued to the first piece of the rest. */
  lemma {:induction false} SplitOnPrefix(t: string, n: nat, sep: string)
    requires |sep| > 0 && n <= |t|
    requires forall i :: 0 <= i < n ==> !OccursAt(t, sep, i)
    ensures SplitOn(t, sep) == [t[..n] + SplitOn(t[n..], sep)[0]] + SplitOn(t[n..], sep)[1..]
    decreases n
  {
    var rn := SplitOn(t[n..], sep);
    if n == 0 {
      assert t[..0] + rn[0] == rn[0] && t[0..] == t;
      HeadTail(rn);
    } else {
      assert !OccursAt(t, sep, 0);
      assert !StartsWith(t, sep);
      var u := t[1..];
      forall i | 0 <= i < n - 1
        ensures !OccursAt(u, sep, i)
      {
        assert !OccursAt(t, sep, i + 1);
        if i <= |u| - |sep| {
          assert u[i..i + |sep|] == t[i + 1..i + 1 + |sep|];
        }
      }
      SplitOnPrefix(u, n - 1, sep);
      assert u[n - 1..] == t[n..];
      var rest := SplitOn(u, sep);
      assert rest == [u[..n - 1] + rn[0]] + rn[1..];
      assert [t[0]] + (u[..n - 1] + rn[0]) == t[..n] + rn[0];
    }
  }

  /** The first occurrence of the separator, at `n`, cuts off the piece before it. */
  lemma SplitOnAt(t: string, n: nat, sep: string)
    requires |sep| > 0 && OccursAt(t, sep, n)
    requires forall i :: 0 <= i < n ==> !OccursAt(t, sep, i)
    ensures SplitOn(t, sep) == [t[..n]] + SplitOn(t[n + |sep|..], sep)
  {
    SplitOnPrefix(t, n, sep);
    var w := t[n..];
    assert StartsWith(w, sep);
    assert w[|sep|..] == t[n + |sep|..];
    assert SplitOn(w, sep) == [""] + SplitOn(t[n + |sep|..], sep);
    assert t[..n] + "" == t[..n];
  }

  /** A string free of the separator is one piece. */
  lemma SplitOnNone(s: string, sep: string)
    requires |sep| > 0 && !Contains(s, sep)
    ensures SplitOn(s, sep) == [s]
  {
    SplitOnPrefix(s, |s|, sep);
    assert s[|s|..] == "" && s[..|s|] == s;
    AppendEmpty(s);
  }

  /** Splitting on a one-character string is splitting on that character. */
  lemma {:induction false} SplitOnChar(s: string, c: char)
    ensures SplitOn(s, [c]) == Split(s, c)
    decreases |s|
  {
    if |s| > 0 {
      SplitOnChar(s[1..], c);
      if s[0] == c {
        assert StartsWith(s, [c]);
      } else {
        assert !StartsWith(s, [c]);
      }
    }
  }

  predicate NoSpace(s: string) {
    forall i :: 0 <= i < |s| ==> !IsSpace(s[i])
  }

  /** Items that survive a split on `sep` followed by a trim unchanged. */
  predicate TrimmedFree(items: seq<string>, sep: string) {
    forall i :: 0 <= i < |items| ==> !Contains(items[i], sep) && NoSurroundingSpace(items[i])
  }

  /** Leading whitespace cannot start a separator without whitespace. */
  lemma SplitOnPadded(pad: string, tail: string, sep: string)
    requires |sep| > 0 && NoSpace(sep) && AllSpace(pad)
    ensures SplitOn(pad + tail, sep) == [pad + SplitOn(tail, sep)[0]] + SplitOn(tail, sep)[1..]
  {
    var t := pad + tail;
    forall i | 0 <= i < |pad|
      ensures !OccursAt(t, sep, i)
    {
      assert IsSpace(t[i]);
      if i <= |t| - |sep| {
        assert t[i..i + |sep|][0] == t[i];
        assert !IsSpace(sep[0]);
      }
    }
    SplitOnPrefix(t, |pad|, sep);
    assert t[..|pad|] == pad && t[|pad|..] == tail;
  }

  /** One padded separator after a separator-free item: the item with its
      right padding is the first piece, and the left padding is glued to the
      first piece of the rest. */
  lemma SplitOnJoinStep(x: string, pad: string, sep: string, tail: string)
    requires |sep| > 0 && NoSpace(sep) && |pad| > 0 && AllSpace(pad) && !Contains(x, sep)
    ensures SplitOn(x + (pad + sep + pad) + tail, sep)
      == [x + pad] + ([pad + SplitOn(tail, sep)[0]] + SplitOn(tail, sep)[1..])
  {
    var t := x + (pad + sep + pad) + tail;
    var n := |x| + |pad|;
    assert t[n..n + |sep|] == sep;
    forall i | 0 <= i < n
      ensures !OccursAt(t, sep, i)
    {
      if i + |sep| <= |x| {
        assert t[i..i + |sep|] == x[i..i + |sep|];
        assert !OccursAt(x, sep, i);
      } else if i <= |t| - |sep| {
        var j := if i < |x| then |x| else i;
        assert IsSpace(t[j]);
        assert t[i..i + |sep|][j - i] == t[j];
        assert !IsSpace(sep[j - i]);
      }
    }
    SplitOnAt(t, n, sep);
    assert t[..n] == x + pad;
    assert t[n + |sep|..] == pad + tail;
    SplitOnPadded(pad, tail, sep);
  }

  lemma JoinSplitOnTrimOne(x: string, sep: string)
    requires |sep| > 0 && !Contains(x, sep) && NoSurroundingSpace(x)
    ensures TrimAll(SplitOn(x, sep)) == [x]
  {
    SplitOnNone(x, sep);
    TrimNoop(x);
  }

  lemma JoinSplitOnTrimCons(x: string, rest: seq<string>, pad: string, sep: string)
    requires |rest| > 0 && |sep| > 0 && NoSpace(sep) && |pad| > 0 && AllSpace(pad)
    requires !Contains(x, sep) && NoSurroundingSpace(x)
    requires TrimAll(SplitOn(Join(rest, pad + sep + pad), sep)) == rest
    ensures TrimAll(SplitOn(Join([x] + rest, pad + sep + pad), sep)) == [x] + rest
  {
    var glue := pad + sep + pad;
    var items := [x] + rest;
    assert items[1..] == rest;
    var tail := Join(rest, glue);
    var pieces := SplitOn(tail, sep);
    SplitOnJoinStep(x, pad, sep, tail);
    var whole := [x + pad] + ([pad + pieces[0]] + pieces[1..]);
    assert SplitOn(Join(items, glue), sep) == whole;
    TrimPadded("", x, pad);
    assert "" + x + pad == x + pad;
    TrimNoop(x);
    TrimPadded(pad, pieces[0], "");
    AppendEmpty(pad + pieces[0]);
    assert whole[1..] == [pad + pieces[0]] + pieces[1..];
    HeadTail(pieces);
    assert TrimAll(pieces) == [Trim(pieces[0])] + TrimAll(pieces[1..]);
    assert TrimAll(whole) == [x] + TrimAll(pieces);
  }

  /** Joining with a separator padded by whitespace on both sides, splitting
      on the separator and trimming every piece recovers a non-empty list
      whose items are trimmed and free of the separator. */
  lemma {:induction false} JoinSplitOnTrim(items: seq<string>, pad: string, sep: string)
    requires |items| > 0 && |sep| > 0 && NoSpace(sep) && |pad| > 0 && AllSpace(pad)
    requires TrimmedFree(items, sep)
    ensures TrimAll(SplitOn(Join(items, pad + sep + pad), sep)) == items
    decreases |items|
  {
    HeadTail(items);
    if |items| == 1 {
      JoinSplitOnTrimOne(items[0], sep);
    } else {
      JoinSplitOnTrim(items[1..], pad, sep);
      JoinSplitOnTrimCons(items[0], items[1..], pad, sep);
    }
  }

  /** The bullet character U+2022 the renderers put between list items. */
  const BulletChar: char := '\U{2022}'

  predicate StartsWith(s: string, prefix: string) {
    |prefix| <= |s| && s[..|prefix|] == prefix
  }

  /** `s.includes(p)`. */
  predicate Contains(s: string, p: string) {
    exists i :: 0 <= i <= |s| - |p| && OccursAt(s, p, i)
  }

  predicate OccursAt(s: string, p: string, i: int) {
    0 <= i <= |s| - |p| && s[i..i + |p|] == p
  }

  /** A piece of a string free of `p` is free of `p`. */
  lemma SliceWithout(s: string, p: string, a: nat, b: nat)
    requires a <= b <= |s| && !Contains(s, p)
    ensures !Contains(s[a..b], p)
  {
    var piece := s[a..b];
    if Contains(piece, p) {
      var i :| 0 <= i <= |piece| - |p| && OccursAt(piece, p, i);
      SliceOfSlice(s, a, b, i, i + |p|);
      assert OccursAt(s, p, a + i);
    }
  }

  lemma SliceOfSlice(s: string, a: nat, b: nat, i: nat, j: nat)
    requires a <= b <= |s| && i <= j <= b - a
    ensures s[a..b][i..j] == s[a + i..a + j]
  {
    forall k | 0 <= k < j - i
      ensures s[a..b][i..j][k] == s[a + i..a + j][k]
    {
      assert s[a..b][i..j][k] == s[a..b][i + k] == s[a + i + k];
    }
  }

  /** Trimming a string free of `p` leaves it free of `p`. */
  lemma TrimWithout(s: string, p: string)
    requires !Contains(s, p)
    ensures !Contains(Trim(s), p)
  {
    TrimSlice(s);
    SliceWithout(s, p, LeadingSpace(s), LeadingSpace(s) + |Trim(s)|);
  }

  /** `s.replace(/p/g, "")` for a literal pattern: occurrences are found left to
      right, without overlap, and deleted. */
  function RemoveAll(s: string, p: string): (r: string)
    requires |p| > 0
    ensures |r| <= |s|
    decreases |s|
  {
    if |s| < |p| then s
    else if s[..|p|] == p then RemoveAll(s[|p|..], p)
    else [s[0]] + RemoveAll(s[1..], p)
  }

  function UpperChar(c: char): char {
    if 'a' <= c <= 'z' then (c as int - 'a' as int + 'A' as int) as char else c
  }

  function LowerChar(c: char): char {
    if 'A' <= c <= 'Z' then (c as int - 'A' as int + 'a' as int) as char else c
  }

  /** `toUpperCase`, ASCII letters only. */
  function ToUpper(s: string): (r: string)
    ensures |r| == |s|
    ensures forall i :: 0 <= i < |s| ==> r[i] == UpperChar(s[i])
  {
    seq(|s|, i requires 0 <= i < |s| => UpperChar(s[i]))
  }

  /** `toLowerCase`, ASCII letters only. */
  predicate NoLower(s: string) {
    forall i :: 0 <= i < |s| ==> !('a' <= s[i] <= 'z')
  }

  /** Upper-casing a string without lower-case letters leaves it unchanged,
      and upper-casing is idempotent. */
  lemma UpperNoop(s: string)
    requires NoLower(s)
    ensures ToUpper(s) == s
  {
  }

  function ToLower(s: string): (r: string)
    ensures |r| == |s|
    ensures forall i :: 0 <= i < |s| ==> r[i] == LowerChar(s[i])
  {
    seq(|s|, i requires 0 <= i < |s| => LowerChar(s[i]))
  }

  /** The scheme rule every renderer applies to a LinkedIn value before using it
      as a link target: a value that starts with "http" is kept, anything else
      gets "https://" in front. The stored value is never changed. */
  function NormalizeUrl(s: string): (r: string)
    ensures StartsWith(r, "http")
    ensures r == s <==> StartsWith(s, "http")
    ensures r == s || r == "https://" + s
  {
    if StartsWith(s, "http") then s else "https://" + s
  }

  /** Normalising an already normalised URL changes nothing. */
  lemma NormalizeIdempotent(s: string)
    ensures NormalizeUrl(NormalizeUrl(s)) == NormalizeUrl(s)
  {
  }

  /** `items` with `sep` between every two neighbours. */
  function Intersperse<T>(items: seq<T>, sep: T): (r: seq<T>)
    ensures |items| > 0 ==> |r| == 2 * |items| - 1
    ensures |items| == 0 ==> r == []
    decreases |items|
  {
    if |items| <= 1 then items else [items[0], sep] + Intersperse(items[1..], sep)
  }

  /** Even positions hold the items in order, odd positions the separator. */
  lemma {:induction false} IntersperseAt<T>(items: seq<T>, sep: T, k: nat)
    requires k < |Intersperse(items, sep)|
    ensures k % 2 == 0 ==> k / 2 < |items| && Intersperse(items, sep)[k] == items[k / 2]
    ensures k % 2 == 1 ==> Intersperse(items, sep)[k] == sep
    decreases |items|
  {
    if |items| > 1 && k >= 2 {
      IntersperseAt(items[1..], sep, k - 2);
    }
  }

  /** Appending an item appends a separator and the item, unless the list was empty. */
  lemma {:induction false} IntersperseSnoc<T>(items: seq<T>, x: T, sep: T)
    ensures Intersperse(items + [x], sep) == if |items| == 0 then [x] else Intersperse(items, sep) + [sep, x]
    decreases |items|
  {
    if |items| == 0 {
      assert items + [x] == [x];
    } else if |items| == 1 {
      assert (items + [x])[1..] == [x];
    } else {
      assert (items + [x])[1..] == items[1..] + [x];
      IntersperseSnoc(items[1..], x, sep);
    }
  }

  /** Three optional items (each list holds at most one) pushed in turn, each
      preceded by a separator when something is already there. */
  lemma IntersperseThree<T>(p: seq<T>, e: seq<T>, l: seq<T>, sep: T)
    requires |p| <= 1 && |e| <= 1 && |l| <= 1
    ensures Intersperse(p + e + l, sep)
      == p + (if |e| > 0 then (if |p| > 0 then [sep] else []) + e else [])
           + (if |l| > 0 then (if |p| + |e| > 0 then [sep] else []) + l else [])
  {
    assert Intersperse(p, sep) == p;
    if |e| > 0 {
      assert e == [e[0]];
      IntersperseSnoc(p, e[0], sep);
    } else {
      assert p + e == p;
    }
    if |l| > 0 {
      assert l == [l[0]];
      IntersperseSnoc(p + e, l[0], sep);
    } else {
      assert p + e + l == p + e;
    }
  }
}
