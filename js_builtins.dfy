/**
 * The JavaScript built-ins the generator relies on, over strings as
 * sequences of characters: Array.prototype.join and splice,
 * String.prototype.split, trim and toLowerCase.
 */
module JsBuiltins {

  /** `ss.join('')`. */
  function Concat(ss: seq<string>): string
  {
    if ss == [] then "" else Concat(ss[..|ss| - 1]) + ss[|ss| - 1]
  }

  lemma {:induction false} ConcatPair(a: string, b: string)
    ensures Concat([a]) == a && Concat([a, b]) == a + b
  {
    assert [a, b][..1] == [a];
    assert [a][..0] == [];
  }

  lemma {:induction false} ConcatAppend(a: seq<string>, b: seq<string>)
    ensures Concat(a + b) == Concat(a) + Concat(b)
  {
    if b == [] {
      assert a + b == a;
    } else {
      assert (a + b)[..|a + b| - 1] == a + b[..|b| - 1];
      ConcatAppend(a, b[..|b| - 1]);
    }
  }

  /** Regrouping a concatenation; stated once so that callers need not re-derive it element by element. */
  lemma AppendAssoc<T>(a: seq<T>, b: seq<T>, c: seq<T>)
    ensures (a + b) + c == a + (b + c)
  {
  }

  /** Two items pushed one after the other. */
  lemma PushTwo<T>(x: seq<T>, a: T, b: T)
    ensures x + [a] + [b] == x + [a, b]
  {
  }

  /** `n` copies of `s` one after the other. */
  function Repeat(s: string, n: nat): string
  {
    if n == 0 then "" else Repeat(s, n - 1) + s
  }

  lemma {:induction false} RepeatSpaces(n: nat)
    ensures |Repeat(" ", n)| == n
    ensures forall i | 0 <= i < n :: Repeat(" ", n)[i] == ' '
  {
    if n > 0 {
      RepeatSpaces(n - 1);
    }
  }

  /** Joining `n` copies of one string gives that string repeated `n` times. */
  lemma {:induction false} ConcatOfCopies(ss: seq<string>, s: string)
    requires forall i | 0 <= i < |ss| :: ss[i] == s
    ensures Concat(ss) == Repeat(s, |ss|)
  {
    if ss != [] {
      ConcatOfCopies(ss[..|ss| - 1], s);
    }
  }

  /** `ss.join(sep)`. */
  function Join(ss: seq<string>, sep: string): string
  {
    if |ss| == 0 then ""
    else if |ss| == 1 then ss[0]
    else ss[0] + sep + Join(ss[1..], sep)
  }

  lemma {:induction false} JoinSnoc(ss: seq<string>, x: string, sep: string)
    requires ss != []
    ensures Join(ss + [x], sep) == Join(ss, sep) + sep + x
  {
    if |ss| == 1 {
      assert ss + [x] == [ss[0], x];
      assert [ss[0], x][1..] == [x];
    } else {
      assert (ss + [x])[1..] == ss[1..] + [x];
      JoinSnoc(ss[1..], x, sep);
    }
  }

  /** The array built by pushing each item of `ss` followed by `sep`. */
  function Interleave(ss: seq<string>, sep: string): (r: seq<string>)
    ensures |r| == 2 * |ss|
  {
    if ss == [] then [] else Interleave(ss[..|ss| - 1], sep) + [ss[|ss| - 1], sep]
  }

  lemma {:induction false} InterleaveSnoc(ss: seq<string>, x: string, sep: string)
    ensures Interleave(ss + [x], sep) == Interleave(ss, sep) + [x, sep]
  {
    assert (ss + [x])[..|ss|] == ss;
  }

  /** Popping the last pushed separator leaves the earlier pairs and the last item. */
  lemma {:induction false} InterleaveDropLast(ss: seq<string>, sep: string)
    requires ss != []
    ensures Interleave(ss, sep)[..2 * |ss| - 1] == Interleave(ss[..|ss| - 1], sep) + [ss[|ss| - 1]]
  {
  }

  /**
   * Pushing every item followed by a separator, popping the last separator
   * and joining with '' gives the items joined by the separator: there is
   * no dangling separator.
   */
  lemma {:induction false} PushPopJoin(ss: seq<string>, sep: string)
    requires ss != []
    ensures Concat(Interleave(ss, sep)[..2 * |ss| - 1]) == Join(ss, sep)
  {
    var init, last := ss[..|ss| - 1], ss[|ss| - 1];
    var pairs := Interleave(init, sep);
    assert Interleave(ss, sep)[..2 * |ss| - 1] == pairs + [last];
    assert Concat(pairs + [last]) == Concat(pairs) + last by {
      assert (pairs + [last])[..|pairs + [last]| - 1] == pairs;
    }
    if init == [] {
      assert ss == [last];
    } else {
      PushPopJoin(init, sep);
      assert Concat(pairs) == Concat(pairs[..2 * |init| - 1]) + sep by {
        assert pairs[..|pairs| - 1] == pairs[..2 * |init| - 1];
      }
      JoinSnoc(init, last, sep);
      assert init + [last] == ss;
    }
  }

  /**
   * The same with a first item pushed before the pairs, and the pop done only
   * when more than that first item is left.
   */
  lemma {:induction false} PrefixedPushPopJoin(head: string, ss: seq<string>, sep: string)
    ensures var terms := [head] + Interleave(ss, sep);
            Concat(if |terms| > 1 then terms[..|terms| - 1] else terms) == head + Join(ss, sep)
  {
    var terms := [head] + Interleave(ss, sep);
    if ss == [] {
      assert terms == [head];
      assert Concat([head]) == Concat([]) + head by {
        assert [head][..0] == [];
      }
    } else {
      assert terms[..|terms| - 1] == [head] + Interleave(ss, sep)[..2 * |ss| - 1];
      ConcatAppend([head], Interleave(ss, sep)[..2 * |ss| - 1]);
      PushPopJoin(ss, sep);
      assert Concat([head]) == Concat([]) + head by {
        assert [head][..0] == [];
      }
    }
  }

  /** `s.split(c)` for a one-character separator. */
  function Split(s: string, c: char): (r: seq<string>)
    ensures |r| >= 1
    ensures forall i | 0 <= i < |r| :: c !in r[i]
  {
    if s == [] then [""]
    else
      var rest := Split(s[1..], c);
      if s[0] == c then [""] + rest else [[s[0]] + rest[0]] + rest[1..]
  }

  /** Splitting at every separator and joining with that separator gives the string back. */
  lemma {:induction false} JoinSplit(s: string, c: char)
    ensures Join(Split(s, c), [c]) == s
  {
    if s != [] {
      var rest := Split(s[1..], c);
      JoinSplit(s[1..], c);
      if s[0] == c {
        assert ([""] + rest)[1..] == rest;
      } else {
        var r := [[s[0]] + rest[0]] + rest[1..];
        assert r[1..] == rest[1..];
        if |rest| > 1 {
          assert Join(rest, [c]) == rest[0] + [c] + Join(rest[1..], [c]);
        }
      }
    }
  }

  /** Splitting a string that starts with a separator-free `x` extends the first piece by `x`. */
  lemma {:induction false} SplitFreePrefix(x: string, y: string, c: char)
    requires c !in x
    ensures Split(x + y, c) == [x + Split(y, c)[0]] + Split(y, c)[1..]
  {
    if x != [] {
      assert (x + y)[1..] == x[1..] + y;
      SplitFreePrefix(x[1..], y, c);
      assert [x[0]] + (x[1..] + Split(y, c)[0]) == x + Split(y, c)[0];
    } else {
      assert x + y == y;
      var r := Split(y, c);
      assert x + r[0] == r[0];
      assert [r[0]] + r[1..] == r;
    }
  }

  /** Joining separator-free pieces and splitting again gives the pieces back. */
  lemma {:induction false} SplitJoin(ss: seq<string>, c: char)
    requires ss != []
    requires forall i | 0 <= i < |ss| :: c !in ss[i]
    ensures Split(Join(ss, [c]), c) == ss
  {
    if |ss| == 1 {
      SplitFreePrefix(ss[0], "", c);
      assert ss[0] + "" == ss[0];
    } else {
      var tail := Join(ss[1..], [c]);
      SplitJoin(ss[1..], c);
      assert Join(ss, [c]) == ss[0] + ([c] + tail);
      SplitFreePrefix(ss[0], [c] + tail, c);
      assert ([c] + tail)[1..] == tail;
      assert Split([c] + tail, c) == [""] + ss[1..];
      assert ss[0] + "" == ss[0];
      assert ss == [ss[0]] + ss[1..];
    }
  }

  /** `s.split(c)` has two or more pieces exactly when `s` holds a separator. */
  lemma {:induction false} SplitManyIff(s: string, c: char)
    ensures |Split(s, c)| >= 2 <==> c in s
  {
    if s != [] {
      SplitManyIff(s[1..], c);
      assert s == [s[0]] + s[1..];
    }
  }

  /** When `s` holds a separator, the first piece followed by that separator starts `s`. */
  lemma {:induction false} SplitFirstPiece(s: string, c: char)
    requires c in s
    ensures Split(s, c)[0] + [c] <= s
  {
    if s[0] != c {
      assert c in s[1..] by {
        var i :| 0 <= i < |s| && s[i] == c;
        assert s[1..][i - 1] == c;
      }
      SplitFirstPiece(s[1..], c);
    }
  }

  /** The number of occurrences of `c` in `s`. */
  function Count(s: string, c: char): nat
  {
    if s == [] then 0 else (if s[0] == c then 1 else 0) + Count(s[1..], c)
  }

  /** The number of occurrences of `c` in all of `ss`. */
  function TotalCount(ss: seq<string>, c: char): nat
  {
    if ss == [] then 0 else Count(ss[0], c) + TotalCount(ss[1..], c)
  }

  lemma {:induction false} CountAppend(a: string, b: string, c: char)
    ensures Count(a + b, c) == Count(a, c) + Count(b, c)
  {
    if a != [] {
      assert (a + b)[1..] == a[1..] + b;
      CountAppend(a[1..], b, c);
    } else {
      assert a + b == b;
    }
  }

  /** Joining `n` strings with a one-character separator adds exactly `n - 1` separators. */
  lemma {:induction false} JoinCount(ss: seq<string>, c: char)
    requires ss != []
    ensures Count(Join(ss, [c]), c) == TotalCount(ss, c) + |ss| - 1
  {
    if |ss| == 1 {
      assert TotalCount(ss[1..], c) == 0;
    } else {
      JoinCount(ss[1..], c);
      CountAppend(ss[0] + [c], Join(ss[1..], [c]), c);
      CountAppend(ss[0], [c], c);
      assert Count([c], c) == 1 by {
        assert [c][1..] == [];
      }
    }
  }

  predicate EndsWith(s: string, suffix: string)
  {
    |suffix| <= |s| && s[|s| - |suffix|..] == suffix
  }

  /** A join ends with its last item: nothing follows the last item. */
  lemma {:induction false} JoinEndsWithLast(ss: seq<string>, sep: string)
    requires ss != []
    ensures EndsWith(Join(ss, sep), ss[|ss| - 1])
  {
    if |ss| > 1 {
      JoinEndsWithLast(ss[1..], sep);
      var j := Join(ss[1..], sep);
      var last := ss[|ss| - 1];
      assert ss[1..][|ss[1..]| - 1] == last;
      var whole := ss[0] + sep + j;
      assert whole[|whole| - |last|..] == j[|j| - |last|..];
    }
  }

  /** `Array.prototype.splice(start, deleteCount)`: what remains of `s`. */
  function Splice<T>(s: seq<T>, start: int, deleteCount: int): seq<T>
  {
    var first := if start < 0 then (if |s| + start > 0 then |s| + start else 0)
                 else (if start < |s| then start else |s|);
    var wanted := if deleteCount > 0 then deleteCount else 0;
    var removed := if wanted < |s| - first then wanted else |s| - first;
    s[..first] + s[first + removed..]
  }

  /** The characters String.prototype.trim removes: ECMAScript WhiteSpace and LineTerminator. */
  predicate IsJsWhitespace(ch: char)
  {
    || ch == '\t' || ch == '\n' || ch == '\U{B}' || ch == '\U{C}' || ch == '\r'
    || ch == ' ' || ch == '\U{A0}' || ch == '\U{1680}'
    || ('\U{2000}' <= ch <= '\U{200A}')
    || ch == '\U{2028}' || ch == '\U{2029}' || ch == '\U{202F}' || ch == '\U{205F}'
    || ch == '\U{3000}' || ch == '\U{FEFF}'
  }

  function TrimStart(s: string): (r: string)
    ensures |r| <= |s| && r == s[|s| - |r|..]
    ensures r == [] || !IsJsWhitespace(r[0])
    ensures forall i | 0 <= i < |s| - |r| :: IsJsWhitespace(s[i])
  {
    if s != [] && IsJsWhitespace(s[0]) then TrimStart(s[1..]) else s
  }

  function TrimEnd(s: string): (r: string)
    ensures |r| <= |s| && r == s[..|r|]
    ensures r == [] || !IsJsWhitespace(r[|r| - 1])
    ensures forall i | |r| <= i < |s| :: IsJsWhitespace(s[i])
  {
    if s != [] && IsJsWhitespace(s[|s| - 1]) then TrimEnd(s[..|s| - 1]) else s
  }

  /** `s.trim()`. */
  function Trim(s: string): string
  {
    TrimEnd(TrimStart(s))
  }

  /** `s.trim()` is empty exactly when every character of `s` is whitespace. */
  lemma {:induction false} TrimEmptyIff(s: string)
    ensures Trim(s) == "" <==> forall i | 0 <= i < |s| :: IsJsWhitespace(s[i])
  {
    var t := TrimStart(s);
    if Trim(s) != "" {
      assert t != [];
      assert t[0] == s[|s| - |t|];
    }
  }

  predicate IsAsciiUpper(ch: char) { 'A' <= ch <= 'Z' }

  predicate IsAsciiLower(ch: char) { 'a' <= ch <= 'z' }

  function LowerChar(ch: char): (r: char)
    ensures !IsAsciiUpper(r)
    ensures !IsAsciiUpper(ch) ==> r == ch
  {
    if IsAsciiUpper(ch) then (ch as int - 'A' as int + 'a' as int) as char else ch
  }

  /** `s.toLowerCase()` on the ASCII letters. */
  function ToLowerAscii(s: string): (r: string)
    ensures |r| == |s|
    ensures forall i | 0 <= i < |r| :: r[i] == LowerChar(s[i])
  {
    if s == [] then "" else [LowerChar(s[0])] + ToLowerAscii(s[1..])
  }

  /** Lower-casing works character by character, so it distributes over concatenation. */
  lemma {:induction false} ToLowerAsciiAppend(a: string, b: string)
    ensures ToLowerAscii(a + b) == ToLowerAscii(a) + ToLowerAscii(b)
  {
    if a != [] {
      assert (a + b)[1..] == a[1..] + b;
      ToLowerAsciiAppend(a[1..], b);
    } else {
      assert a + b == b;
    }
  }
}
