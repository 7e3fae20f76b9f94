/**
 * The line buffer every generator writes into (code-generator-utils.js):
 * an append-only list of lines, a stack of indentation levels, and the
 * identifier-to-file-stem transform.
 */
module CodeGeneratorUtils {
  import opened JsBuiltins

  /** The line `writeLine(text)` appends while the stack holds `depth` copies of `unit`. */
  function LineAt(unit: string, depth: nat, text: string): string
  {
    if text == "" then "" else Repeat(unit, depth) + text
  }

  /** The indent string a writer built with `indentString` uses: a falsy one becomes two spaces. */
  function EffectiveIndent(indentString: string): string
  {
    if indentString == "" then "  " else indentString
  }

  class CodeWriter {
    var lines: seq<string>
    var indentString: string
    var indentations: seq<string>

    /** Every level on the stack is one copy of the indent string. */
    ghost predicate Valid()
      reads this
    {
      forall i | 0 <= i < |indentations| :: indentations[i] == indentString
    }

    /** A missing or empty indent string falls back to two spaces. */
    constructor (indentString: string)
      ensures this.indentString == EffectiveIndent(indentString)
      ensures this.indentString != ""
      ensures lines == [] && indentations == []
      ensures Valid()
    {
      lines := [];
      this.indentString := if indentString != "" then indentString else "  ";
      indentations := [];
    }

    /** Pushes exactly one copy of the indent string. */
    method Indent()
      modifies this
      ensures indentations == old(indentations) + [indentString]
      ensures lines == old(lines) && indentString == old(indentString)
      ensures Valid() <==> old(Valid())
    {
      indentations := indentations + [indentString];
      assert indentations[|indentations| - 1] == indentString;
      assert forall i | 0 <= i < |old(indentations)| :: indentations[i] == old(indentations)[i];
    }

    /** Removes the innermost level; on an empty stack nothing changes. */
    method Outdent()
      modifies this
      ensures indentations == if old(indentations) == [] then [] else old(indentations)[..|old(indentations)| - 1]
      ensures lines == old(lines) && indentString == old(indentString)
      ensures old(Valid()) ==> Valid()
    {
      indentations := Splice(indentations, |indentations| - 1, 1);
    }

    /**
     * Appends one line: the current indentation followed by `line`, or an
     * empty line whatever the depth when `line` is empty (also standing for
     * a call without argument). Earlier lines stay as they were.
     */
    method WriteLine(line: string)
      modifies this
      ensures lines == old(lines) + [if line != "" then Concat(indentations) + line else ""]
      ensures |lines| == |old(lines)| + 1 && lines[..|old(lines)|] == old(lines)
      ensures indentations == old(indentations) && indentString == old(indentString)
      ensures Valid() ==> lines == old(lines) + [LineAt(indentString, |indentations|, line)]
    {
      if line != "" {
        lines := lines + [Concat(indentations) + line];
      } else {
        lines := lines + [""];
      }
      if Valid() {
        ConcatOfCopies(indentations, indentString);
      }
    }

    /**
     * The lines joined by newlines: `n` lines give `n - 1` separators and
     * nothing follows the last line.
     */
    function GetData(): (data: string)
      reads this
      ensures lines == [] ==> data == ""
      ensures lines != [] ==> Count(data, '\n') == TotalCount(lines, '\n') + |lines| - 1
      ensures lines != [] ==> EndsWith(data, lines[|lines| - 1])
    {
      if lines == [] then ""
      else
        JoinCount(lines, '\n');
        JoinEndsWithLast(lines, "\n");
        Join(lines, "\n")
    }

    /**
     * `className.replace(/([a-z])([A-Z])/g, '$1_$2').toLowerCase()`: the
     * file stem of an identifier. The result has no ASCII capital letter.
     */
    static function FileName(className: string): (r: string)
      ensures forall i | 0 <= i < |r| :: !IsAsciiUpper(r[i])
    {
      ToLowerAscii(ReplaceLowerUpper(className))
    }
  }

  /**
   * The global regular-expression replacement of a lower-case letter followed
   * by a capital: a match is rewritten and scanning resumes after it.
   */
  function ReplaceLowerUpper(s: string): string
  {
    if |s| < 2 then s
    else if IsAsciiLower(s[0]) && IsAsciiUpper(s[1]) then [s[0], '_', s[1]] + ReplaceLowerUpper(s[2..])
    else [s[0]] + ReplaceLowerUpper(s[1..])
  }

  /** Reference: every character, followed by `_` where a lower-case letter precedes a capital. */
  function UnderscoreBetween(s: string): string
  {
    if s == [] then ""
    else [s[0]] + (if |s| > 1 && IsAsciiLower(s[0]) && IsAsciiUpper(s[1]) then "_" else "") + UnderscoreBetween(s[1..])
  }

  /** The regular-expression scan inserts an underscore at every lower-to-capital boundary. */
  lemma {:induction false} ReplaceLowerUpperInsertsUnderscores(s: string)
    ensures ReplaceLowerUpper(s) == UnderscoreBetween(s)
  {
    if |s| == 1 {
      assert UnderscoreBetween(s) == [s[0]] + "" + UnderscoreBetween(s[1..]);
    } else if |s| >= 2 {
      if IsAsciiLower(s[0]) && IsAsciiUpper(s[1]) {
        ReplaceLowerUpperInsertsUnderscores(s[2..]);
        var rest := s[1..];
        assert rest[1..] == s[2..];
        assert UnderscoreBetween(rest) == [s[1]] + "" + UnderscoreBetween(s[2..]);
      } else {
        ReplaceLowerUpperInsertsUnderscores(s[1..]);
      }
    }
  }

  /** A string without capitals is left alone by the replacement. */
  lemma {:induction false} ReplaceLowerUpperNoCapitals(s: string)
    requires forall i | 0 <= i < |s| :: !IsAsciiUpper(s[i])
    ensures ReplaceLowerUpper(s) == s
  {
    if |s| >= 2 {
      ReplaceLowerUpperNoCapitals(s[1..]);
    }
  }

  /** Turning a file stem into a file stem again changes nothing. */
  lemma {:induction false} FileNameIdempotent(s: string)
    ensures CodeWriter.FileName(CodeWriter.FileName(s)) == CodeWriter.FileName(s)
  {
    var f := CodeWriter.FileName(s);
    ReplaceLowerUpperNoCapitals(f);
    assert ToLowerAscii(f) == f;
  }

  /** Where no boundary straddles the seam, the two halves are rewritten independently. */
  lemma {:induction false} UnderscoreBetweenAppend(a: string, b: string)
    requires a == [] || b == [] || !(IsAsciiLower(a[|a| - 1]) && IsAsciiUpper(b[0]))
    ensures UnderscoreBetween(a + b) == UnderscoreBetween(a) + UnderscoreBetween(b)
  {
    if a != [] {
      assert (a + b)[1..] == a[1..] + b;
      UnderscoreBetweenAppend(a[1..], b);
      if |a| == 1 && b != [] {
        assert (a + b)[1] == b[0];
      }
    } else {
      assert a + b == b;
    }
  }

  /** No lower-case letter of `s` is directly followed by a capital. */
  predicate NoBoundary(s: string)
  {
    forall i | 0 <= i < |s| - 1 :: !(IsAsciiLower(s[i]) && IsAsciiUpper(s[i + 1]))
  }

  /** Without a boundary the reference inserts nothing. */
  lemma {:induction false} UnderscoreBetweenNoBoundary(s: string)
    requires NoBoundary(s)
    ensures UnderscoreBetween(s) == s
  {
    if s != [] {
      assert NoBoundary(s[1..]) by {
        forall i | 0 <= i < |s[1..]| - 1 ensures !(IsAsciiLower(s[1..][i]) && IsAsciiUpper(s[1..][i + 1])) {
          assert s[1..][i] == s[i + 1] && s[1..][i + 1] == s[i + 2];
        }
      }
      UnderscoreBetweenNoBoundary(s[1..]);
      if |s| > 1 {
        assert !(IsAsciiLower(s[0]) && IsAsciiUpper(s[1]));
      }
    }
  }

  /** One unfolding of the reference on a string with a one-character head. */
  lemma {:induction false} UnderscoreBetweenAfterOne(a: string, b: string)
    requires |a| == 1 && b != []
    ensures UnderscoreBetween(a + b) == a + (if IsAsciiLower(a[0]) && IsAsciiUpper(b[0]) then "_" else "") + UnderscoreBetween(b)
  {
    var ab := a + b;
    assert ab[1..] == b;
    assert ab[1] == b[0];
    assert [a[0]] == a;
  }

  /** A boundary at the seam of two strings gets exactly one underscore there. */
  lemma {:induction false} UnderscoreBetweenAtSeam(a: string, b: string)
    requires a != [] && b != [] && IsAsciiLower(a[|a| - 1]) && IsAsciiUpper(b[0])
    ensures UnderscoreBetween(a + b) == UnderscoreBetween(a) + "_" + UnderscoreBetween(b)
  {
    if |a| == 1 {
      UnderscoreBetweenAfterOne(a, b);
      assert UnderscoreBetween(a) == a;
    } else {
      var ab := a + b;
      assert ab[1..] == a[1..] + b;
      assert ab[1] == a[1];
      UnderscoreBetweenAtSeam(a[1..], b);
      var mid := if IsAsciiLower(a[0]) && IsAsciiUpper(a[1]) then "_" else "";
      assert UnderscoreBetween(ab) == [a[0]] + mid + UnderscoreBetween(a[1..] + b);
      assert UnderscoreBetween(a) == [a[0]] + mid + UnderscoreBetween(a[1..]);
      AppendAssoc([a[0]] + mid, UnderscoreBetween(a[1..]) + "_", UnderscoreBetween(b));
      AppendAssoc([a[0]] + mid, UnderscoreBetween(a[1..]), "_");
    }
  }

  /** Two words whose only boundary is between them are joined by one underscore. */
  lemma {:induction false} ReplaceLowerUpperTwoWords(a: string, b: string)
    requires a != [] && b != [] && IsAsciiLower(a[|a| - 1]) && IsAsciiUpper(b[0])
    requires NoBoundary(a) && NoBoundary(b)
    ensures ReplaceLowerUpper(a + b) == a + "_" + b
  {
    ReplaceLowerUpperInsertsUnderscores(a + b);
    UnderscoreBetweenAtSeam(a, b);
    UnderscoreBetweenNoBoundary(a);
    UnderscoreBetweenNoBoundary(b);
  }

  /** The underscore survives lower-casing. */
  lemma {:induction false} ToLowerAsciiAroundUnderscore(a: string, b: string)
    ensures ToLowerAscii(a + "_" + b) == ToLowerAscii(a) + "_" + ToLowerAscii(b)
  {
    assert a + "_" + b == a + ("_" + b);
    ToLowerAsciiAppend(a, "_" + b);
    assert ("_" + b)[1..] == b;
  }

  /** The file stem of a two-word camel-case identifier: both words lower-cased, joined by `_`. */
  lemma {:induction false} FileNameOfTwoWords(a: string, b: string)
    requires a != [] && b != [] && IsAsciiLower(a[|a| - 1]) && IsAsciiUpper(b[0])
    requires NoBoundary(a) && NoBoundary(b)
    ensures CodeWriter.FileName(a + b) == ToLowerAscii(a) + "_" + ToLowerAscii(b)
  {
    ReplaceLowerUpperTwoWords(a, b);
    ToLowerAsciiAroundUnderscore(a, b);
  }

  /** Facts about the sample words used below, one literal at a time. */
  lemma CustomerLower()
    ensures ToLowerAscii("Customer") == "customer"
  {
  }

  lemma OrderLower()
    ensures ToLowerAscii("Order") == "order"
  {
  }

  lemma CustomerNoBoundary()
    ensures NoBoundary("Customer")
  {
  }

  lemma OrderNoBoundary()
    ensures NoBoundary("Order")
  {
  }

  lemma SampleNameSplit()
    ensures "CustomerOrder" == "Customer" + "Order"
  {
  }

  lemma SampleStemSplit()
    ensures "customer_order" == "customer" + "_" + "order"
  {
  }

  /** `CustomerOrder` becomes `customer_order`. */
  lemma FileNameExample()
    ensures CodeWriter.FileName("CustomerOrder") == "customer_order"
  {
    CustomerNoBoundary();
    OrderNoBoundary();
    FileNameOfTwoWords("Customer", "Order");
    CustomerLower();
    OrderLower();
    SampleNameSplit();
    SampleStemSplit();
  }

  /** Indenting and then outdenting leaves the stack as it was. */
  method IndentThenOutdent(w: CodeWriter)
    modifies w
    ensures w.indentations == old(w.indentations) && w.lines == old(w.lines)
    ensures w.indentString == old(w.indentString)
  {
    w.Indent();
    w.Outdent();
  }
}
