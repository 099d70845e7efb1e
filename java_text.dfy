/**
 * The pieces of java.lang.String and java.lang.Integer behaviour that the
 * server's protocol handling depends on: String.split("::"), the "%s::%s"
 * joins built with String.format, Integer.parseInt and Integer.toString.
 */
module JavaText {
  import opened Wrappers

  /** The protocol's field delimiter. */
  const Delimiter: string := "::"

  const MinInt32: int := -0x8000_0000
  const MaxInt32: int := 0x7fff_ffff

  // ---------------------------------------------------------------------------
  // Splitting and joining on "::"
  // ---------------------------------------------------------------------------

  /** True when s contains the delimiter "::" somewhere. */
  predicate HasDelimiter(s: string)
  {
    exists i :: 0 <= i < |s| - 1 && s[i] == ':' && s[i + 1] == ':'
  }

  /** A field that joining and splitting give back unchanged: it holds no "::" and does not end in ':'. */
  predicate IsField(f: string)
  {
    !HasDelimiter(f) && (|f| == 0 || f[|f| - 1] != ':')
  }

  /** A string without any ':' is a field; every protocol code is one. */
  lemma NoColonIsField(f: string)
    requires forall i :: 0 <= i < |f| ==> f[i] != ':'
    ensures IsField(f)
  {
  }

  /** Fields whose join splits back into exactly these fields. */
  predicate Joinable(fields: seq<string>)
  {
    && |fields| >= 1
    && (forall i :: 0 <= i < |fields| ==> IsField(fields[i]))
    && (|fields| == 1 || fields[|fields| - 1] != "")
  }

  /**
   * The substrings between the non-overlapping occurrences of "::" found by a
   * left-to-right scan, empty ones included: the list that Pattern.split
   * collects before it trims the end.
   */
  function Pieces(s: string): (r: seq<string>)
    ensures |r| >= 1
    decreases |s|
  {
    if |s| >= 2 && s[0] == ':' && s[1] == ':' then [""] + Pieces(s[2..])
    else if |s| == 0 then [""]
    else
      var rest := Pieces(s[1..]);
      [[s[0]] + rest[0]] + rest[1..]
  }

  /** Removes the empty strings at the end of p. */
  function DropTrailingEmpty(p: seq<string>): (r: seq<string>)
    ensures r <= p
    ensures r == [] || r[|r| - 1] != ""
    ensures forall i :: |r| <= i < |p| ==> p[i] == ""
  {
    if |p| == 0 || p[|p| - 1] != "" then p else DropTrailingEmpty(p[..|p| - 1])
  }

  /**
   * s.split("::") in Java: without any occurrence of the delimiter the result
   * is the input itself (also when it is empty); otherwise the pieces with
   * the trailing empty strings removed, interior empty strings kept.
   */
  function Split(s: string): seq<string>
  {
    var p := Pieces(s);
    if |p| == 1 then p else DropTrailingEmpty(p)
  }

  /** The pieces are what lies between the delimiters: joining them with "::" gives the line back. */
  lemma {:induction false} PiecesJoin(s: string)
    ensures Join(Pieces(s)) == s
    decreases |s|
  {
    if |s| >= 2 && s[0] == ':' && s[1] == ':' {
      PiecesJoin(s[2..]);
      JoinCons("", Pieces(s[2..]));
      assert s == Delimiter + s[2..];
    } else if |s| > 0 {
      var rest := Pieces(s[1..]);
      PiecesJoin(s[1..]);
      assert s == [s[0]] + s[1..];
      if |rest| > 1 {
        JoinCons([s[0]] + rest[0], rest[1..]);
        assert rest == [rest[0]] + rest[1..];
        JoinCons(rest[0], rest[1..]);
        DelimitedPrefixAssoc([s[0]], rest[0], Join(rest[1..]));
      }
    }
  }

  lemma DelimitedPrefixAssoc(c: string, a: string, b: string)
    ensures (c + a) + Delimiter + b == c + (a + Delimiter + b)
  {
  }

  /** A line without "::" splits into itself alone. */
  lemma {:induction false} SplitOfPlainLine(s: string)
    requires !HasDelimiter(s)
    ensures Split(s) == [s]
  {
    PiecesOfPlain(s);
  }

  /** The fields separated by "::", as the server's String.format("%s::%s", ...) calls build them. */
  function Join(fields: seq<string>): string
    decreases |fields|
  {
    if |fields| == 0 then ""
    else if |fields| == 1 then fields[0]
    else fields[0] + Delimiter + Join(fields[1..])
  }

  lemma JoinCons(head: string, fields: seq<string>)
    requires |fields| >= 1
    ensures Join([head] + fields) == head + Delimiter + Join(fields)
  {
    assert ([head] + fields)[1..] == fields;
  }

  lemma JoinPair(first: string, second: string, fields: seq<string>)
    requires |fields| >= 1
    ensures Join([first, second] + fields) == first + Delimiter + second + Delimiter + Join(fields)
  {
    assert [first, second] + fields == [first] + ([second] + fields);
    JoinCons(first, [second] + fields);
    JoinCons(second, fields);
    DelimitedAssoc(first, second, Join(fields));
  }

  lemma DelimitedAssoc(a: string, b: string, c: string)
    ensures a + Delimiter + (b + Delimiter + c) == a + Delimiter + b + Delimiter + c
  {
  }

  /** A field in front of joinable fields (or of none) keeps them joinable. */
  lemma ConsJoinable(head: string, rest: seq<string>)
    requires IsField(head)
    requires forall k :: 0 <= k < |rest| ==> IsField(rest[k])
    requires |rest| == 0 || rest[|rest| - 1] != ""
    ensures Joinable([head] + rest)
  {
    assert forall k :: 0 < k < |[head] + rest| ==> ([head] + rest)[k] == rest[k - 1];
  }

  lemma {:induction false} JoinSnoc(fields: seq<string>, x: string)
    requires |fields| >= 1
    ensures Join(fields + [x]) == Join(fields) + Delimiter + x
    decreases |fields|
  {
    if |fields| > 1 {
      assert (fields + [x])[1..] == fields[1..] + [x];
      JoinSnoc(fields[1..], x);
    }
  }

  lemma {:induction false} PiecesOfPlain(f: string)
    requires !HasDelimiter(f)
    ensures Pieces(f) == [f]
    decreases |f|
  {
    if |f| > 0 {
      assert !(|f| >= 2 && f[0] == ':' && f[1] == ':');
      var g := f[1..];
      assert !HasDelimiter(g) by {
        forall i | 0 <= i < |g| - 1
          ensures !(g[i] == ':' && g[i + 1] == ':')
        {
          assert g[i] == f[i + 1] && g[i + 1] == f[i + 2];
        }
      }
      PiecesOfPlain(g);
      assert [f[0]] + g == f;
    }
  }

  lemma {:induction false} PiecesOfField(f: string, rest: string)
    requires IsField(f)
    ensures Pieces(f + Delimiter + rest) == [f] + Pieces(rest)
    decreases |f|
  {
    var s := f + Delimiter + rest;
    if |f| == 0 {
      assert s == Delimiter + rest;
      assert s[2..] == rest;
    } else {
      assert !(s[0] == ':' && s[1] == ':') by {
        if |f| == 1 {
          assert s[0] == f[0];
        } else {
          assert s[0] == f[0] && s[1] == f[1];
        }
      }
      var g := f[1..];
      assert IsField(g) by {
        forall i | 0 <= i < |g| - 1
          ensures !(g[i] == ':' && g[i + 1] == ':')
        {
          assert g[i] == f[i + 1] && g[i + 1] == f[i + 2];
        }
      }
      assert s[1..] == g + Delimiter + rest;
      PiecesOfField(g, rest);
      assert [f[0]] + g == f;
    }
  }

  lemma {:induction false} PiecesOfJoin(fields: seq<string>)
    requires |fields| >= 1
    requires forall i :: 0 <= i < |fields| ==> IsField(fields[i])
    ensures Pieces(Join(fields)) == fields
    decreases |fields|
  {
    if |fields| == 1 {
      PiecesOfPlain(fields[0]);
    } else {
      PiecesOfField(fields[0], Join(fields[1..]));
      PiecesOfJoin(fields[1..]);
      assert [fields[0]] + fields[1..] == fields;
    }
  }

  /** Splitting undoes joining, for fields the delimiter cannot be confused with. */
  lemma SplitJoin(fields: seq<string>)
    requires Joinable(fields)
    ensures Split(Join(fields)) == fields
  {
    PiecesOfJoin(fields);
  }

  /** No piece of a split holds the delimiter. */
  lemma {:induction false} PiecesArePlain(s: string)
    ensures forall i :: 0 <= i < |Pieces(s)| ==> !HasDelimiter(Pieces(s)[i])
    decreases |s|
  {
    if |s| >= 2 && s[0] == ':' && s[1] == ':' {
      PiecesArePlain(s[2..]);
    } else if |s| > 0 {
      PiecesArePlain(s[1..]);
      var rest := Pieces(s[1..]);
      var head := [s[0]] + rest[0];
      assert !HasDelimiter(head) by {
        forall i | 0 <= i < |head| - 1
          ensures !(head[i] == ':' && head[i + 1] == ':')
        {
          if i == 0 {
            if |rest[0]| == 0 {
              assert false;
            }
            // otherwise s would start with "::", since head[1] == rest[0][0] == s[1]
            PiecesStart(s[1..]);
          } else {
            assert head[i] == rest[0][i - 1] && head[i + 1] == rest[0][i];
          }
        }
      }
      assert Pieces(s) == [head] + rest[1..];
    }
  }

  /** A non-empty first piece begins with the string's first character. */
  lemma {:induction false} PiecesStart(s: string)
    requires |Pieces(s)[0]| > 0
    ensures |s| > 0 && Pieces(s)[0][0] == s[0]
  {
    if |s| >= 2 && s[0] == ':' && s[1] == ':' {
    } else if |s| == 0 {
    }
  }

  lemma SplitFieldsArePlain(s: string)
    ensures forall i :: 0 <= i < |Split(s)| ==> !HasDelimiter(Split(s)[i])
  {
    PiecesArePlain(s);
  }

  // ---------------------------------------------------------------------------
  // Integer.parseInt and Integer.toString, radix 10
  // ---------------------------------------------------------------------------

  predicate IsDigit(c: char)
  {
    '0' <= c <= '9'
  }

  predicate IsSign(c: char)
  {
    c == '-' || c == '+'
  }

  predicate AllDigits(s: string)
  {
    forall i :: 0 <= i < |s| ==> IsDigit(s[i])
  }

  function DigitValue(c: char): nat
    requires IsDigit(c)
  {
    (c as int) - ('0' as int)
  }

  /** The number a string of decimal digits denotes. */
  function DigitsValue(s: string): nat
    requires AllDigits(s)
  {
    if |s| == 0 then 0 else 10 * DigitsValue(s[..|s| - 1]) + DigitValue(s[|s| - 1])
  }

  function Pow10(k: nat): nat
  {
    if k == 0 then 1 else 10 * Pow10(k - 1)
  }

  lemma {:induction false} DigitsValueBelow(s: string)
    requires AllDigits(s)
    ensures DigitsValue(s) < Pow10(|s|)
  {
    if |s| > 0 {
      DigitsValueBelow(s[..|s| - 1]);
    }
  }

  /**
   * Integer.parseInt(s): an optional '-' or '+' followed by at least one
   * digit, with a value that fits in 32 bits; None stands for the
   * NumberFormatException.
   */
  function ParseInt(s: string): (r: Option<int>)
    ensures r.Some? ==> MinInt32 <= r.value <= MaxInt32
  {
    if |s| == 0 then None
    else
      var digits := if IsSign(s[0]) then s[1..] else s;
      if |digits| == 0 || !AllDigits(digits) then None
      else
        var v: int := if s[0] == '-' then -(DigitsValue(digits) as int) else DigitsValue(digits);
        if MinInt32 <= v <= MaxInt32 then Some(v) else None
  }

  function DigitChar(d: nat): (c: char)
    requires d < 10
    ensures IsDigit(c) && DigitValue(c) == d
  {
    ('0' as int + d) as char
  }

  /** The decimal digits of n, without leading zeros. */
  function Digits(n: nat): (r: string)
    ensures |r| >= 1 && AllDigits(r)
  {
    if n < 10 then [DigitChar(n)] else Digits(n / 10) + [DigitChar(n % 10)]
  }

  /** Integer.toString(n), which is also what "%s" and string concatenation print for an int. */
  function ShowInt(n: int): string
  {
    if n < 0 then "-" + Digits(-n) else Digits(n)
  }

  /** Boolean.toString(b), as "%s" prints a boolean. */
  function ShowBool(b: bool): string
  {
    if b then "true" else "false"
  }

  lemma {:induction false} DigitsValueOfDigits(n: nat)
    ensures DigitsValue(Digits(n)) == n
    decreases n
  {
    if n >= 10 {
      var d := Digits(n / 10);
      assert (d + [DigitChar(n % 10)])[..|d|] == d;
      DigitsValueOfDigits(n / 10);
    }
  }

  /** Integer.parseInt reads back what Integer.toString printed. */
  lemma ParseShowInt(n: int)
    requires MinInt32 <= n <= MaxInt32
    ensures ParseInt(ShowInt(n)) == Some(n)
  {
    if n < 0 {
      DigitsValueOfDigits(-n);
      assert ("-" + Digits(-n))[1..] == Digits(-n);
    } else {
      DigitsValueOfDigits(n);
      assert IsDigit(Digits(n)[0]);
    }
  }

  /** A printed integer is a field: it holds no ':' at all. */
  lemma ShowIntIsField(n: int)
    ensures IsField(ShowInt(n))
  {
    var s := ShowInt(n);
    assert forall i :: 0 <= i < |s| ==> s[i] != ':' by {
      forall i | 0 <= i < |s|
        ensures s[i] != ':'
      {
        if n < 0 {
          if i > 0 {
            assert s[i] == Digits(-n)[i - 1];
          }
        }
      }
    }
  }

  // ---------------------------------------------------------------------------
  // Prefix tests
  // ---------------------------------------------------------------------------

  /** s.startsWith(p) */
  predicate StartsWith(s: string, p: string)
  {
    |p| <= |s| && s[..|p|] == p
  }

  /** Three digits parse to the number they denote. */
  lemma ParseThreeDigits(p: string)
    requires |p| == 3 && AllDigits(p)
    ensures ParseInt(p) == Some(100 * DigitValue(p[0]) + 10 * DigitValue(p[1]) + DigitValue(p[2]))
  {
    assert p[..2][..1] == p[..1];
    assert p[..1][..0] == "";
    assert DigitsValue(p[..1]) == DigitValue(p[0]);
    assert DigitsValue(p[..2]) == 10 * DigitValue(p[0]) + DigitValue(p[1]);
  }

  /** A sign and two characters parse, if at all, to a number of at most two digits. */
  lemma ParseSignedTwoDigits(p: string)
    requires |p| == 3 && IsSign(p[0])
    ensures ParseInt(p).Some? ==> -99 <= ParseInt(p).value <= 99
  {
    var digits := p[1..];
    if AllDigits(digits) {
      DigitsValueBelow(digits);
      assert Pow10(2) == 100;
    }
  }

  /** Two three-digit strings parse to the same number only if they are the same string. */
  lemma ThreeDigitsInjective(p: string, q: string)
    requires |p| == 3 && AllDigits(p) && |q| == 3 && AllDigits(q)
    ensures ParseInt(p) == ParseInt(q) <==> p == q
  {
    ParseThreeDigits(p);
    ParseThreeDigits(q);
    if ParseInt(p) == ParseInt(q) {
      assert DigitValue(p[0]) == DigitValue(q[0]) && DigitValue(p[1]) == DigitValue(q[1]) && DigitValue(p[2]) == DigitValue(q[2]);
      assert forall i :: 0 <= i < 3 ==> p[i] == q[i];
    }
  }

  /**
   * A three-digit code is at the start of a line exactly when the line's
   * first three characters parse to the code's number.
   */
  lemma CodePrefixParses(line: string, code: string, n: int)
    requires |code| == 3 && AllDigits(code) && ParseInt(code) == Some(n) && n >= 100
    ensures StartsWith(line, code) <==> |line| >= 3 && ParseInt(line[..3]) == Some(n)
  {
    if |line| >= 3 {
      var p := line[..3];
      if IsSign(p[0]) {
        ParseSignedTwoDigits(p);
        assert p != code by {
          assert IsDigit(code[0]);
        }
      } else if AllDigits(p) {
        ThreeDigitsInjective(p, code);
      } else {
        assert ParseInt(p) == None;
      }
    }
  }

  /** Integer.parseInt(line.substring(0, 3)) succeeds: the test the socket input loop applies to every line. */
  predicate HasCommandPrefix(line: string)
  {
    |line| >= 3 && ParseInt(line[..3]).Some?
  }

  /** The three-character test accepts exactly three digits, or a sign followed by two digits. */
  lemma CommandPrefixCharacterization(line: string)
    ensures HasCommandPrefix(line) <==>
              |line| >= 3 && (IsSign(line[0]) || IsDigit(line[0])) && IsDigit(line[1]) && IsDigit(line[2])
  {
    if |line| >= 3 {
      var p := line[..3];
      var digits := if IsSign(p[0]) then p[1..] else p;
      if AllDigits(digits) {
        DigitsValueBelow(digits);
        assert Pow10(|digits|) <= 1000;
      }
      if IsSign(p[0]) {
        assert AllDigits(digits) <==> IsDigit(line[1]) && IsDigit(line[2]) by {
          assert digits[0] == line[1] && digits[1] == line[2];
        }
      } else {
        assert AllDigits(digits) <==> IsDigit(line[0]) && IsDigit(line[1]) && IsDigit(line[2]) by {
          assert digits[0] == line[0] && digits[1] == line[1] && digits[2] == line[2];
        }
      }
    }
  }
}
