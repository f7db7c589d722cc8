/** String operations the screens use, with JavaScript's meaning:
    `replace(/\D/g, '')`, `trim()`, `toLowerCase()` (ASCII letters only),
    and `split(',')` / `join(',')`. */
module Text {

  /** `\d` in a JavaScript regular expression: exactly the ASCII digits. */
  predicate IsDigit(c: char) {
    '0' <= c <= '9'
  }

  predicate AllDigits(s: string) {
    forall i :: 0 <= i < |s| ==> IsDigit(s[i])
  }

  /** `s.replace(/\D/g, '')`: the digits of `s`, in order. */
  function Digits(s: string): (r: string)
    ensures AllDigits(r)
    ensures |r| <= |s|
  {
    if s == [] then []
    else (if IsDigit(s[0]) then [s[0]] else []) + Digits(s[1..])
  }

  /** Every digit of `s` is kept, as often as it occurs, and nothing else. */
  lemma {:induction false} DigitsCounts(s: string, c: char)
    ensures multiset(Digits(s))[c] == if IsDigit(c) then multiset(s)[c] else 0
  {
    if s != [] {
      DigitsCounts(s[1..], c);
      assert s == [s[0]] + s[1..];
    }
  }

  lemma {:induction false} DigitsConcat(a: string, b: string)
    ensures Digits(a + b) == Digits(a) + Digits(b)
  {
    if a == [] {
      assert a + b == b;
    } else {
      assert (a + b)[0] == a[0];
      assert (a + b)[1..] == a[1..] + b;
      DigitsConcat(a[1..], b);
    }
  }

  /** Stripping non-digits from a string of digits changes nothing. */
  lemma {:induction false} DigitsOfDigitString(s: string)
    requires AllDigits(s)
    ensures Digits(s) == s
  {
    if s != [] {
      DigitsOfDigitString(s[1..]);
    }
  }

  lemma DigitsIdempotent(s: string)
    ensures Digits(Digits(s)) == Digits(s)
  {
    DigitsOfDigitString(Digits(s));
  }

  /** The characters `String.prototype.trim` removes: the ECMAScript
      WhiteSpace and LineTerminator code points. */
  function IsJsSpace(c: char): (r: bool)
    ensures c as int < 0x80 ==> (r <==> c in {'\t', '\n', '\U{000B}', '\U{000C}', '\r', ' '})
    ensures c in {'\n', '\r', '\U{2028}', '\U{2029}'} ==> r
    ensures r ==> !IsDigit(c) && c != ','
  {
    c == '\t' || c == '\n' || c == '\U{000B}' || c == '\U{000C}' || c == '\r'
    || c == ' ' || c == '\U{00A0}' || c == '\U{1680}'
    || ('\U{2000}' <= c <= '\U{200A}')
    || c == '\U{2028}' || c == '\U{2029}' || c == '\U{202F}' || c == '\U{205F}'
    || c == '\U{3000}' || c == '\U{FEFF}'
  }

  predicate AllSpace(s: string) {
    forall i :: 0 <= i < |s| ==> IsJsSpace(s[i])
  }

  function TrimStart(s: string): (r: string)
    ensures |r| <= |s| && r == s[|s| - |r|..]
    ensures AllSpace(s[..|s| - |r|])
    ensures r == [] || !IsJsSpace(r[0])
  {
    if s != [] && IsJsSpace(s[0]) then TrimStart(s[1..]) else s
  }

  function TrimEnd(s: string): (r: string)
    ensures |r| <= |s| && r == s[..|r|]
    ensures AllSpace(s[|r|..])
    ensures r == [] || !IsJsSpace(r[|r| - 1])
  {
    if s != [] && IsJsSpace(s[|s| - 1]) then TrimEnd(s[..|s| - 1]) else s
  }

  /** `s.trim()`: the slice `s[i..i + |r|]` left after removing the
      leading white space (`i` characters) and the trailing white space;
      what remains starts and ends with a non-space. */
  function Trim(s: string): (r: string)
    ensures var i := |s| - |TrimStart(s)|;
            && i + |r| <= |s| && r == s[i..i + |r|]
            && AllSpace(s[..i]) && AllSpace(s[i + |r|..])
    ensures r == [] || (!IsJsSpace(r[0]) && !IsJsSpace(r[|r| - 1]))
  {
    var t := TrimStart(s);
    var r := TrimEnd(t);
    TrimSlices(s, t, r);
    r
  }

  lemma TrimSlices(s: string, t: string, r: string)
    requires |t| <= |s| && t == s[|s| - |t|..]
    requires |r| <= |t| && r == t[..|r|]
    ensures var i := |s| - |t|;
            r == s[i..i + |r|] && s[i + |r|..] == t[|r|..]
  {
  }

  /** Only an all-blank string trims to the empty string, which is what
      `if (!address.trim())` tests. */
  lemma TrimEmptyIffBlank(s: string)
    ensures Trim(s) == "" <==> AllSpace(s)
  {
    var i := |s| - |TrimStart(s)|;
    if Trim(s) == "" {
      forall k | 0 <= k < |s| ensures IsJsSpace(s[k]) {
        if k < i { assert s[..i][k] == s[k]; } else { assert s[i..][k - i] == s[k]; }
      }
    } else {
      assert s[i] == Trim(s)[0];
    }
  }

  lemma TrimIdempotent(s: string)
    ensures Trim(Trim(s)) == Trim(s)
  {
    var r := Trim(s);
    if r != [] {
      assert TrimStart(r) == r;
      assert TrimEnd(r) == r;
    }
  }

  /** `toLowerCase()` restricted to the ASCII letters. */
  function LowerChar(c: char): (r: char)
    ensures 'A' <= c <= 'Z' ==> 'a' <= r <= 'z' && r as int == c as int - 'A' as int + 'a' as int
    ensures !('A' <= c <= 'Z') ==> r == c
  {
    if 'A' <= c <= 'Z' then (c as int - 'A' as int + 'a' as int) as char else c
  }

  function Lower(s: string): (r: string)
    ensures |r| == |s| && forall i :: 0 <= i < |s| ==> r[i] == LowerChar(s[i])
  {
    seq(|s|, i requires 0 <= i < |s| => LowerChar(s[i]))
  }

  /** `s.trim().toLowerCase()`, the form in which bus lines are compared. */
  function Normalize(s: string): (r: string)
    ensures |r| <= |s|
    ensures r == [] <==> AllSpace(s)
    ensures forall i :: 0 <= i < |r| ==> !('A' <= r[i] <= 'Z')
  {
    TrimEmptyIffBlank(s);
    Lower(Trim(s))
  }

  /** The number of commas in `s`. */
  function CommaCount(s: string): nat {
    if s == [] then 0 else (if s[0] == ',' then 1 else 0) + CommaCount(s[1..])
  }

  lemma {:induction false} CommaCountConcat(a: string, b: string)
    ensures CommaCount(a + b) == CommaCount(a) + CommaCount(b)
  {
    if a == [] {
      assert a + b == b;
    } else {
      assert (a + b)[0] == a[0];
      assert (a + b)[1..] == a[1..] + b;
      CommaCountConcat(a[1..], b);
    }
  }

  /** Trimming only removes white space, so it adds no comma. */
  lemma TrimCommaCount(s: string)
    ensures CommaCount(Trim(s)) <= CommaCount(s)
  {
    var i := |s| - |TrimStart(s)|;
    CommaCountSlice(s, i, i + |Trim(s)|);
  }

  /** A slice holds no more commas than the whole string. */
  lemma CommaCountSlice(s: string, i: nat, j: nat)
    requires i <= j <= |s|
    ensures CommaCount(s[i..j]) <= CommaCount(s)
  {
    var a, m, b := s[..i], s[i..j], s[j..];
    assert s == a + m + b;
    CommaCountConcat(a + m, b);
    CommaCountConcat(a, m);
  }

  /** `s.split(',')`: never empty, and no piece holds a comma. */
  function Split(s: string): (pieces: seq<string>)
    ensures |pieces| == CommaCount(s) + 1
    ensures forall k :: 0 <= k < |pieces| ==> CommaCount(pieces[k]) == 0
  {
    if s == [] then [[]]
    else
      var rest := Split(s[1..]);
      if s[0] == ',' then [[]] + rest
      else
        assert CommaCount([s[0]] + rest[0]) == 0 by {
          CommaCountConcat([s[0]], rest[0]);
        }
        [[s[0]] + rest[0]] + rest[1..]
  }

  /** `pieces.join(',')`. */
  function Join(pieces: seq<string>): string {
    if pieces == [] then []
    else if |pieces| == 1 then pieces[0]
    else pieces[0] + [','] + Join(pieces[1..])
  }

  /** Joining puts one comma between neighbours: pieces without commas
      give a string with one comma fewer than pieces. */
  lemma {:induction false} JoinCommaCount(pieces: seq<string>)
    requires pieces != [] && forall k :: 0 <= k < |pieces| ==> CommaCount(pieces[k]) == 0
    ensures CommaCount(Join(pieces)) + 1 == |pieces|
  {
    if |pieces| > 1 {
      var rest := pieces[1..];
      assert forall k :: 0 <= k < |rest| ==> CommaCount(rest[k]) == 0 by {
        forall k | 0 <= k < |rest| ensures CommaCount(rest[k]) == 0 {
          assert rest[k] == pieces[k + 1];
        }
      }
      JoinCommaCount(rest);
      CommaCountConcat(pieces[0] + [','], Join(rest));
      CommaCountConcat(pieces[0], [',']);
    }
  }

  /** Joining the pieces of a split gives back the string. */
  lemma {:induction false} JoinSplit(s: string)
    ensures Join(Split(s)) == s
  {
    if s != [] {
      var rest := Split(s[1..]);
      JoinSplit(s[1..]);
      if s[0] == ',' {
        assert Split(s) == [[]] + rest;
        JoinCons([], rest);
      } else {
        assert Split(s) == [[s[0]] + rest[0]] + rest[1..];
        JoinGrowFirst(s[0], rest);
      }
      assert s == [s[0]] + s[1..];
    }
  }

  lemma JoinCons(p: string, ps: seq<string>)
    requires ps != []
    ensures Join([p] + ps) == p + [','] + Join(ps)
  {
    assert ([p] + ps)[1..] == ps;
  }

  /** Putting a character in front of the first piece puts it in front of
      the joined string. */
  lemma JoinGrowFirst(c: char, ps: seq<string>)
    requires ps != []
    ensures Join([[c] + ps[0]] + ps[1..]) == [c] + Join(ps)
  {
    var first := [c] + ps[0];
    var tail := ps[1..];
    assert ps == [ps[0]] + tail;
    if tail == [] {
      JoinSingle(first);
      JoinSingle(ps[0]);
      assert [first] + tail == [first];
    } else {
      JoinCons(first, tail);
      JoinCons(ps[0], tail);
    }
  }

  lemma JoinSingle(p: string)
    ensures Join([p]) == p
  {
  }

  /** `s.split(',').slice(0, 2).join(',')`: the prefix of `s` that stops
      just before its second comma, or all of `s` when it has at most one. */
  function FirstTwoPieces(s: string): (r: string)
    ensures |r| <= |s| && r == s[..|r|]
    ensures CommaCount(s) <= 1 ==> r == s
    ensures CommaCount(s) > 1 ==> CommaCount(r) == 1 && |r| < |s| && s[|r|] == ','
  {
    var pieces := Split(s);
    FirstTwoOfSplit(s);
    Join(pieces[..if |pieces| < 2 then |pieces| else 2])
  }

  /** The first two pieces of a split, rejoined, end before the second
      comma. */
  lemma FirstTwoOfSplit(s: string)
    ensures var ps := Split(s); var r := Join(ps[..if |ps| < 2 then |ps| else 2]);
            && |r| <= |s| && r == s[..|r|]
            && (if CommaCount(s) <= 1 then r == s
                else CommaCount(r) == 1 && |r| < |s| && s[|r|] == ',')
  {
    var ps := Split(s);
    JoinSplit(s);
    if |ps| <= 2 {
      assert ps[..|ps|] == ps;
    } else {
      var r := Join(ps[..2]);
      assert ps[..2] == [ps[0], ps[1]];
      assert Join([ps[1]]) == ps[1];
      assert r == ps[0] + [','] + ps[1];
      assert Join(ps) == ps[0] + [','] + Join(ps[1..]);
      assert Join(ps[1..]) == ps[1] + [','] + Join(ps[2..]);
      assert s == r + [','] + Join(ps[2..]);
      CommaCountConcat(ps[0], [',']);
      CommaCountConcat(ps[0] + [','], ps[1]);
      assert s[..|r|] == r;
    }
  }
}
