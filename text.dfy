/** The PHP string functions the library relies on, as pure functions over `seq<char>`:
    `implode`, `explode`, `str_replace` with one needle, `rtrim`/`trim`, `strtoupper`
    and the decimal text of an integer. */
module Text {

  // ---------------------------------------------------------------------------
  // implode / explode / str_replace

  /** PHP's `implode(sep, parts)`. */
  function Join(sep: string, parts: seq<string>): string
  {
    if |parts| == 0 then ""
    else if |parts| == 1 then parts[0]
    else parts[0] + sep + Join(sep, parts[1..])
  }

  /** PHP's `explode(d, s)` for a non-empty delimiter: the pieces between the
      non-overlapping occurrences of `d`, scanned left to right. */
  function Split(s: string, d: string): (r: seq<string>)
    requires |d| > 0
    ensures |r| >= 1
    decreases |s|
  {
    if |s| < |d| then [s]
    else if s[..|d|] == d then [""] + Split(s[|d|..], d)
    else
      var rest := Split(s[1..], d);
      [[s[0]] + rest[0]] + rest[1..]
  }

  /** PHP's `str_replace(d, r, s)` with a single non-empty needle: a left-to-right scan
      that replaces non-overlapping occurrences and never rescans what it inserted. */
  function ReplaceAll(s: string, d: string, r: string): string
    requires |d| > 0
    decreases |s|
  {
    if |s| < |d| then s
    else if s[..|d|] == d then r + ReplaceAll(s[|d|..], d, r)
    else [s[0]] + ReplaceAll(s[1..], d, r)
  }

  /** Whether `d` occurs anywhere in `s`. */
  predicate Contains(s: string, d: string)
    requires |d| > 0
    decreases |s|
  {
    |s| >= |d| && (s[..|d|] == d || Contains(s[1..], d))
  }

  lemma JoinCons(sep: string, x: string, rest: seq<string>)
    ensures Join(sep, [x] + rest) == if rest == [] then x else x + sep + Join(sep, rest)
  {
    assert ([x] + rest)[0] == x;
    assert ([x] + rest)[1..] == rest;
  }

  lemma {:induction false} JoinSnoc(sep: string, parts: seq<string>, x: string)
    requires |parts| > 0
    ensures Join(sep, parts + [x]) == Join(sep, parts) + sep + x
    decreases |parts|
  {
    if |parts| == 1 {
      JoinCons(sep, parts[0], [x]);
      assert parts + [x] == [parts[0]] + [x];
    } else {
      JoinSnoc(sep, parts[1..], x);
      assert parts + [x] == [parts[0]] + (parts[1..] + [x]);
      JoinCons(sep, parts[0], parts[1..] + [x]);
    }
  }

  /** str_replace agrees with its reference definition `implode(r, explode(d, s))`. */
  lemma {:induction false} ReplaceAllIsSplitJoin(s: string, d: string, r: string)
    requires |d| > 0
    ensures ReplaceAll(s, d, r) == Join(r, Split(s, d))
    decreases |s|
  {
    if |s| < |d| {
    } else if s[..|d|] == d {
      ReplaceAllIsSplitJoin(s[|d|..], d, r);
      JoinCons(r, "", Split(s[|d|..], d));
    } else {
      ReplaceAllIsSplitJoin(s[1..], d, r);
      SplitJoinStep(s, d, r);
    }
  }

  /** Where the text does not start with the delimiter, its first character heads the
      first piece. */
  lemma SplitJoinStep(s: string, d: string, r: string)
    requires |d| > 0 && |s| >= |d| && s[..|d|] != d
    ensures Join(r, Split(s, d)) == [s[0]] + Join(r, Split(s[1..], d))
  {
    var rest := Split(s[1..], d);
    assert Split(s, d) == [[s[0]] + rest[0]] + rest[1..];
    JoinHead(r, s[0], rest);
  }

  /** A character put in front of the first part comes out in front of the joined text. */
  lemma JoinHead(sep: string, c: char, parts: seq<string>)
    requires |parts| > 0
    ensures Join(sep, [[c] + parts[0]] + parts[1..]) == [c] + Join(sep, parts)
  {
    JoinCons(sep, [c] + parts[0], parts[1..]);
    JoinCons(sep, parts[0], parts[1..]);
    assert parts == [parts[0]] + parts[1..];
  }

  /** Replacing a needle by itself changes nothing. */
  lemma {:induction false} ReplaceAllSelf(s: string, d: string)
    requires |d| > 0
    ensures ReplaceAll(s, d, d) == s
    decreases |s|
  {
    if |s| < |d| {
    } else if s[..|d|] == d {
      ReplaceAllSelf(s[|d|..], d);
      assert s == s[..|d|] + s[|d|..];
    } else {
      ReplaceAllSelf(s[1..], d);
      assert s == [s[0]] + s[1..];
    }
  }

  /** explode followed by implode with the same delimiter gives back the text. */
  lemma SplitJoinRoundTrip(s: string, d: string)
    requires |d| > 0
    ensures Join(d, Split(s, d)) == s
  {
    ReplaceAllIsSplitJoin(s, d, d);
    ReplaceAllSelf(s, d);
  }

  /** Unless the needle occurs, the text is left as it is. */
  lemma ReplaceAllUnlessPresent(s: string, d: string, r: string)
    requires |d| > 0
    ensures !Contains(s, d) ==> ReplaceAll(s, d, r) == s
  {
    if !Contains(s, d) {
      ReplaceAllAbsent(s, d, r);
    }
  }

  /** A text without the needle is left as it is. */
  lemma {:induction false} ReplaceAllAbsent(s: string, d: string, r: string)
    requires |d| > 0 && !Contains(s, d)
    ensures ReplaceAll(s, d, r) == s
    decreases |s|
  {
    if |s| >= |d| {
      ReplaceAllAbsent(s[1..], d, r);
      assert s == [s[0]] + s[1..];
    }
  }

  /** A text whose last character does not occur in the needle is a barrier: no
      occurrence of the needle can straddle it, so the two sides are replaced apart. */
  lemma {:induction false} ReplaceAllConcat(a: string, b: string, d: string, r: string)
    requires |d| > 0 && |a| > 0
    requires forall i :: 0 <= i < |d| ==> d[i] != a[|a| - 1]
    ensures ReplaceAll(a + b, d, r) == ReplaceAll(a, d, r) + ReplaceAll(b, d, r)
    decreases |a|
  {
    var s := a + b;
    if |s| < |d| {
      ReplaceAllShort(a, d, r);
      ReplaceAllShort(b, d, r);
    } else if s[..|d|] == d {
      MatchBeforeBarrier(a, b, d);
      ReplaceAllConcat(a[|d|..], b, d, r);
      ConcatMatchStep(a, b, d, r);
    } else if |a| == 1 {
      assert s[1..] == b;
      ReplaceAllOneChar(a, d, r);
    } else {
      ReplaceAllConcat(a[1..], b, d, r);
      ConcatSkipStep(a, b, d, r);
    }
  }

  /** The step of `ReplaceAllConcat` where the needle starts both texts. */
  lemma ConcatMatchStep(a: string, b: string, d: string, r: string)
    requires |d| > 0 && |a| > |d| && a[..|d|] == d
    requires ReplaceAll(a[|d|..] + b, d, r) == ReplaceAll(a[|d|..], d, r) + ReplaceAll(b, d, r)
    ensures ReplaceAll(a + b, d, r) == ReplaceAll(a, d, r) + ReplaceAll(b, d, r)
  {
    var s := a + b;
    assert s[..|d|] == d;
    assert s[|d|..] == a[|d|..] + b;
  }

  /** The step of `ReplaceAllConcat` where the first character is kept. */
  lemma ConcatSkipStep(a: string, b: string, d: string, r: string)
    requires |d| > 0 && |a| > 1 && |a + b| >= |d| && (a + b)[..|d|] != d
    requires ReplaceAll(a[1..] + b, d, r) == ReplaceAll(a[1..], d, r) + ReplaceAll(b, d, r)
    ensures ReplaceAll(a + b, d, r) == ReplaceAll(a, d, r) + ReplaceAll(b, d, r)
  {
    if |d| <= |a| {
      PrefixOfConcat(a, b, |d|);
    }
    KeepFirst(a + b, d, r);
    TailOfConcat(a, b);
    KeepFirst(a, d, r);
    Regroup(a[0], ReplaceAll(a[1..], d, r), ReplaceAll(b, d, r), ReplaceAll(a + b, d, r), ReplaceAll(a, d, r));
  }

  lemma Assoc(x: string, y: string, z: string)
    ensures x + (y + z) == (x + y) + z
  {
  }

  lemma Regroup(c: char, x: string, y: string, whole: string, first: string)
    requires whole == [c] + (x + y) && first == [c] + x
    ensures whole == first + y
  {
  }

  lemma PrefixOfConcat(a: string, b: string, n: nat)
    requires n <= |a|
    ensures (a + b)[..n] == a[..n]
  {
  }

  lemma TailOfConcat(a: string, b: string)
    requires |a| > 0
    ensures (a + b)[0] == a[0] && (a + b)[1..] == a[1..] + b
  {
  }

  /** Text that does not start with the needle keeps its first character. */
  lemma KeepFirst(a: string, d: string, r: string)
    requires |d| > 0 && |a| > 0 && (|a| < |d| || a[..|d|] != d)
    ensures ReplaceAll(a, d, r) == [a[0]] + ReplaceAll(a[1..], d, r)
  {
    if |a| < |d| {
      ReplaceAllShort(a[1..], d, r);
      assert a == [a[0]] + a[1..];
    }
  }

  /** An occurrence of the needle at the front of `a + b` lies wholly inside `a` when the
      last character of `a` does not occur in the needle. */
  lemma MatchBeforeBarrier(a: string, b: string, d: string)
    requires |d| > 0 && |a| > 0
    requires forall i :: 0 <= i < |d| ==> d[i] != a[|a| - 1]
    requires |a + b| >= |d| && (a + b)[..|d|] == d
    ensures |a| > |d| && a[..|d|] == d
  {
    var s := a + b;
    assert forall i :: 0 <= i < |d| ==> s[i] == d[i];
    assert s[|a| - 1] == a[|a| - 1];
    if |a| <= |d| {
      assert false;
    }
    assert a[..|d|] == s[..|d|];
  }

  lemma ReplaceAllOneChar(a: string, d: string, r: string)
    requires |d| > 0 && |a| == 1 && a[0] !in d
    ensures ReplaceAll(a, d, r) == a
  {
    if |a| >= |d| {
      assert a[..|d|] == a;
      assert a[1..] == [];
    }
  }

  lemma ReplaceAllShort(s: string, d: string, r: string)
    requires |d| > 0 && |s| < |d|
    ensures ReplaceAll(s, d, r) == s
  {
  }

  // ---------------------------------------------------------------------------
  // Counting characters (the `?` placeholders of a statement)

  /** The number of occurrences of `c` in `s`. */
  function Count(s: string, c: char): nat
  {
    if s == [] then 0 else (if s[0] == c then 1 else 0) + Count(s[1..], c)
  }

  lemma {:induction false} CountConcat(a: string, b: string, c: char)
    ensures Count(a + b, c) == Count(a, c) + Count(b, c)
  {
    if a != [] {
      assert (a + b)[1..] == a[1..] + b;
      CountConcat(a[1..], b, c);
    } else {
      assert a + b == b;
    }
  }

  /** A text none of whose characters is `c` holds no `c`. */
  lemma {:induction false} CountNone(s: string, c: char)
    requires forall i :: 0 <= i < |s| ==> s[i] != c
    ensures Count(s, c) == 0
  {
    if s != [] {
      CountNone(s[1..], c);
    }
  }

  /** Joining parts that hold `k` occurrences each, with a separator that holds none. */
  lemma {:induction false} CountJoin(sep: string, parts: seq<string>, c: char, k: nat)
    requires Count(sep, c) == 0
    requires forall i :: 0 <= i < |parts| ==> Count(parts[i], c) == k
    ensures Count(Join(sep, parts), c) == k * |parts|
    decreases |parts|
  {
    if |parts| > 1 {
      var rest := Join(sep, parts[1..]);
      CountJoin(sep, parts[1..], c, k);
      assert Join(sep, parts) == parts[0] + sep + rest;
      CountConcat3(parts[0], sep, rest, c);
      MulSucc(k, |parts| - 1);
    }
  }

  lemma CountConcat3(x: string, y: string, z: string, c: char)
    ensures Count(x + y + z, c) == Count(x, c) + Count(y, c) + Count(z, c)
  {
    CountConcat(x + y, z, c);
    CountConcat(x, y, c);
  }

  lemma MulSucc(k: nat, n: nat)
    ensures k * (n + 1) == k + k * n
  {
  }

  /** str_replace keeps the count of a character that neither the needle nor its
      replacement contains. */
  lemma {:induction false} CountReplaceAll(s: string, d: string, r: string, c: char)
    requires |d| > 0 && Count(d, c) == 0 && Count(r, c) == 0
    ensures Count(ReplaceAll(s, d, r), c) == Count(s, c)
    decreases |s|
  {
    if |s| < |d| {
    } else if s[..|d|] == d {
      CountReplaceAll(s[|d|..], d, r, c);
      CountConcat(r, ReplaceAll(s[|d|..], d, r), c);
      assert s == s[..|d|] + s[|d|..];
      CountConcat(s[..|d|], s[|d|..], c);
    } else {
      CountReplaceAll(s[1..], d, r, c);
      CountConcat([s[0]], ReplaceAll(s[1..], d, r), c);
    }
  }

  // ---------------------------------------------------------------------------
  // rtrim / trim

  /** The characters PHP's `trim` strips when given no list: space, tab, line feed,
      carriage return, NUL and vertical tab. */
  const Blank: set<char> := {' ', '\t', '\n', '\r', '\0', '\U{000B}'}

  /** PHP's `ltrim(s, cs)`: strips the longest prefix made of characters in `cs`. */
  function LTrim(s: string, cs: set<char>): (r: string)
    ensures |r| <= |s| && r == s[|s| - |r|..]
    ensures forall i :: 0 <= i < |s| - |r| ==> s[i] in cs
    ensures |r| > 0 ==> r[0] !in cs
    decreases |s|
  {
    if |s| > 0 && s[0] in cs then LTrim(s[1..], cs) else s
  }

  /** PHP's `rtrim(s, cs)`: the second argument is a SET of characters, and the longest
      suffix made of them is stripped. */
  function RTrim(s: string, cs: set<char>): (r: string)
    ensures |r| <= |s| && r == s[..|r|]
    ensures forall i :: |r| <= i < |s| ==> s[i] in cs
    ensures |r| > 0 ==> r[|r| - 1] !in cs
    decreases |s|
  {
    if |s| > 0 && s[|s| - 1] in cs then RTrim(s[..|s| - 1], cs) else s
  }

  /** PHP's `trim(s)`: the result is the middle of `s`, neither end of it blank. */
  function Trim(s: string): (r: string)
    ensures |r| <= |s|
    ensures |r| > 0 ==> r[0] !in Blank && r[|r| - 1] !in Blank
  {
    RTrim(LTrim(s, Blank), Blank)
  }

  /** rtrim strips exactly a suffix of set characters that follows a non-set character. */
  lemma RTrimSuffix(p: string, t: string, cs: set<char>)
    requires |p| > 0 && p[|p| - 1] !in cs
    requires forall i :: 0 <= i < |t| ==> t[i] in cs
    ensures RTrim(p + t, cs) == p
  {
    assert forall i :: |p| <= i < |p| + |t| ==> (p + t)[i] == t[i - |p|];
    assert (p + t)[|p| - 1] == p[|p| - 1];
    assert (p + t)[..|p|] == p;
  }

  /** A text with no blank at either end is its own trim. */
  lemma TrimClean(s: string)
    requires |s| > 0 ==> s[0] !in Blank && s[|s| - 1] !in Blank
    ensures Trim(s) == s
  {
  }

  /** trim removes only blanks, so it keeps the count of any other character. */
  lemma TrimCount(s: string, c: char)
    requires c !in Blank
    ensures Count(Trim(s), c) == Count(s, c)
  {
    LTrimCount(s, Blank, c);
    RTrimCount(LTrim(s, Blank), Blank, c);
  }

  lemma LTrimCount(s: string, cs: set<char>, c: char)
    requires c !in cs
    ensures Count(LTrim(s, cs), c) == Count(s, c)
  {
    var l := LTrim(s, cs);
    var k := |s| - |l|;
    assert s == s[..k] + l;
    CountConcat(s[..k], l, c);
    CountNone(s[..k], c);
  }

  lemma RTrimCount(s: string, cs: set<char>, c: char)
    requires c !in cs
    ensures Count(RTrim(s, cs), c) == Count(s, c)
  {
    var r := RTrim(s, cs);
    assert s == r + s[|r|..];
    CountConcat(r, s[|r|..], c);
    CountNone(s[|r|..], c);
  }

  // ---------------------------------------------------------------------------
  // strtoupper

  predicate IsLower(c: char) { 'a' <= c <= 'z' }

  function UpperChar(c: char): char
  {
    if IsLower(c) then (c as int - 32) as char else c
  }

  /** PHP's `strtoupper`, which maps the ASCII letters only. */
  function Upper(s: string): (r: string)
    ensures |r| == |s|
    ensures forall i :: 0 <= i < |r| ==> !IsLower(r[i])
    ensures forall i :: 0 <= i < |s| && !IsLower(s[i]) ==> r[i] == s[i]
    ensures forall i :: 0 <= i < |s| && IsLower(s[i]) ==> r[i] as int == s[i] as int - 32
  {
    seq(|s|, i requires 0 <= i < |s| => UpperChar(s[i]))
  }

  // ---------------------------------------------------------------------------
  // Decimal text of an integer (PHP's int-to-string conversion)

  predicate IsDigit(c: char) { '0' <= c <= '9' }

  predicate AllDigits(s: string) { forall i :: 0 <= i < |s| ==> IsDigit(s[i]) }

  function DigitChar(d: int): (c: char)
    requires 0 <= d < 10
    ensures IsDigit(c) && c as int - '0' as int == d
  {
    (d + '0' as int) as char
  }

  /** The decimal digits of `n`, without leading zeros. */
  function NatToString(n: nat): (r: string)
    ensures |r| > 0 && AllDigits(r)
    ensures |r| > 1 ==> r[0] != '0'
  {
    if n < 10 then [DigitChar(n)] else NatToString(n / 10) + [DigitChar(n % 10)]
  }

  /** The text PHP gives an integer: its decimal digits, with a leading `-` when negative. */
  function IntToString(n: int): string
  {
    if n < 0 then "-" + NatToString(-n) else NatToString(n)
  }

  /** The value of a string of decimal digits. */
  function DigitsValue(s: string): nat
    requires AllDigits(s)
  {
    if s == [] then 0 else DigitsValue(s[..|s| - 1]) * 10 + (s[|s| - 1] as int - '0' as int)
  }

  /** An optionally signed, non-empty string of decimal digits. */
  predicate IsDecimal(s: string)
  {
    if |s| > 0 && s[0] == '-' then |s| > 1 && AllDigits(s[1..]) else |s| > 0 && AllDigits(s)
  }

  /** PHP's `(int)` of a decimal string. */
  function ParseInt(s: string): int
    requires IsDecimal(s)
  {
    if s[0] == '-' then -(DigitsValue(s[1..]) as int) else DigitsValue(s)
  }

  lemma {:induction false} NatToStringRoundTrip(n: nat)
    ensures DigitsValue(NatToString(n)) == n
  {
    if n >= 10 {
      NatToStringRoundTrip(n / 10);
      var s := NatToString(n / 10) + [DigitChar(n % 10)];
      assert s[..|s| - 1] == NatToString(n / 10);
    }
  }

  /** The decimal text of an integer reads back as that integer. */
  lemma IntToStringRoundTrip(n: int)
    ensures IsDecimal(IntToString(n)) && ParseInt(IntToString(n)) == n
  {
    if n < 0 {
      NatToStringRoundTrip(-n);
      assert IntToString(n)[1..] == NatToString(-n);
    } else {
      NatToStringRoundTrip(n);
    }
  }

  /** The decimal text of an integer holds no character other than `-` and digits. */
  lemma IntToStringChars(n: int)
    ensures forall i :: 0 <= i < |IntToString(n)| ==> IntToString(n)[i] == '-' || IsDigit(IntToString(n)[i])
  {
  }

  // ---------------------------------------------------------------------------
  // explode on a one-character delimiter recovers the parts that implode joined

  lemma {:induction false} SplitNoDelimiter(x: string, c: char)
    requires forall i :: 0 <= i < |x| ==> x[i] != c
    ensures Split(x, [c]) == [x]
  {
    if |x| >= 1 {
      SplitNoDelimiter(x[1..], c);
      assert [x[0]] + x[1..] == x;
    }
  }

  lemma {:induction false} SplitAtDelimiter(x: string, c: char, t: string)
    requires forall i :: 0 <= i < |x| ==> x[i] != c
    ensures Split(x + [c] + t, [c]) == [x] + Split(t, [c])
  {
    var s := x + [c] + t;
    if x == [] {
      assert s[..1] == [c];
      assert s[1..] == t;
    } else {
      assert s[..1] == [x[0]];
      assert s[1..] == x[1..] + [c] + t;
      SplitAtDelimiter(x[1..], c, t);
      assert [x[0]] + x[1..] == x;
    }
  }

  /** explode(c, implode(c, parts)) == parts when no part holds the delimiter. */
  lemma {:induction false} SplitJoinChar(parts: seq<string>, c: char)
    requires |parts| > 0
    requires forall k, i :: 0 <= k < |parts| && 0 <= i < |parts[k]| ==> parts[k][i] != c
    ensures Split(Join([c], parts), [c]) == parts
    decreases |parts|
  {
    if |parts| == 1 {
      SplitNoDelimiter(parts[0], c);
    } else {
      SplitJoinChar(parts[1..], c);
      SplitAtDelimiter(parts[0], c, Join([c], parts[1..]));
      assert [parts[0]] + parts[1..] == parts;
    }
  }
}
