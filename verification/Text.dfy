/** The part of Go's string library that the backend leans on: trimming, ASCII case mapping,
    decimal printing and parsing, byte-order comparison and sorting. */
module Text {

  datatype Option<+T> = None | Some(value: T)

  /** unicode.IsSpace */
  predicate IsSpace(c: char) {
    || '\t' <= c <= '\r' || c == ' ' || c == '\U{0085}' || c == '\U{00A0}' || c == '\U{1680}'
    || '\U{2000}' <= c <= '\U{200A}' || c == '\U{2028}' || c == '\U{2029}' || c == '\U{202F}'
    || c == '\U{205F}' || c == '\U{3000}'
  }

  function TrimLeft(s: string): string {
    if s != "" && IsSpace(s[0]) then TrimLeft(s[1..]) else s
  }

  function TrimRight(s: string): string {
    if s != "" && IsSpace(s[|s| - 1]) then TrimRight(s[..|s| - 1]) else s
  }

  /** strings.TrimSpace */
  function TrimSpace(s: string): string {
    TrimRight(TrimLeft(s))
  }

  /** No white space at either end. */
  predicate Trimmed(s: string) {
    s == "" || (!IsSpace(s[0]) && !IsSpace(s[|s| - 1]))
  }

  lemma {:induction false} TrimRightKeepsHead(s: string)
    requires s == "" || !IsSpace(s[0])
    ensures Trimmed(TrimRight(s)) && TrimRight(s) <= s
  {
    if s != "" && IsSpace(s[|s| - 1]) {
      TrimRightKeepsHead(s[..|s| - 1]);
    }
  }

  lemma {:induction false} TrimLeftHead(s: string)
    ensures TrimLeft(s) == "" || !IsSpace(TrimLeft(s)[0])
  {
    if s != "" && IsSpace(s[0]) {
      TrimLeftHead(s[1..]);
    }
  }

  /** Trimming leaves no white space at the ends, and leaves a trimmed text as it is. */
  lemma TrimSpaceTrims(s: string)
    ensures Trimmed(TrimSpace(s))
    ensures Trimmed(s) ==> TrimSpace(s) == s
    ensures TrimSpace(TrimSpace(s)) == TrimSpace(s)
  {
    TrimLeftHead(s);
    TrimRightKeepsHead(TrimLeft(s));
  }

  /** ... and removes nothing but white space. */
  lemma TrimSpaceCuts(s: string)
    ensures exists i: nat, j: nat ::
      && i <= j <= |s| && TrimSpace(s) == s[i..j]
      && forall k :: 0 <= k < i || j <= k < |s| ==> IsSpace(s[k])
  {
    var i := TrimLeftCuts(s);
    var j := TrimRightCuts(TrimLeft(s));
    assert TrimSpace(s) == s[i..i + j];
    forall k | 0 <= k < i || i + j <= k < |s| ensures IsSpace(s[k]) {
      if i + j <= k {
        assert s[k] == TrimLeft(s)[k - i];
      }
    }
  }

  lemma {:induction false} TrimLeftCuts(s: string) returns (i: nat)
    ensures i <= |s| && TrimLeft(s) == s[i..] && forall k :: 0 <= k < i ==> IsSpace(s[k])
  {
    i := 0;
    if s != "" && IsSpace(s[0]) {
      var rest := TrimLeftCuts(s[1..]);
      i := rest + 1;
      assert forall k :: 1 <= k < i ==> s[k] == s[1..][k - 1];
    }
  }

  lemma {:induction false} TrimRightCuts(s: string) returns (j: nat)
    ensures j <= |s| && TrimRight(s) == s[..j] && forall k :: j <= k < |s| ==> IsSpace(s[k])
  {
    j := |s|;
    if s != "" && IsSpace(s[|s| - 1]) {
      j := TrimRightCuts(s[..|s| - 1]);
      assert forall k :: j <= k < |s| - 1 ==> s[k] == s[..|s| - 1][k];
    }
  }

  /** White space among the ASCII characters. */
  lemma AsciiSpace(c: char)
    requires c as int < 0x80
    ensures IsSpace(c) <==> c in {' ', '\t', '\n', '\r', '\U{000B}', '\U{000C}'}
  {
  }

  function UpperChar(c: char): char {
    if 'a' <= c <= 'z' then (c as int - 32) as char else c
  }

  function LowerChar(c: char): char {
    if 'A' <= c <= 'Z' then (c as int + 32) as char else c
  }

  function ToUpper(s: string): (r: string)
    ensures |r| == |s| && forall i :: 0 <= i < |s| ==> r[i] == UpperChar(s[i])
  {
    seq(|s|, i requires 0 <= i < |s| => UpperChar(s[i]))
  }

  function ToLower(s: string): (r: string)
    ensures |r| == |s| && forall i :: 0 <= i < |s| ==> r[i] == LowerChar(s[i])
  {
    seq(|s|, i requires 0 <= i < |s| => LowerChar(s[i]))
  }

  /** The letters map to each other, every other character to itself. */
  lemma CaseMaps()
    ensures forall c :: 'a' <= c <= 'z' ==>
      UpperChar(c) as int - 'A' as int == c as int - 'a' as int && LowerChar(UpperChar(c)) == c
    ensures forall c :: !('a' <= c <= 'z') ==> UpperChar(c) == c
    ensures forall c :: !('A' <= c <= 'Z') ==> LowerChar(c) == c
  {
  }

  predicate IsDigit(c: char) {
    '0' <= c <= '9'
  }

  /** strconv.Itoa on a natural number */
  function Digits(n: nat): (s: string)
    ensures s != "" && forall i :: 0 <= i < |s| ==> IsDigit(s[i])
  {
    if n < 10 then [('0' as int + n) as char] else Digits(n / 10) + [('0' as int + n % 10) as char]
  }

  /** strconv.Itoa */
  function Itoa(n: int): string {
    if n < 0 then "-" + Digits(-n) else Digits(n)
  }

  function ParseDigits(s: string): (r: Option<int>)
    ensures r.Some? ==> r.value >= 0
  {
    if s == "" || !IsDigit(s[|s| - 1]) then None
    else
      var last := s[|s| - 1] as int - '0' as int;
      if |s| == 1 then Some(last)
      else match ParseDigits(s[..|s| - 1])
        case None => None
        case Some(n) => Some(10 * n + last)
  }

  const MAX_INT: int := 0x7fff_ffff_ffff_ffff

  /** strconv.Atoi on a 64-bit platform: an optional sign, then digits; an error when out of range. */
  function Atoi(s: string): Option<int> {
    var negative := s != "" && s[0] == '-';
    var digits := if s != "" && (s[0] == '-' || s[0] == '+') then s[1..] else s;
    match ParseDigits(digits)
    case None => None
    case Some(n) =>
      if negative then (if n <= MAX_INT + 1 then Some(-(n as int)) else None)
      else if n <= MAX_INT then Some(n) else None
  }

  /** A digit appended is worth its place. */
  lemma ParseMore(s: string, c: char)
    requires IsDigit(c)
    ensures ParseDigits([c]) == Some(c as int - '0' as int)
    ensures ParseDigits(s).Some? ==> ParseDigits(s + [c]) == Some(10 * ParseDigits(s).value + (c as int - '0' as int))
  {
    assert (s + [c])[..|s|] == s;
  }

  lemma {:induction false} ParsePrinted(n: nat)
    ensures ParseDigits(Digits(n)) == Some(n)
  {
    if n >= 10 {
      ParsePrinted(n / 10);
      assert Digits(n)[..|Digits(n)| - 1] == Digits(n / 10);
    }
  }

  /** Reading back a printed number gives the number, if it fits 64 bits. */
  lemma AtoiOfItoa(n: int)
    ensures Atoi(Itoa(n)) == if -0x8000_0000_0000_0000 <= n <= 0x7fff_ffff_ffff_ffff then Some(n) else None
  {
    ParsePrinted(if n < 0 then -n else n);
    if n < 0 {
      assert Itoa(n)[1..] == Digits(-n);
    }
  }

  /** Byte-wise order of two strings. UTF-8 keeps the order of code points. */
  predicate LexLeq(a: string, b: string) {
    a == "" || (b != "" && (a[0] < b[0] || (a[0] == b[0] && LexLeq(a[1..], b[1..]))))
  }

  /** A prefix comes first; otherwise the first character that differs decides. */
  lemma {:induction false} LexLeqMeans(a: string, b: string)
    ensures LexLeq(a, b) <==> a <= b || exists k :: 0 <= k < |a| && k < |b| && a[..k] == b[..k] && a[k] < b[k]
  {
    if a != "" && b != "" && a[0] == b[0] {
      var c, d := a[1..], b[1..];
      LexLeqMeans(c, d);
      assert a == [a[0]] + c && b == [b[0]] + d;
      if k :| 0 <= k < |c| && k < |d| && c[..k] == d[..k] && c[k] < d[k] {
        assert a[..k + 1] == [a[0]] + c[..k] && b[..k + 1] == [b[0]] + d[..k];
        assert a[k + 1] < b[k + 1];
      }
      if k :| 0 <= k < |a| && k < |b| && a[..k] == b[..k] && a[k] < b[k] {
        assert c[..k - 1] == a[..k][1..] && d[..k - 1] == b[..k][1..];
        assert c[k - 1] < d[k - 1];
      }
    } else if a != "" && b != "" {
      assert a[..0] == b[..0];
      if k :| 0 <= k < |a| && k < |b| && a[..k] == b[..k] && a[k] < b[k] {
        assert k > 0 ==> a[..k][0] == b[..k][0];
      }
    }
  }

  lemma {:induction false} LexTotal(a: string, b: string)
    ensures LexLeq(a, b) || LexLeq(b, a)
  {
    if a != "" && b != "" && a[0] == b[0] {
      LexTotal(a[1..], b[1..]);
    }
  }

  lemma {:induction false} LexAntisymmetric(a: string, b: string)
    requires LexLeq(a, b) && LexLeq(b, a)
    ensures a == b
  {
    if a != "" {
      LexAntisymmetric(a[1..], b[1..]);
      assert a == [a[0]] + a[1..] == [b[0]] + b[1..] == b;
    }
  }

  lemma {:induction false} LexTransitive(a: string, b: string, c: string)
    requires LexLeq(a, b) && LexLeq(b, c)
    ensures LexLeq(a, c)
  {
    if a != "" && a[0] == b[0] == c[0] {
      LexTransitive(a[1..], b[1..], c[1..]);
    }
  }

  predicate Sorted(s: seq<string>) {
    forall i, j :: 0 <= i < j < |s| ==> LexLeq(s[i], s[j])
  }

  function Insert(x: string, s: seq<string>): seq<string> {
    if s == [] || LexLeq(x, s[0]) then [x] + s else [s[0]] + Insert(x, s[1..])
  }

  lemma {:induction false} InsertKeepsElements(x: string, s: seq<string>)
    ensures multiset(Insert(x, s)) == multiset(s) + multiset{x}
  {
    if s != [] && !LexLeq(x, s[0]) {
      InsertKeepsElements(x, s[1..]);
      assert s == [s[0]] + s[1..];
    }
  }

  lemma {:induction false} InsertKeepsSorted(x: string, s: seq<string>)
    requires Sorted(s)
    ensures Sorted(Insert(x, s))
  {
    if s == [] {
    } else if LexLeq(x, s[0]) {
      forall j | 0 <= j < |s| ensures LexLeq(x, s[j]) {
        if j > 0 {
          LexTransitive(x, s[0], s[j]);
        }
      }
    } else {
      var rest := Insert(x, s[1..]);
      InsertKeepsSorted(x, s[1..]);
      InsertKeepsElements(x, s[1..]);
      LexTotal(x, s[0]);
      forall j | 0 <= j < |rest| ensures LexLeq(s[0], rest[j]) {
        assert rest[j] in multiset(rest);
        assert rest[j] == x || rest[j] in s[1..];
      }
    }
  }

  /** sort.Strings */
  function SortStrings(s: seq<string>): (r: seq<string>)
    ensures Sorted(r) && multiset(r) == multiset(s)
  {
    if s == [] then []
    else
      var rest := SortStrings(s[1..]);
      InsertKeepsSorted(s[0], rest);
      InsertKeepsElements(s[0], rest);
      assert s == [s[0]] + s[1..];
      Insert(s[0], rest)
  }

  lemma SortKeepsMembers(s: seq<string>)
    ensures forall x :: x in SortStrings(s) <==> x in s
  {
    assert forall x :: x in s <==> x in multiset(s);
    assert forall x :: x in SortStrings(s) <==> x in multiset(SortStrings(s));
  }

  /** The first of a sorted sequence comes before any of its elements. */
  lemma SortedHead(s: seq<string>, x: string)
    requires Sorted(s) && x in multiset(s)
    ensures s != [] && LexLeq(s[0], x)
  {
    var i :| 0 <= i < |s| && s[i] == x;
    if i == 0 {
      LexReflexive(x);
    }
  }

  lemma BagOfTail<T>(s: seq<T>)
    requires s != []
    ensures multiset(s[1..]) == multiset(s) - multiset{s[0]}
  {
    assert s == [s[0]] + s[1..];
  }

  lemma BagMember<T>(s: seq<T>, t: seq<T>)
    requires s != [] && multiset(s) == multiset(t)
    ensures s[0] in multiset(t)
  {
    assert s[0] in multiset(s);
  }

  /** A sorted sequence is determined by its elements. */
  lemma {:induction false} SortedUnique(a: seq<string>, b: seq<string>)
    requires Sorted(a) && Sorted(b) && multiset(a) == multiset(b)
    ensures a == b
  {
    if a == [] || b == [] {
      assert |multiset(a)| == |a| && |multiset(b)| == |b|;
    } else {
      BagMember(a, b);
      BagMember(b, a);
      SortedHead(a, b[0]);
      SortedHead(b, a[0]);
      LexAntisymmetric(a[0], b[0]);
      BagOfTail(a);
      BagOfTail(b);
      SortedUnique(a[1..], b[1..]);
      assert a == [a[0]] + a[1..] && b == [b[0]] + b[1..];
    }
  }

  lemma {:induction false} LexReflexive(a: string)
    ensures LexLeq(a, a)
  {
    if a != "" {
      LexReflexive(a[1..]);
    }
  }

  /** strings.Join */
  function Join(parts: seq<string>, separator: string): string {
    if parts == [] then ""
    else if |parts| == 1 then parts[0]
    else parts[0] + separator + Join(parts[1..], separator)
  }

  /** The separator stands between any two parts and nowhere else. */
  lemma {:induction false} JoinMore(parts: seq<string>, part: string, separator: string)
    ensures Join(parts + [part], separator) == if parts == [] then part else Join(parts, separator) + separator + part
  {
    if |parts| > 1 {
      JoinMore(parts[1..], part, separator);
      assert (parts + [part])[1..] == parts[1..] + [part];
    }
  }

  function Elements(s: seq<string>): set<string> {
    set x | x in s
  }
}
