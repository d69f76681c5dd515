/** String helpers used by the renderer: joining with a separator, dropping
    empty clauses, splitting on a character and decimal formatting. */
module Text {

  /** `strings.Join`: the parts with `sep` between consecutive ones. */
  function Join(parts: seq<string>, sep: string): string
  {
    if |parts| == 0 then ""
    else if |parts| == 1 then parts[0]
    else parts[0] + sep + Join(parts[1..], sep)
  }

  /** A join begins with its first part. */
  lemma JoinStartsWithFirst(parts: seq<string>, sep: string)
    requires |parts| > 0
    ensures parts[0] <= Join(parts, sep)
  {
  }

  /** Joining a concatenation is joining each half and putting one
      separator between them. */
  lemma {:induction false} JoinAppend(a: seq<string>, b: seq<string>, sep: string)
    requires |a| > 0 && |b| > 0
    ensures Join(a + b, sep) == Join(a, sep) + sep + Join(b, sep)
  {
    if |a| == 1 {
      assert (a + b)[1..] == b;
    } else {
      assert (a + b)[1..] == a[1..] + b;
      JoinAppend(a[1..], b, sep);
    }
  }

  /** Joining one more part onto a prefix adds a separator and that part. */
  lemma JoinSnoc(t: seq<string>, k: nat, sep: string)
    requires 0 < k < |t|
    ensures Join(t[..k + 1], sep) == Join(t[..k], sep) + sep + t[k]
  {
    assert t[..k] + [t[k]] == t[..k + 1];
    JoinAppend(t[..k], [t[k]], sep);
  }

  /** Nine parts joined, written out. */
  lemma JoinNine(t: seq<string>, sep: string)
    requires |t| == 9
    ensures Join(t, sep) == t[0] + sep + t[1] + sep + t[2] + sep + t[3] + sep + t[4] + sep + t[5] + sep
                            + t[6] + sep + t[7] + sep + t[8]
  {
    assert Join(t[..1], sep) == t[0];
    JoinSnoc(t, 1, sep);
    JoinSnoc(t, 2, sep);
    JoinSnoc(t, 3, sep);
    JoinSnoc(t, 4, sep);
    JoinSnoc(t, 5, sep);
    JoinSnoc(t, 6, sep);
    JoinSnoc(t, 7, sep);
    JoinSnoc(t, 8, sep);
    assert t[..9] == t;
  }

  /** Nine non-empty parts: none is dropped, and they are joined in order. */
  lemma JoinNineNonEmpty(a0: string, a1: string, a2: string, a3: string, a4: string,
                         a5: string, a6: string, a7: string, a8: string, sep: string)
    requires a0 != "" && a1 != "" && a2 != "" && a3 != "" && a4 != ""
    requires a5 != "" && a6 != "" && a7 != "" && a8 != ""
    ensures Join(NonEmpty([a0, a1, a2, a3, a4, a5, a6, a7, a8]), sep)
            == a0 + sep + a1 + sep + a2 + sep + a3 + sep + a4 + sep + a5 + sep + a6 + sep + a7 + sep + a8
  {
    var t := [a0, a1, a2, a3, a4, a5, a6, a7, a8];
    assert NonEmpty(t) == t;
    JoinNine(t, sep);
  }

  /** Nine parts of which only the first two may have text: the others are
      dropped, and so is an empty second part. */
  lemma JoinLeadingPair(a0: string, a1: string, a2: string, a3: string, a4: string,
                        a5: string, a6: string, a7: string, a8: string, sep: string)
    requires a0 != ""
    requires a2 == "" && a3 == "" && a4 == "" && a5 == "" && a6 == "" && a7 == "" && a8 == ""
    ensures Join(NonEmpty([a0, a1, a2, a3, a4, a5, a6, a7, a8]), sep)
            == if a1 == "" then a0 else a0 + sep + a1
  {
    var t := [a0, a1, a2, a3, a4, a5, a6, a7, a8];
    assert t[1..][1..] == [a2, a3, a4, a5, a6, a7, a8];
    assert NonEmpty(t[1..][1..]) == [];
    if a1 == "" {
      assert NonEmpty(t) == [a0];
    } else {
      assert NonEmpty(t) == [a0, a1];
      Join2(a0, a1, sep);
    }
  }

  lemma Join2(a: string, b: string, sep: string)
    ensures Join([a, b], sep) == a + sep + b
  {
    assert [a, b][1..] == [b];
  }

  lemma Join3(a: string, b: string, c: string, sep: string)
    ensures Join([a, b, c], sep) == a + sep + b + sep + c
  {
    assert [a, b, c][1..] == [b, c];
    Join2(b, c, sep);
  }

  /** The parts that are not empty, in their original order. */
  function NonEmpty(parts: seq<string>): (r: seq<string>)
    ensures |r| <= |parts|
    ensures forall s :: s in r <==> s in parts && s != ""
    ensures (forall i :: 0 <= i < |parts| ==> parts[i] == "") ==> r == []
    ensures (forall i :: 0 <= i < |parts| ==> parts[i] != "") ==> r == parts
  {
    if parts == [] then []
    else (if parts[0] == "" then [] else [parts[0]]) + NonEmpty(parts[1..])
  }

  /** Index of the first occurrence of `c` in `s`. */
  function IndexOf(s: string, c: char): (k: nat)
    requires c in s
    ensures k < |s| && s[k] == c && c !in s[..k]
  {
    if s[0] == c then 0
    else
      assert c in s[1..];
      1 + IndexOf(s[1..], c)
  }

  /** The pieces of `s` between occurrences of `c`; joining them with `c`
      gives `s` back. */
  function Split(s: string, c: char): (r: seq<string>)
    ensures |r| >= 1
    ensures forall i :: 0 <= i < |r| ==> c !in r[i]
    ensures Join(r, [c]) == s
    decreases |s|
  {
    if c !in s then [s]
    else
      var k := IndexOf(s, c);
      var rest := Split(s[k + 1..], c);
      assert ([s[..k]] + rest)[1..] == rest;
      assert s == s[..k] + [c] + s[k + 1..];
      [s[..k]] + rest
  }

  /** Splitting undoes joining when no part contains the separator. */
  lemma {:induction false} SplitJoin(parts: seq<string>, c: char)
    requires |parts| >= 1
    requires forall i :: 0 <= i < |parts| ==> c !in parts[i]
    ensures Split(Join(parts, [c]), c) == parts
  {
    if |parts| > 1 {
      var rest := parts[1..];
      FirstSeparator(parts, c);
      SplitJoin(rest, c);
      assert parts == [parts[0]] + rest;
    }
  }

  /** In a join of several parts, the first separator ends the first part. */
  lemma FirstSeparator(parts: seq<string>, c: char)
    requires |parts| > 1 && c !in parts[0]
    ensures c in Join(parts, [c])
    ensures IndexOf(Join(parts, [c]), c) == |parts[0]|
    ensures Join(parts, [c])[..|parts[0]|] == parts[0]
    ensures Join(parts, [c])[|parts[0]| + 1..] == Join(parts[1..], [c])
  {
    var s := Join(parts, [c]);
    assert s == parts[0] + [c] + Join(parts[1..], [c]);
    assert s[|parts[0]|] == c;
    var k := IndexOf(s, c);
    assert k == |parts[0]|;
  }

  predicate IsDigits(s: string)
  {
    forall i :: 0 <= i < |s| ==> '0' <= s[i] <= '9'
  }

  function Digit(d: nat): (c: char)
    requires d < 10
  {
    ('0' as int + d) as char
  }

  /** The number a string of decimal digits denotes. */
  function ParseDigits(s: string): nat
    requires IsDigits(s)
  {
    if s == [] then 0
    else 10 * ParseDigits(s[..|s| - 1]) + (s[|s| - 1] as int - '0' as int)
  }

  /** `fmt.Sprintf("%v", n)` for a non-negative integer: decimal digits,
      no leading zero, reading back as `n`. */
  function NatToString(n: nat): (r: string)
    ensures |r| >= 1 && IsDigits(r)
    ensures ParseDigits(r) == n
    ensures r[0] == '0' ==> n == 0
  {
    if n < 10 then [Digit(n)]
    else
      var prefix := NatToString(n / 10);
      assert (prefix + [Digit(n % 10)])[..|prefix|] == prefix;
      prefix + [Digit(n % 10)]
  }
}
