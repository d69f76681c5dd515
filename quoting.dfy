/** Identifier quoting as the MySQL-style dialect of the tests does it: every
    dot-separated segment of a table or column name is wrapped in backticks,
    and an ORDER BY direction stays outside the quotes. */
module Quoting {
  import opened Values
  import opened Text

  /** One name segment in backticks, unless it already holds a backtick or is
      the `*` wildcard. */
  function QuoteSimple(name: string): (r: string)
  {
    if '`' in name || name == "*" then name else "`" + name + "`"
  }

  /** A table or column name with each dotted segment quoted; a plain
      identifier is wrapped in backticks as a whole. */
  function QuoteName(name: string): (r: string)
    ensures IsPlain(name) ==> r == "`" + name + "`"
  {
    var segs := Split(name, '.');
    Join(seq(|segs|, i requires 0 <= i < |segs| => QuoteSimple(segs[i])), ".")
  }

  /** Every name of a list, quoted. */
  function QuoteAll(names: seq<string>): (r: seq<string>)
    ensures |r| == |names|
    ensures forall i :: 0 <= i < |r| ==> r[i] == QuoteName(names[i])
  {
    if names == [] then [] else [QuoteName(names[0])] + QuoteAll(names[1..])
  }

  /** A plain identifier: no dot, no backtick, not the wildcard. */
  predicate IsPlain(name: string)
  {
    '.' !in name && '`' !in name && name != "*"
  }

  /** `table.column` is quoted segment by segment. */
  lemma QuoteDotted(table: string, column: string)
    requires IsPlain(table) && IsPlain(column)
    ensures QuoteName(table + "." + column) == "`" + table + "`.`" + column + "`"
  {
    var segs := [table, column];
    SplitJoin(segs, '.');
    assert Join(segs, ".") == table + "." + column;
    assert Split(table + "." + column, '.') == segs;
    var quoted := seq(|segs|, i requires 0 <= i < |segs| => QuoteSimple(segs[i]));
    assert quoted == ["`" + table + "`", "`" + column + "`"];
    assert Join(quoted, ".") == "`" + table + "`" + "." + "`" + column + "`";
  }

  lemma QuoteSimpleIdempotent(name: string)
    ensures QuoteSimple(QuoteSimple(name)) == QuoteSimple(name)
  {
    if !('`' in name || name == "*") {
      assert ("`" + name + "`")[0] == '`';
    }
  }

  /** Quoting an already quoted name leaves it alone. */
  lemma {:induction false} QuoteNameIdempotent(name: string)
    ensures QuoteName(QuoteName(name)) == QuoteName(name)
  {
    var segs := Split(name, '.');
    var quoted := seq(|segs|, i requires 0 <= i < |segs| => QuoteSimple(segs[i]));
    forall i | 0 <= i < |quoted|
      ensures '.' !in quoted[i]
    {
      assert '.' !in segs[i];
    }
    SplitJoin(quoted, '.');
    assert Split(QuoteName(name), '.') == quoted;
    forall i | 0 <= i < |quoted|
      ensures QuoteSimple(quoted[i]) == quoted[i]
    {
      QuoteSimpleIdempotent(segs[i]);
    }
    assert seq(|quoted|, i requires 0 <= i < |quoted| => QuoteSimple(quoted[i])) == quoted;
  }

  /** Go's `\s`: space, tab, newline, form feed, carriage return. */
  predicate IsSpace(c: char)
  {
    c == ' ' || c == '\t' || c == '\n' || c == '\r' || c == 12 as char
  }

  /** ASCII lower case. */
  function Lower(c: char): char
  {
    if 'A' <= c <= 'Z' then (c as int + 32) as char else c
  }

  /** `s` spells the lower-case `word` in any letter case. */
  predicate IsWordIgnoringCase(s: string, word: string)
  {
    |s| == |word| && forall i :: 0 <= i < |s| ==> Lower(s[i]) == word[i]
  }

  predicate IsDirection(s: string)
  {
    IsWordIgnoringCase(s, "asc") || IsWordIgnoringCase(s, "desc")
  }

  /** `s` without its trailing whitespace. */
  function TrimRight(s: string): (r: string)
    ensures r <= s
    ensures r == "" || !IsSpace(r[|r| - 1])
    ensures forall i :: |r| <= i < |s| ==> IsSpace(s[i])
  {
    if s == [] || !IsSpace(s[|s| - 1]) then s else TrimRight(s[..|s| - 1])
  }

  /** An ORDER BY entry `name<whitespace>ASC|DESC` (any letter case) split into
      its name and its direction as written. */
  function SplitDirection(col: string): Option<(string, string)>
  {
    var n := |col|;
    if n >= 4 && IsWordIgnoringCase(col[n - 3..], "asc") && IsSpace(col[n - 4]) then
      Some((TrimRight(col[..n - 4]), col[n - 3..]))
    else if n >= 5 && IsWordIgnoringCase(col[n - 4..], "desc") && IsSpace(col[n - 5]) then
      Some((TrimRight(col[..n - 5]), col[n - 4..]))
    else None
  }

  /** One ORDER BY entry: the name quoted, the direction kept verbatim. A
      name without whitespace is never taken for a name plus a direction. */
  function OrderTerm(col: string): (r: string)
    ensures (forall i :: 0 <= i < |col| ==> !IsSpace(col[i])) ==> r == QuoteName(col)
  {
    match SplitDirection(col)
    case Some(p) => QuoteName(p.0) + " " + p.1
    case None => QuoteName(col)
  }

  /** Every ORDER BY entry of a list, rendered. */
  function OrderTerms(cols: seq<string>): (r: seq<string>)
    ensures |r| == |cols|
    ensures forall i :: 0 <= i < |r| ==> r[i] == OrderTerm(cols[i])
  {
    if cols == [] then [] else [OrderTerm(cols[0])] + OrderTerms(cols[1..])
  }

  /** `name DIR` renders the quoted name followed by the direction as written. */
  lemma OrderTermWithDirection(name: string, dir: string)
    requires name == "" || !IsSpace(name[|name| - 1])
    requires IsDirection(dir)
    ensures OrderTerm(name + " " + dir) == QuoteName(name) + " " + dir
  {
    var col := name + " " + dir;
    var n := |col|;
    if IsWordIgnoringCase(dir, "asc") {
      assert col[n - 3..] == dir && col[n - 4] == ' ' && col[..n - 4] == name;
    } else {
      assert col[n - 3..] == dir[1..];
      assert Lower(col[n - 3]) == 'e';
      assert !IsWordIgnoringCase(col[n - 3..], "asc");
      assert col[n - 4..] == dir && col[n - 5] == ' ' && col[..n - 5] == name;
    }
  }
}
