// Printing an OR query (app/context/fts.py:89-128) and reading it back by the
// quoting rules of tsquery (section 8.11.2 of the PostgreSQL 16 documentation).
module Fts {
  import opened Rows

  // The escape table: a quote and a backslash are doubled.
  function Escaped(s: string): string {
    if s == "" then ""
    else (if s[0] == '\'' || s[0] == '\\' then [s[0], s[0]] else [s[0]]) + Escaped(s[1..])
  }

  function Quoted(s: string): string {
    "'" + Escaped(s) + "'"
  }

  function Joined(lexemes: seq<string>): string
    requires lexemes != []
  {
    if |lexemes| == 1 then Quoted(lexemes[0]) else Quoted(lexemes[0]) + " | " + Joined(lexemes[1..])
  }

  // None stands for no query at all.
  function LexemesToOrTsquery(lexemes: seq<string>): Option<string> {
    if lexemes == [] then None else Some(Joined(lexemes))
  }

  // The body of a quoted lexeme up to its closing quote: a doubled quote is one
  // quote, and a backslash stands for the character after it.
  function ReadLexeme(s: string): (r: Option<(string, string)>)
    ensures r.Some? ==> |r.value.1| < |s|
    decreases |s|
  {
    if s == "" then None
    else if s[0] == '\'' then
      if |s| > 1 && s[1] == '\'' then Also('\'', ReadLexeme(s[2..])) else Some(("", s[1..]))
    else if s[0] == '\\' then
      if |s| > 1 then Also(s[1], ReadLexeme(s[2..])) else None
    else Also(s[0], ReadLexeme(s[1..]))
  }

  function Also(c: char, r: Option<(string, string)>): Option<(string, string)> {
    match r
    case None => None
    case Some((lexeme, rest)) => Some(([c] + lexeme, rest))
  }

  function Skipped(s: string): (r: string)
    ensures |r| <= |s|
  {
    if s != "" && s[0] == ' ' then Skipped(s[1..]) else s
  }

  // A query of quoted lexemes with `|` between them.
  function ReadQuery(s: string): Option<seq<string>>
    decreases |s|
  {
    var t := Skipped(s);
    if t == "" || t[0] != '\'' then None
    else
      match ReadLexeme(t[1..])
      case None => None
      case Some((lexeme, rest)) =>
        var u := Skipped(rest);
        if u == "" then Some([lexeme])
        else if u[0] != '|' then None
        else
          match ReadQuery(u[1..])
          case None => None
          case Some(more) => Some([lexeme] + more)
  }

  // An escaped lexeme reads back as itself, up to a quote that is not doubled.
  lemma {:induction false} EscapedReadsBack(s: string, rest: string)
    requires rest == "" || rest[0] != '\''
    ensures ReadLexeme(Escaped(s) + "'" + rest) == Some((s, rest))
  {
    var t := Escaped(s) + "'" + rest;
    if s == "" {
      assert t == "'" + rest && t[1..] == rest;
    } else {
      EscapedReadsBack(s[1..], rest);
      OneMoreChar(s[0], s[1..], Escaped(s[1..]) + "'" + rest, rest);
      assert s == [s[0]] + s[1..];
      if s[0] == '\'' || s[0] == '\\' {
        assert t == [s[0], s[0]] + (Escaped(s[1..]) + "'" + rest);
      } else {
        assert t == [s[0]] + (Escaped(s[1..]) + "'" + rest);
      }
    }
  }

  lemma OneMoreChar(c: char, s: string, tail: string, rest: string)
    requires ReadLexeme(tail) == Some((s, rest))
    ensures ReadLexeme((if c == '\'' || c == '\\' then [c, c] else [c]) + tail) == Some(([c] + s, rest))
  {
    assert ([c, c] + tail)[2..] == tail && ([c] + tail)[1..] == tail;
  }

  lemma LastReadsBack(first: string)
    ensures ReadQuery(Quoted(first)) == Some([first])
  {
    EscapedReadsBack(first, "");
    assert Escaped(first) + "'" + "" == Escaped(first) + "'";
    assert Quoted(first)[1..] == Escaped(first) + "'";
  }

  lemma FirstReadsBack(first: string, more: string, lexemes: seq<string>)
    requires ReadQuery(more) == Some(lexemes)
    ensures ReadQuery(Quoted(first) + " | " + more) == Some([first] + lexemes)
  {
    var s, rest := Quoted(first) + " | " + more, " | " + more;
    EscapedReadsBack(first, rest);
    assert s[0] == '\'' && s[1..] == Escaped(first) + "'" + rest;
    BarFollows(more);
    LeadingSpace(more);
  }

  lemma BarFollows(more: string)
    ensures Skipped(" | " + more) == "|" + (" " + more)
  {
    assert (" | " + more)[1..] == "|" + (" " + more);
  }

  lemma LeadingSpace(s: string)
    ensures ReadQuery(" " + s) == ReadQuery(s)
  {
    assert (" " + s)[1..] == s;
    assert Skipped(" " + s) == Skipped(s);
  }

  // Reading the printed query gives back the lexemes, whatever quotes and
  // backslashes they hold.
  lemma {:induction false} QueryReadsBack(lexemes: seq<string>)
    requires lexemes != []
    ensures ReadQuery(Joined(lexemes)) == Some(lexemes)
  {
    if |lexemes| == 1 {
      LastReadsBack(lexemes[0]);
      assert lexemes == [lexemes[0]];
    } else {
      QueryReadsBack(lexemes[1..]);
      FirstReadsBack(lexemes[0], Joined(lexemes[1..]), lexemes[1..]);
      assert lexemes == [lexemes[0]] + lexemes[1..];
    }
  }

  // So two lists of lexemes never print as the same query, and only the empty
  // list prints as none.
  lemma PrintingIsInjective(a: seq<string>, b: seq<string>)
    ensures LexemesToOrTsquery(a) == LexemesToOrTsquery(b) <==> a == b
  {
    if a != [] {
      QueryReadsBack(a);
    }
    if b != [] {
      QueryReadsBack(b);
    }
  }
}
