/** The text operators the list routes put in their `WHERE` clauses: Postgres's `LOWER` and
    `LIKE`, and what a `%term%` pattern built from a search term matches. */
module SqlText {

  /** `LOWER` on one character. Only the ASCII letters are modelled. */
  function LowerChar(c: char): char {
    if 'A' <= c <= 'Z' then (c as int + 32) as char else c
  }

  function Lower(s: string): string {
    seq(|s|, i requires 0 <= i < |s| => LowerChar(s[i]))
  }

  /** The characters that are not literal in a `LIKE` pattern: the two wildcards and the
      default escape character. */
  predicate IsPatternChar(c: char) {
    c == '%' || c == '_' || c == '\\'
  }

  predicate NoPatternChars(s: string) {
    forall i | 0 <= i < |s| :: !IsPatternChar(s[i])
  }

  /** `text LIKE pattern`: `%` matches any run of characters, `_` any one character, and a
      backslash makes the character after it literal. A pattern that ends in a lone backslash
      matches nothing here (Postgres rejects it; the routes never build one). */
  function Like(text: string, pattern: string): bool
    decreases |text| + |pattern|
  {
    if pattern == [] then text == []
    else if pattern[0] == '%' then Like(text, pattern[1..]) || (text != [] && Like(text[1..], pattern))
    else if pattern[0] == '_' then text != [] && Like(text[1..], pattern[1..])
    else if pattern[0] == '\\' then
      |pattern| >= 2 && text != [] && text[0] == pattern[1] && Like(text[1..], pattern[2..])
    else text != [] && text[0] == pattern[0] && Like(text[1..], pattern[1..])
  }

  /** `sub` occurs in `text` as a contiguous run. */
  predicate Contains(text: string, sub: string) {
    exists k | 0 <= k <= |text| :: sub <= text[k..]
  }

  /** The pattern the routes bind for a search term: `%${search}%`. */
  function SearchPattern(search: string): string {
    "%" + search + "%"
  }

  /** `LOWER(column) LIKE LOWER($k)` with `$k` bound to the search pattern; a `NULL` column
      never matches. */
  predicate SearchHit(column: string, search: string) {
    Like(Lower(column), Lower(SearchPattern(search)))
  }

  // ---------------------------------------------------------------------------------------------
  // What a `%term%` pattern matches

  /** The `LIKE` pattern that matches exactly `s`: every pattern character escaped. */
  function EscapeLike(s: string): string {
    if s == [] then ""
    else (if IsPatternChar(s[0]) then "\\" + [s[0]] else [s[0]]) + EscapeLike(s[1..])
  }

  lemma {:induction false} EscapeLikeOfPlain(s: string)
    requires NoPatternChars(s)
    ensures EscapeLike(s) == s
    decreases |s|
  {
    if s != [] {
      EscapeLikeOfPlain(s[1..]);
      assert [s[0]] + s[1..] == s;
    }
  }

  lemma {:induction false} LikePercent(text: string)
    ensures Like(text, "%")
    decreases |text|
  {
    if text != [] {
      LikePercent(text[1..]);
    }
  }

  /** An escaped term followed by `%` matches exactly the texts that start with the term. */
  lemma {:induction false} LikeEscapedPrefix(text: string, q: string)
    ensures Like(text, EscapeLike(q) + "%") <==> q <= text
    decreases |q|
  {
    var p := EscapeLike(q) + "%";
    if q == [] {
      assert p == "%";
      LikePercent(text);
    } else {
      var c := q[0];
      LikeEscapedPrefix(if text == [] then [] else text[1..], q[1..]);
      if IsPatternChar(c) {
        assert p == ['\\', c] + (EscapeLike(q[1..]) + "%");
        assert p[2..] == EscapeLike(q[1..]) + "%";
      } else {
        assert p == [c] + (EscapeLike(q[1..]) + "%");
        assert p[1..] == EscapeLike(q[1..]) + "%";
      }
      if text != [] {
        assert q <= text <==> text[0] == c && q[1..] <= text[1..];
      }
    }
  }

  /** A leading `%` lets the rest of the pattern match any suffix. */
  lemma {:induction false} LikeLeadingPercent(text: string, r: string)
    ensures Like(text, "%" + r) <==> exists k | 0 <= k <= |text| :: Like(text[k..], r)
    decreases |text|
  {
    var p := "%" + r;
    assert p[1..] == r;
    assert text[0..] == text;
    if text != [] {
      LikeLeadingPercent(text[1..], r);
      if Like(text[1..], p) {
        var k :| 0 <= k <= |text[1..]| && Like(text[1..][k..], r);
        assert text[1..][k..] == text[k + 1..];
      }
      forall k | 1 <= k <= |text| && Like(text[k..], r)
        ensures Like(text[1..], p)
      {
        assert text[1..][k - 1..] == text[k..];
      }
    }
  }

  /** `%` + escaped term + `%` is substring search. */
  lemma LikeEscapedContains(text: string, q: string)
    ensures Like(text, "%" + EscapeLike(q) + "%") <==> Contains(text, q)
  {
    var r := EscapeLike(q) + "%";
    assert "%" + EscapeLike(q) + "%" == "%" + r;
    LikeLeadingPercent(text, r);
    forall k | 0 <= k <= |text|
      ensures Like(text[k..], r) <==> q <= text[k..]
    {
      LikeEscapedPrefix(text[k..], q);
    }
  }

  lemma LowerKeepsPatternChars(s: string)
    ensures NoPatternChars(s) <==> NoPatternChars(Lower(s))
    ensures Lower(EscapeLike(s)) == EscapeLike(Lower(s))
  {
    var t := Lower(s);
    if NoPatternChars(s) {
      forall i | 0 <= i < |t|
        ensures !IsPatternChar(t[i])
      {
        assert t[i] == LowerChar(s[i]);
      }
    }
    if NoPatternChars(t) {
      forall i | 0 <= i < |s|
        ensures !IsPatternChar(s[i])
      {
        assert t[i] == LowerChar(s[i]);
      }
    }
    LowerEscapeLike(s);
  }

  lemma {:induction false} LowerEscapeLike(s: string)
    ensures Lower(EscapeLike(s)) == EscapeLike(Lower(s))
    decreases |s|
  {
    if s != [] {
      LowerEscapeLike(s[1..]);
      var head := if IsPatternChar(s[0]) then "\\" + [s[0]] else [s[0]];
      LowerConcat(head, EscapeLike(s[1..]));
      assert Lower(s)[1..] == Lower(s[1..]);
    }
  }

  lemma LowerConcat(a: string, b: string)
    ensures Lower(a + b) == Lower(a) + Lower(b)
  {
  }

  lemma LowerSearchPattern(search: string)
    ensures Lower(SearchPattern(search)) == "%" + Lower(search) + "%"
  {
    LowerConcat("%", search);
    LowerConcat("%" + search, "%");
  }

  /** What the routes' search does when the term has no pattern characters: a case-insensitive
      substring test. */
  lemma SearchHitIsSubstring(column: string, search: string)
    requires NoPatternChars(search)
    ensures SearchHit(column, search) <==> Contains(Lower(column), Lower(search))
  {
    LowerSearchPattern(search);
    LowerKeepsPatternChars(search);
    EscapeLikeOfPlain(Lower(search));
    LikeEscapedContains(Lower(column), Lower(search));
  }

  /** A search term made of a wildcard matches texts that do not contain it. */
  lemma WildcardSearchOvermatches()
    ensures SearchHit("abc", "_") && !Contains(Lower("abc"), Lower("_"))
    ensures SearchHit("", "%") && !Contains(Lower(""), Lower("%"))
  {
    assert Lower("abc") == "abc";
    assert Lower("") == "";
    assert Lower("_") == "_" && Lower("%") == "%";
    LowerSearchPattern("_");
    LowerSearchPattern("%");
    LikePercent("bc");
    assert Like("abc", "_%");
    assert Like("abc", "%_%");
    LikePercent("");
    assert Like("", "%%");
    assert Like("", "%%%");
    forall k | 0 <= k <= 3
      ensures !("_" <= "abc"[k..])
    {
    }
  }

  /** The search the routes evidently intend: the term's pattern characters escaped before the
      `%…%` pattern is built. */
  predicate EscapedSearchHit(column: string, search: string) {
    Like(Lower(column), Lower(SearchPattern(EscapeLike(search))))
  }

  lemma EscapedSearchIsSubstring(column: string, search: string)
    ensures EscapedSearchHit(column, search) <==> Contains(Lower(column), Lower(search))
  {
    LowerSearchPattern(EscapeLike(search));
    LowerKeepsPatternChars(search);
    LikeEscapedContains(Lower(column), Lower(search));
  }
}
