/** LIKE patterns with a backslash escape (section 9.7.1 of the PostgreSQL documentation) and the escaping
    of search terms (apps/api/repositories.py). */
module Like {

  /** `str.replace` of one character by a string. */
  function Replace(s: string, c: char, put: string): string {
    if s == [] then [] else (if s[0] == c then put else [s[0]]) + Replace(s[1..], c, put)
  }

  /** `_escape_like`: three passes over the whole string. */
  function EscapeLike(s: string): string {
    Replace(Replace(Replace(s, '\\', "\\\\"), '%', "\\%"), '_', "\\_")
  }

  predicate IsMeta(c: char) {
    c == '\\' || c == '%' || c == '_'
  }

  /** One pass that puts a backslash before every metacharacter. */
  function EscapeOnce(s: string): string {
    if s == [] then [] else (if IsMeta(s[0]) then ['\\', s[0]] else [s[0]]) + EscapeOnce(s[1..])
  }

  /** Whether `text` matches `pattern` under LIKE with backslash as the escape character. */
  predicate Matches(pattern: string, text: string)
    decreases |pattern| + |text|
  {
    if pattern == [] then text == []
    else if pattern[0] == '%' then Matches(pattern[1..], text) || (text != [] && Matches(pattern, text[1..]))
    else if pattern[0] == '\\' then
      |pattern| > 1 && text != [] && text[0] == pattern[1] && Matches(pattern[2..], text[1..])
    else
      text != [] && (pattern[0] == '_' || pattern[0] == text[0]) && Matches(pattern[1..], text[1..])
  }

  /** Lower-casing character by character: it maps metacharacters, and only those, to themselves. */
  ghost predicate IsFold(fold: char -> char) {
    forall c :: IsMeta(fold(c)) || IsMeta(c) ==> fold(c) == c
  }

  function Folded(fold: char -> char, s: string): (r: string)
    ensures |r| == |s| && forall i | 0 <= i < |s| :: r[i] == fold(s[i])
  {
    if s == [] then [] else [fold(s[0])] + Folded(fold, s[1..])
  }

  /** ILIKE: LIKE between the lower-cased strings. */
  predicate IMatches(fold: char -> char, pattern: string, text: string) {
    Matches(Folded(fold, pattern), Folded(fold, text))
  }

  /** The pattern every search builds. */
  function SearchPattern(term: string): string {
    "%" + EscapeLike(term) + "%"
  }

  predicate Contains(text: string, part: string) {
    exists i | 0 <= i <= |text| :: part <= text[i..]
  }

  // ---- the three passes are one ----

  lemma {:induction false} ReplaceAppend(a: string, b: string, c: char, put: string)
    ensures Replace(a + b, c, put) == Replace(a, c, put) + Replace(b, c, put)
  {
    if a == [] {
      assert a + b == b;
    } else {
      assert (a + b)[1..] == a[1..] + b;
      ReplaceAppend(a[1..], b, c, put);
    }
  }

  /** The later passes do not touch the backslashes the first one wrote, nor each other's work. */
  lemma {:induction false} EscapeIsOnePass(s: string)
    ensures EscapeLike(s) == EscapeOnce(s)
  {
    if s != [] {
      EscapeIsOnePass(s[1..]);
      var first := Replace([s[0]], '\\', "\\\\");
      var second := Replace(first, '%', "\\%");
      assert s == [s[0]] + s[1..];
      ReplaceAppend([s[0]], s[1..], '\\', "\\\\");
      ReplaceAppend(first, Replace(s[1..], '\\', "\\\\"), '%', "\\%");
      ReplaceAppend(second, Replace(Replace(s[1..], '\\', "\\\\"), '%', "\\%"), '_', "\\_");
      EscapeOfOne(s[0]);
    }
  }

  lemma EscapeOfOne(c: char)
    ensures Replace(Replace(Replace([c], '\\', "\\\\"), '%', "\\%"), '_', "\\_") == if IsMeta(c) then ['\\', c] else [c]
  {
    if c == '\\' {
      ReplacePair('\\', '\\', '%', "\\%");
      ReplacePair('\\', '\\', '_', "\\_");
    } else if c == '%' {
      ReplacePair('\\', '%', '_', "\\_");
    }
  }

  lemma ReplacePair(a: char, b: char, c: char, put: string)
    requires a != c && b != c
    ensures Replace([a, b], c, put) == [a, b]
  {
    assert [a, b][1..] == [b] && [b][1..] == [];
    assert Replace([b], c, put) == [b] + Replace([], c, put);
  }

  // ---- what an escaped term matches ----

  /** An unescaped underscore takes any one character, any other ordinary character itself, and a backslash at the end
      of a pattern takes nothing. */
  lemma OneCharacter(c: char, rest: string, text: string)
    requires c != '%' && c != '\\'
    ensures Matches([c] + rest, text) <==> text != [] && (c == '_' || c == text[0]) && Matches(rest, text[1..])
    ensures !Matches("\\", text)
  {
    assert ([c] + rest)[1..] == rest;
  }

  /** An escaped character matches that character and nothing else. */
  lemma EscapedCharacter(c: char, rest: string, text: string)
    ensures Matches(EscapeOnce([c]) + rest, text) <==> text != [] && text[0] == c && Matches(rest, text[1..])
  {
  }

  /** An escaped term followed by `%` matches exactly the strings that start with the term. */
  lemma {:induction false} EscapedPrefix(term: string, text: string)
    ensures Matches(EscapeOnce(term) + "%", text) <==> term <= text
    decreases |term|
  {
    if term == [] {
      AnythingMatches(text);
      assert EscapeOnce(term) + "%" == "%";
    } else {
      var rest := EscapeOnce(term[1..]) + "%";
      assert EscapeOnce(term) + "%" == EscapeOnce([term[0]]) + rest;
      EscapedCharacter(term[0], rest, text);
      if text != [] {
        EscapedPrefix(term[1..], text[1..]);
        assert term <= text <==> term[0] == text[0] && term[1..] <= text[1..];
      }
    }
  }

  lemma {:induction false} AnythingMatches(text: string)
    ensures Matches("%", text)
  {
    if text == [] {
      assert "%"[1..] == [];
    } else {
      AnythingMatches(text[1..]);
    }
  }

  /** A pattern behind `%` matches when it matches some suffix. */
  lemma {:induction false} PercentSkips(pattern: string, text: string)
    ensures Matches("%" + pattern, text) <==> exists i | 0 <= i <= |text| :: Matches(pattern, text[i..])
    decreases |text|
  {
    var p := "%" + pattern;
    assert p[1..] == pattern && text[0..] == text;
    if text != [] {
      PercentSkips(pattern, text[1..]);
      forall i | 0 <= i <= |text[1..]| ensures text[1..][i..] == text[i + 1..] {}
      if Matches(p, text[1..]) {
        var i :| 0 <= i <= |text[1..]| && Matches(pattern, text[1..][i..]);
        assert Matches(pattern, text[i + 1..]);
      }
      if exists i | 0 <= i <= |text| :: Matches(pattern, text[i..]) {
        var i :| 0 <= i <= |text| && Matches(pattern, text[i..]);
        if i > 0 {
          assert text[1..][i - 1..] == text[i..];
        }
      }
    }
  }

  /** Searching for a term finds exactly the texts that contain it, whatever metacharacters it holds. */
  lemma SearchFindsSubstrings(term: string, text: string)
    ensures Matches(SearchPattern(term), text) <==> Contains(text, term)
  {
    EscapeIsOnePass(term);
    assert SearchPattern(term) == "%" + (EscapeOnce(term) + "%");
    PercentSkips(EscapeOnce(term) + "%", text);
    forall i | 0 <= i <= |text| ensures Matches(EscapeOnce(term) + "%", text[i..]) <==> term <= text[i..] {
      EscapedPrefix(term, text[i..]);
    }
  }

  lemma FoldedAppend(fold: char -> char, a: string, b: string)
    ensures Folded(fold, a + b) == Folded(fold, a) + Folded(fold, b)
  {
  }

  lemma FoldedOne(fold: char -> char, c: char)
    requires IsFold(fold)
    ensures Folded(fold, EscapeOnce([c])) == EscapeOnce([fold(c)])
  {
  }

  lemma {:induction false} EscapeAppend(a: string, b: string)
    ensures EscapeOnce(a + b) == EscapeOnce(a) + EscapeOnce(b)
  {
    if a == [] {
      assert a + b == b;
    } else {
      assert (a + b)[1..] == a[1..] + b;
      EscapeAppend(a[1..], b);
    }
  }

  /** Folding and escaping commute. */
  lemma {:induction false} FoldedEscape(fold: char -> char, s: string)
    requires IsFold(fold)
    ensures Folded(fold, EscapeOnce(s)) == EscapeOnce(Folded(fold, s))
  {
    if s != [] {
      FoldedEscape(fold, s[1..]);
      FoldedOne(fold, s[0]);
      assert s == [s[0]] + s[1..];
      EscapeAppend([s[0]], s[1..]);
      FoldedAppend(fold, EscapeOnce([s[0]]), EscapeOnce(s[1..]));
      EscapeAppend([fold(s[0])], Folded(fold, s[1..]));
    }
  }

  /** The same up to a per-character case fold, which is what ILIKE compares by. */
  lemma CaselessSearchFindsSubstrings(fold: char -> char, term: string, text: string)
    requires IsFold(fold)
    ensures IMatches(fold, SearchPattern(term), text) <==> Contains(Folded(fold, text), Folded(fold, term))
  {
    EscapeIsOnePass(term);
    EscapeIsOnePass(Folded(fold, term));
    FoldedEscape(fold, term);
    assert Folded(fold, "%") == "%" by {
      assert fold('%') == '%';
    }
    FoldedAppend(fold, "%" + EscapeLike(term), "%");
    FoldedAppend(fold, "%", EscapeLike(term));
    SearchFindsSubstrings(Folded(fold, term), Folded(fold, text));
  }
}
