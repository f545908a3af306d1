/**
  The sensitivity test of the configuration obfuscator.

  `ConfigObfuscator.__init__` fixes a list of twelve regular expressions,
  `(word\s*:).*` and `("word"\s*:).*` for six words, and the engine calls a
  text sensitive when `re.search(pattern, text, re.IGNORECASE)` succeeds for
  one of them. The trailing `.*` always matches, so a search succeeds exactly
  when the word (or the quoted word) occurs somewhere, in any letter case,
  followed by white space and a colon.

  Case folding and white space are ASCII here; Python's engine folds a few
  non-ASCII letters and counts Unicode white space as well.
*/
module Patterns {

  /** The six words the patterns are built from, in the order of the list. */
  const Words: seq<string> := ["password", "api_key", "secret", "token", "access_key", "credentials"]

  /** One pattern: `(word\s*:).*`, or `("word"\s*:).*` when `quoted`. */
  datatype Pattern = Pattern(word: string, quoted: bool)

  /** The pattern list, in the order the engine tries it. */
  const PatternList: seq<Pattern> := [
    Pattern("password", false),
    Pattern("api_key", false),
    Pattern("secret", false),
    Pattern("token", false),
    Pattern("access_key", false),
    Pattern("credentials", false),
    Pattern("password", true),
    Pattern("api_key", true),
    Pattern("secret", true),
    Pattern("token", true),
    Pattern("access_key", true),
    Pattern("credentials", true)
  ]

  /** The word, wrapped in double quotes when asked. */
  function Quote(w: string, quoted: bool): string
  {
    if quoted then "\"" + w + "\"" else w
  }

  /** The literal text a pattern's group starts with, before `\s*:`. */
  function Literal(p: Pattern): string
  {
    Quote(p.word, p.quoted)
  }

  /** ASCII case folding, as `re.IGNORECASE` does for ASCII letters. */
  function Lower(c: char): char
  {
    if 'A' <= c <= 'Z' then (c as int + 32) as char else c
  }

  /** ASCII white space, the characters `\s` matches below code 128. */
  predicate IsSpace(c: char)
  {
    c == ' ' || c == '\t' || c == '\n' || c == '\r' || c == '\U{000B}' || c == '\U{000C}'
  }

  /** `lit` occurs in `s` at index `i`, ignoring letter case. */
  predicate LiteralAt(lit: string, s: string, i: nat)
  {
    i + |lit| <= |s| && forall m :: 0 <= m < |lit| ==> Lower(s[i + m]) == Lower(lit[m])
  }

  /** `\s*:` can match at `j`: a run of white space from `j` ends in a colon. */
  ghost predicate ColonAfterSpaces(s: string, j: nat)
  {
    exists k :: j <= k < |s| && s[k] == ':' && forall m :: j <= m < k ==> IsSpace(s[m])
  }

  /** The pattern `p` matches `s` starting at index `i` (its `.*` matches anything). */
  ghost predicate MatchesAt(p: Pattern, s: string, i: nat)
  {
    LiteralAt(Literal(p), s, i) && ColonAfterSpaces(s, i + |Literal(p)|)
  }

  /** Where the greedy `\s*` that starts at `j` stops. */
  function SkipSpaces(s: string, j: nat): (k: nat)
    requires j <= |s|
    ensures j <= k <= |s|
    ensures forall m :: j <= m < k ==> IsSpace(s[m])
    ensures k < |s| ==> !IsSpace(s[k])
    decreases |s| - j
  {
    if j < |s| && IsSpace(s[j]) then SkipSpaces(s, j + 1) else j
  }

  /**
    `\s*:` at `j`: the greedy white-space run must be followed by a colon.
    A colon is not white space, so backing off the run never helps.
  */
  function ColonAt(s: string, j: nat): (r: bool)
    requires j <= |s|
    ensures r <==> ColonAfterSpaces(s, j)
  {
    var k := SkipSpaces(s, j);
    if k < |s| && s[k] == ':' then
      true
    else
      assert forall k' :: j <= k' < |s| && s[k'] == ':' ==> exists m :: j <= m < k' && !IsSpace(s[m]) by {
        forall k' | j <= k' < |s| && s[k'] == ':'
          ensures exists m :: j <= m < k' && !IsSpace(s[m])
        {
          assert !IsSpace(s[k']);
          assert k < k' && !IsSpace(s[k]);
        }
      }
      false
  }

  /** One attempt of the regular-expression engine at start index `i`. */
  function MatchHere(p: Pattern, s: string, i: nat): (r: bool)
    requires i <= |s|
    ensures r <==> MatchesAt(p, s, i)
  {
    var lit := Literal(p);
    LiteralAt(lit, s, i) && ColonAt(s, i + |lit|)
  }

  /** The search from start index `i` onward: the first start that matches wins. */
  function SearchFrom(p: Pattern, s: string, i: nat): (r: bool)
    requires i <= |s|
    ensures r <==> exists j :: i <= j <= |s| && MatchesAt(p, s, j)
    decreases |s| - i
  {
    if MatchHere(p, s, i) then true
    else if i == |s| then false
    else SearchFrom(p, s, i + 1)
  }

  /** `re.search(p, s, re.IGNORECASE)` succeeds. */
  function Search(p: Pattern, s: string): (r: bool)
    ensures r <==> exists j :: 0 <= j <= |s| && MatchesAt(p, s, j)
  {
    SearchFrom(p, s, 0)
  }

  /** The engine's test: some pattern of the list is found in `s`. */
  predicate Sensitive(s: string)
  {
    exists n :: 0 <= n < |PatternList| && Search(PatternList[n], s)
  }

  /**
    The `for pattern in self.patterns: if re.search(...)` loop, which stops
    at the first pattern that is found.
  */
  method AnyPatternFound(text: string) returns (found: bool)
    ensures found == Sensitive(text)
  {
    found := false;
    var n := 0;
    while n < |PatternList|
      invariant 0 <= n <= |PatternList|
      invariant forall j :: 0 <= j < n ==> !Search(PatternList[j], text)
    {
      if Search(PatternList[n], text) {
        found := true;
        break;
      }
      n := n + 1;
    }
  }

  /**
    The label `lit` (lower-case) sits at `i` in `s`, ignoring letter case,
    and is followed by white space up to a colon at `k`.
  */
  predicate LabelAt(s: string, lit: string, i: nat, k: nat)
  {
    && i + |lit| <= k < |s|
    && (forall m :: 0 <= m < |lit| ==> Lower(s[i + m]) == lit[m])
    && s[k] == ':'
    && (forall m :: i + |lit| <= m < k ==> IsSpace(s[m]))
  }

  /**
    A description of sensitivity without patterns or a search: one of the six
    words, bare or in double quotes, in any letter case, then optional white
    space, then a colon.
  */
  ghost predicate HasSensitiveLabel(s: string)
  {
    exists w, quoted: bool, i: nat, k: nat :: w in Words && LabelAt(s, Quote(w, quoted), i, k)
  }

  lemma WordsAreLowerCase(w: string, quoted: bool)
    requires w in Words
    ensures forall m :: 0 <= m < |Quote(w, quoted)| ==> Lower(Quote(w, quoted)[m]) == Quote(w, quoted)[m]
  {
  }

  lemma {:induction false} EveryLabelHasPattern(w: string, quoted: bool)
    requires w in Words
    ensures exists n :: 0 <= n < |PatternList| && PatternList[n] == Pattern(w, quoted)
  {
    var idx :| 0 <= idx < |Words| && Words[idx] == w;
    var n := if quoted then idx + 6 else idx;
    assert PatternList[n] == Pattern(w, quoted);
  }

  lemma PatternWordsAreWords(n: nat)
    requires n < |PatternList|
    ensures PatternList[n].word in Words
  {
  }

  lemma {:induction false} MatchGivesLabel(p: Pattern, s: string, i: nat)
    requires p.word in Words
    requires MatchesAt(p, s, i)
    ensures HasSensitiveLabel(s)
  {
    var lit := Literal(p);
    var k :| i + |lit| <= k < |s| && s[k] == ':' && forall m :: i + |lit| <= m < k ==> IsSpace(s[m]);
    WordsAreLowerCase(p.word, p.quoted);
    assert LabelAt(s, Quote(p.word, p.quoted), i, k);
  }

  lemma {:induction false} LabelGivesMatch(w: string, quoted: bool, s: string, i: nat, k: nat)
    requires w in Words
    requires LabelAt(s, Quote(w, quoted), i, k)
    ensures Sensitive(s)
  {
    EveryLabelHasPattern(w, quoted);
    var n :| 0 <= n < |PatternList| && PatternList[n] == Pattern(w, quoted);
    WordsAreLowerCase(w, quoted);
    assert ColonAfterSpaces(s, i + |Quote(w, quoted)|);
    assert MatchesAt(PatternList[n], s, i);
    assert Search(PatternList[n], s);
  }

  /** The twelve searches together accept exactly the texts holding a sensitive label. */
  lemma {:induction false} SensitiveIffLabel(s: string)
    ensures Sensitive(s) <==> HasSensitiveLabel(s)
  {
    if Sensitive(s) {
      var n :| 0 <= n < |PatternList| && Search(PatternList[n], s);
      var i :| 0 <= i <= |s| && MatchesAt(PatternList[n], s, i);
      PatternWordsAreWords(n);
      MatchGivesLabel(PatternList[n], s, i);
    }
    if HasSensitiveLabel(s) {
      var w, quoted: bool, i: nat, k: nat :| w in Words && LabelAt(s, Quote(w, quoted), i, k);
      LabelGivesMatch(w, quoted, s, i, k);
    }
  }

  /** Without a colon a text is never sensitive: in particular no bare word such as `password` is. */
  lemma {:induction false} SensitiveNeedsColon(s: string)
    requires forall m :: 0 <= m < |s| ==> s[m] != ':'
    ensures !Sensitive(s)
  {
  }

  /** The six words themselves, bare or quoted, are not sensitive. */
  lemma BareWordsNotSensitive(w: string, quoted: bool)
    requires w in Words
    ensures !Sensitive(Quote(w, quoted))
  {
    SensitiveNeedsColon(Quote(w, quoted));
  }

  /** Two texts that differ only in the case of ASCII letters. */
  predicate SameIgnoringCase(s: string, t: string)
  {
    |s| == |t| && forall m :: 0 <= m < |s| ==> Lower(s[m]) == Lower(t[m])
  }

  lemma {:induction false} LabelIgnoresCase(s: string, t: string, lit: string, i: nat, k: nat)
    requires SameIgnoringCase(s, t)
    requires LabelAt(s, lit, i, k)
    ensures LabelAt(t, lit, i, k)
  {
  }

  /** Letter case never changes the verdict: `Password:`, `PASSWORD:` and `password:` agree. */
  lemma {:induction false} SensitiveIgnoresCase(s: string, t: string)
    requires SameIgnoringCase(s, t)
    ensures Sensitive(s) == Sensitive(t)
  {
    SensitiveIffLabel(s);
    SensitiveIffLabel(t);
    if HasSensitiveLabel(s) {
      var w, quoted: bool, i: nat, k: nat :| w in Words && LabelAt(s, Quote(w, quoted), i, k);
      LabelIgnoresCase(s, t, Quote(w, quoted), i, k);
    }
    if HasSensitiveLabel(t) {
      var w, quoted: bool, i: nat, k: nat :| w in Words && LabelAt(t, Quote(w, quoted), i, k);
      LabelIgnoresCase(t, s, Quote(w, quoted), i, k);
    }
  }

  /** A spaced label after other text: `db Password   :x` is blanked when tested. */
  lemma SpacedLabelExample()
    ensures Sensitive("db Password   :x")
  {
    var s := "db Password   :x";
    assert s[3..11] == "Password";
    LabelGivesMatch("password", false, s, 3, 14);
  }

  /** A quoted label in upper case, as a JSON fragment: `{"API_KEY": 1}`. */
  lemma QuotedLabelExample()
    ensures Sensitive("{\"API_KEY\": 1}")
  {
    LabelGivesMatch("api_key", true, "{\"API_KEY\": 1}", 1, 10);
  }
}
