/** The content guard: a case-insensitive blocklist over untrusted text and
    the length cap applied to the uploaded documents. */
module Security {
  import opened Strings

  /** One blocklist regular expression. Every pattern in the table is a
      literal or a small alternation, so it matches a text exactly when one
      of its finitely many literal expansions occurs in it. `regex` keeps the
      pattern as written; `phrases` lists its expansions in lower case. */
  datatype Pattern = Pattern(regex: string, phrases: seq<string>)

  /** The prompt-injection blocklist, in table order. */
  const BlocklistPatterns: seq<Pattern> := [
    Pattern("ignore (?:previous )?instructions", ["ignore instructions", "ignore previous instructions"]),
    Pattern("bypass (?:security|filters)", ["bypass security", "bypass filters"]),
    Pattern("jailbreak", ["jailbreak"]),
    Pattern("exfiltrat", ["exfiltrat"]),
    Pattern("send (?:your|my) api key", ["send your api key", "send my api key"]),
    Pattern("do anything", ["do anything"])
  ]

  /** The cap on the characters kept from each document. */
  const MaxChars: int := 15000

  /** `re.search(p, text, flags=re.IGNORECASE)` for one pattern, with ASCII
      case folding. */
  predicate PatternMatches(p: Pattern, text: string) {
    exists j :: 0 <= j < |p.phrases| && Contains(AsciiLower(text), p.phrases[j])
  }

  /** Some pattern at index `k` or later in the table matches. */
  predicate MatchesFrom(text: string, k: nat) {
    exists i :: k <= i < |BlocklistPatterns| && PatternMatches(BlocklistPatterns[i], text)
  }

  /** The loop over the table from index `k` on, stopping at the first
      pattern that matches. */
  function SearchPatterns(text: string, k: nat): (r: bool)
    requires k <= |BlocklistPatterns|
    ensures r <==> MatchesFrom(text, k)
    decreases |BlocklistPatterns| - k
  {
    if k == |BlocklistPatterns| then false
    else if PatternMatches(BlocklistPatterns[k], text) then true
    else SearchPatterns(text, k + 1)
  }

  /** Every expansion in the table is non-empty and already lower case. */
  lemma PhraseShape(i: int, j: int)
    requires 0 <= i < |BlocklistPatterns| && 0 <= j < |BlocklistPatterns[i].phrases|
    ensures |BlocklistPatterns[i].phrases[j]| > 0
    ensures NoAsciiUpper(BlocklistPatterns[i].phrases[j])
  {
    var p := BlocklistPatterns[i];
    if i == 0 {
      assert p.phrases == ["ignore instructions", "ignore previous instructions"];
    } else if i == 1 {
      assert p.phrases == ["bypass security", "bypass filters"];
    } else if i == 4 {
      assert p.phrases == ["send your api key", "send my api key"];
    }
  }

  /** `matches_blocklist`: the empty text is never blocked; any other text is
      blocked exactly when some pattern of the table occurs in it. */
  function MatchesBlocklist(text: string): (r: bool)
    ensures text == "" ==> !r
    ensures r <==> MatchesFrom(text, 0)
  {
    if text == "" then
      assert !MatchesFrom(text, 0) by {
        forall i, j | 0 <= i < |BlocklistPatterns| && 0 <= j < |BlocklistPatterns[i].phrases|
          ensures !Contains(AsciiLower(text), BlocklistPatterns[i].phrases[j])
        {
          PhraseShape(i, j);
        }
      }
      false
    else
      SearchPatterns(text, 0)
  }

  /** A text whose lower-cased form contains any expansion is blocked. */
  lemma PhraseBlocks(text: string, i: int, j: int)
    requires 0 <= i < |BlocklistPatterns| && 0 <= j < |BlocklistPatterns[i].phrases|
    requires Contains(AsciiLower(text), BlocklistPatterns[i].phrases[j])
    ensures MatchesBlocklist(text)
  {
    assert PatternMatches(BlocklistPatterns[i], text);
  }

  /** The search is a substring search: surrounding a blocked text with
      anything keeps it blocked. */
  lemma BlocklistMonotone(a: string, text: string, b: string)
    requires MatchesBlocklist(text)
    ensures MatchesBlocklist(a + text + b)
  {
    var i :| 0 <= i < |BlocklistPatterns| && PatternMatches(BlocklistPatterns[i], text);
    var p := BlocklistPatterns[i];
    var j :| 0 <= j < |p.phrases| && Contains(AsciiLower(text), p.phrases[j]);
    AsciiLowerAppend(a + text, b);
    AsciiLowerAppend(a, text);
    ContainsWithin(AsciiLower(a), AsciiLower(text), AsciiLower(b), p.phrases[j]);
    PhraseBlocks(a + text + b, i, j);
  }

  /** Matching ignores case: a text and its lower-cased form are blocked
      alike, and so are any two texts that agree up to case. */
  lemma BlocklistIgnoresCase(s: string, t: string)
    requires AsciiLower(s) == AsciiLower(t)
    ensures MatchesBlocklist(s) == MatchesBlocklist(t)
    ensures MatchesBlocklist(AsciiLower(s)) == MatchesBlocklist(s)
  {
    AsciiLowerIdempotent(s);
  }

  /** "exfiltrat" is a bare prefix, so every word that begins with it is
      blocked, wherever it stands. */
  lemma ExfiltratPrefix(a: string, rest: string)
    ensures MatchesBlocklist(a + "exfiltrat" + rest)
  {
    ExpansionsBlocked(a, 3, 0, rest);
  }

  /** Every literal expansion of every pattern is blocked on its own, in any
      surrounding text: both arms of the optional group and of each
      alternation. */
  lemma ExpansionsBlocked(a: string, i: int, j: int, b: string)
    requires 0 <= i < |BlocklistPatterns| && 0 <= j < |BlocklistPatterns[i].phrases|
    ensures MatchesBlocklist(a + BlocklistPatterns[i].phrases[j] + b)
  {
    PhraseAlone(i, j);
    BlocklistMonotone(a, BlocklistPatterns[i].phrases[j], b);
  }

  /** Each literal expansion is blocked by itself. */
  lemma PhraseAlone(i: int, j: int)
    requires 0 <= i < |BlocklistPatterns| && 0 <= j < |BlocklistPatterns[i].phrases|
    ensures MatchesBlocklist(BlocklistPatterns[i].phrases[j])
  {
    var w := BlocklistPatterns[i].phrases[j];
    PhraseShape(i, j);
    AsciiLowerFixed(w);
    ContainsPrefix(w, w);
    PhraseBlocks(w, i, j);
  }

  /** The optional group blocks the instruction-override phrase with and
      without "previous". */
  lemma IgnoreInstructionsBlocked()
    ensures MatchesBlocklist("ignore instructions")
    ensures MatchesBlocklist("ignore previous instructions")
  {
    PhraseAlone(0, 0);
    assert BlocklistPatterns[0].phrases[0] == "ignore instructions";
    PhraseAlone(0, 1);
    assert BlocklistPatterns[0].phrases[1] == "ignore previous instructions";
  }

  /** Both arms of the security-bypass alternation are blocked. */
  lemma BypassBlocked()
    ensures MatchesBlocklist("bypass security")
    ensures MatchesBlocklist("bypass filters")
  {
    PhraseAlone(1, 0);
    assert BlocklistPatterns[1].phrases[0] == "bypass security";
    PhraseAlone(1, 1);
    assert BlocklistPatterns[1].phrases[1] == "bypass filters";
  }

  /** Both arms of the credential-exfiltration alternation are blocked. */
  lemma SendApiKeyBlocked()
    ensures MatchesBlocklist("send your api key")
    ensures MatchesBlocklist("send my api key")
  {
    PhraseAlone(4, 0);
    assert BlocklistPatterns[4].phrases[0] == "send your api key";
    PhraseAlone(4, 1);
    assert BlocklistPatterns[4].phrases[1] == "send my api key";
  }

  /** Any spelling of an expansion that differs from it in case only is
      blocked too, in any surrounding text. */
  lemma CaseVariantsBlocked(a: string, s: string, b: string, i: int, j: int)
    requires 0 <= i < |BlocklistPatterns| && 0 <= j < |BlocklistPatterns[i].phrases|
    requires AsciiLower(s) == BlocklistPatterns[i].phrases[j]
    ensures MatchesBlocklist(a + s + b)
  {
    ContainsPrefix(AsciiLower(s), AsciiLower(s));
    PhraseBlocks(s, i, j);
    BlocklistMonotone(a, s, b);
  }

  /** The all-capitals spelling of every expansion is blocked too, in any
      surrounding text. */
  lemma UpperCaseBlocked(a: string, i: int, j: int, b: string)
    requires 0 <= i < |BlocklistPatterns| && 0 <= j < |BlocklistPatterns[i].phrases|
    ensures MatchesBlocklist(a + AsciiUpper(BlocklistPatterns[i].phrases[j]) + b)
  {
    PhraseShape(i, j);
    LowerOfUpper(BlocklistPatterns[i].phrases[j]);
    CaseVariantsBlocked(a, AsciiUpper(BlocklistPatterns[i].phrases[j]), b, i, j);
  }

  /** "exfiltration" contains the bare prefix pattern. */
  lemma ExfiltrationBlocked()
    ensures MatchesBlocklist("exfiltration")
  {
    ExfiltratPrefix("", "ion");
    assert "" + "exfiltrat" + "ion" == "exfiltration";
  }
}
