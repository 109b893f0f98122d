/** JavaScript's `String.prototype.trim`. */
module Text {

  /** The characters `trim` removes: ECMAScript's WhiteSpace (tab, vertical tab, form
      feed, space, no-break space, the byte order mark and the space separators of
      category Zs) and LineTerminator (line feed, carriage return, line and paragraph
      separators). */
  predicate IsWhitespace(c: char) {
    || ('\t' <= c <= '\r') || c == ' ' || c == '\U{00A0}' || c == '\U{1680}'
    || ('\U{2000}' <= c <= '\U{200A}')
    || c == '\U{2028}' || c == '\U{2029}' || c == '\U{202F}' || c == '\U{205F}'
    || c == '\U{3000}' || c == '\U{FEFF}'
  }

  predicate AllWhitespace(s: string) {
    forall i | 0 <= i < |s| :: IsWhitespace(s[i])
  }

  /** `s` neither starts nor ends with whitespace. */
  predicate Trimmed(s: string) {
    s == [] || (!IsWhitespace(s[0]) && !IsWhitespace(s[|s| - 1]))
  }

  /** `s.trim()`: drops the leading and the trailing whitespace. The result starts
      and ends with a non-whitespace character, and is empty exactly when `s` is
      blank. */
  function Trim(s: string): (r: string)
    ensures |r| <= |s|
    ensures Trimmed(r)
    ensures r == [] <==> AllWhitespace(s)
    decreases |s|
  {
    if |s| > 0 && IsWhitespace(s[0]) then
      assert AllWhitespace(s) <==> AllWhitespace(s[1..]) by {
        if AllWhitespace(s[1..]) {
          forall i | 0 <= i < |s| ensures IsWhitespace(s[i]) {
            if i > 0 { assert s[i] == s[1..][i - 1]; }
          }
        }
      }
      Trim(s[1..])
    else if |s| > 0 && IsWhitespace(s[|s| - 1]) then
      assert AllWhitespace(s) <==> AllWhitespace(s[..|s| - 1]) by {
        if AllWhitespace(s[..|s| - 1]) {
          forall i | 0 <= i < |s| ensures IsWhitespace(s[i]) {
            if i < |s| - 1 { assert s[i] == s[..|s| - 1][i]; }
          }
        }
      }
      Trim(s[..|s| - 1])
    else
      s
  }

  /** The number of whitespace characters `s` starts with. */
  function LeadingWhitespace(s: string): (n: nat)
    ensures n <= |s|
  {
    if |s| > 0 && IsWhitespace(s[0]) then 1 + LeadingWhitespace(s[1..]) else 0
  }

  /** What `trim` removes is whitespace and nothing else: the result is the infix of
      `s` that starts after its leading whitespace, and what follows it is
      whitespace too. */
  lemma {:induction false} TrimDropsOnlyWhitespace(s: string)
    ensures var lo := LeadingWhitespace(s);
            && lo + |Trim(s)| <= |s|
            && Trim(s) == s[lo..lo + |Trim(s)|]
            && AllWhitespace(s[..lo])
            && AllWhitespace(s[lo + |Trim(s)|..])
    decreases |s|
  {
    if |s| > 0 && IsWhitespace(s[0]) {
      TrimDropsLeading(s);
    } else if |s| > 0 && IsWhitespace(s[|s| - 1]) {
      TrimDropsTrailing(s);
    } else {
      assert s[0..|s|] == s && s[..0] == [] && s[|s|..] == [];
    }
  }

  /** The case of a leading whitespace character, which `trim` drops first. */
  lemma {:induction false} TrimDropsLeading(s: string)
    requires |s| > 0 && IsWhitespace(s[0])
    ensures var lo := LeadingWhitespace(s);
            && lo + |Trim(s)| <= |s|
            && Trim(s) == s[lo..lo + |Trim(s)|]
            && AllWhitespace(s[..lo])
            && AllWhitespace(s[lo + |Trim(s)|..])
    decreases |s|, 0
  {
    var s', r := s[1..], Trim(s);
    TrimDropsOnlyWhitespace(s');
    var lo := LeadingWhitespace(s');
    assert r == Trim(s') && LeadingWhitespace(s) == lo + 1;
    assert r == s[lo + 1..lo + 1 + |r|];
    assert AllWhitespace(s[..lo + 1]) by {
      forall i | 0 <= i <= lo ensures IsWhitespace(s[i]) {
        if i > 0 { assert s[i] == s'[..lo][i - 1]; }
      }
    }
    assert s[lo + 1 + |r|..] == s'[lo + |r|..];
  }

  /** The case of a trailing whitespace character after a non-whitespace start. */
  lemma {:induction false} TrimDropsTrailing(s: string)
    requires |s| > 0 && !IsWhitespace(s[0]) && IsWhitespace(s[|s| - 1])
    ensures var lo := LeadingWhitespace(s);
            && lo + |Trim(s)| <= |s|
            && Trim(s) == s[lo..lo + |Trim(s)|]
            && AllWhitespace(s[..lo])
            && AllWhitespace(s[lo + |Trim(s)|..])
    decreases |s|, 0
  {
    var s', r := s[..|s| - 1], Trim(s);
    TrimDropsOnlyWhitespace(s');
    assert r == Trim(s') && LeadingWhitespace(s) == 0;
    assert LeadingWhitespace(s') == 0 by {
      if |s'| > 0 { assert s'[0] == s[0]; }
    }
    assert r == s[0..|r|];
    assert s[..0] == [];
    forall i | 0 <= i < |s| - |r| ensures IsWhitespace(s[|r|..][i]) {
      if i < |s| - |r| - 1 { assert s[|r|..][i] == s'[|r|..][i]; }
    }
  }

  /** Trimming an already trimmed string changes nothing. */
  lemma TrimOfTrimmed(s: string)
    requires Trimmed(s)
    ensures Trim(s) == s
  {
  }

  /** `trim` is idempotent. */
  lemma TrimIdempotent(s: string)
    ensures Trim(Trim(s)) == Trim(s)
  {
    TrimOfTrimmed(Trim(s));
  }
}
