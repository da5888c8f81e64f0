/** `LLMHandler.extract_json` of models/llm_handler.py: remove the Markdown
    code fences, trim the text, and return the substring from the first '{'
    to the point where the braces first balance.  Parsing that substring as
    JSON is left to the caller, so the model returns the substring. */
module JsonExtraction {
  import opened Common

  // ---------------------------------------------------------------------------
  // Fence removal and trimming
  // ---------------------------------------------------------------------------

  /** `pat` occurs somewhere in `s`. */
  predicate Contains(s: string, pat: string)
    decreases |s|
  {
    |s| >= |pat| && (s[..|pat|] == pat || (s != [] && Contains(s[1..], pat)))
  }

  /** `s.replace(pat, "")`: occurrences are removed left to right without
      overlapping; what remains keeps its order, and a text without the
      pattern is returned as it is. */
  function RemoveAll(s: string, pat: string): (r: string)
    requires pat != []
    ensures IsSubsequence(r, s)
    ensures !Contains(s, pat) ==> r == s
    ensures |r| <= |s|
    decreases |s|
  {
    if |s| < |pat| then
      SubsequenceRefl(s);
      s
    else if s[..|pat|] == pat then
      var rest := RemoveAll(s[|pat|..], pat);
      SubsequenceOfSuffix(rest, s, |pat|);
      rest
    else
      var rest := RemoveAll(s[1..], pat);
      assert s == [s[0]] + s[1..];
      assert ([s[0]] + rest)[1..] == rest;
      [s[0]] + rest
  }

  /** The characters `str.strip()` removes: those for which `str.isspace()`
      holds. */
  predicate IsSpace(c: char) {
    || c == ' ' || '\t' <= c <= '\r' || '\U{1C}' <= c <= '\U{1F}'
    || c == '\U{85}' || c == '\U{A0}' || c == '\U{1680}' || '\U{2000}' <= c <= '\U{200A}'
    || c == '\U{2028}' || c == '\U{2029}' || c == '\U{202F}' || c == '\U{205F}' || c == '\U{3000}'
  }

  function StripLeft(s: string): (r: string)
    ensures |r| <= |s| && r == s[|s| - |r|..]
    ensures r != [] ==> !IsSpace(r[0])
    ensures forall i :: 0 <= i < |s| - |r| ==> IsSpace(s[i])
  {
    if s != [] && IsSpace(s[0]) then StripLeft(s[1..]) else s
  }

  function StripRight(s: string): (r: string)
    ensures |r| <= |s| && r == s[..|r|]
    ensures r != [] ==> !IsSpace(r[|r| - 1])
    ensures forall i :: |r| <= i < |s| ==> IsSpace(s[i])
  {
    if s != [] && IsSpace(s[|s| - 1]) then StripRight(s[..|s| - 1]) else s
  }

  /** `str.strip()`: white space cut from both ends, and only white space:
      the result is the slice of `s` that starts after its leading white space
      and is followed only by white space. */
  function Strip(s: string): (r: string)
    ensures var i := |s| - |StripLeft(s)|;
      && i + |r| <= |s| && r == s[i..i + |r|]
      && (forall k :: 0 <= k < i ==> IsSpace(s[k]))
      && (forall k :: i + |r| <= k < |s| ==> IsSpace(s[k]))
    ensures r != [] ==> !IsSpace(r[0]) && !IsSpace(r[|r| - 1])
  {
    var l := StripLeft(s);
    var r := StripRight(l);
    StripInside(s, l, r);
    r
  }

  /** A prefix of a suffix is a middle slice, and what the prefix leaves of
      the suffix is the end of the whole. */
  lemma StripInside(s: string, l: string, r: string)
    requires |l| <= |s| && l == s[|s| - |l|..]
    requires forall k :: 0 <= k < |s| - |l| ==> IsSpace(s[k])
    requires l != [] ==> !IsSpace(l[0])
    requires |r| <= |l| && r == l[..|r|]
    requires forall k :: |r| <= k < |l| ==> IsSpace(l[k])
    requires r != [] ==> !IsSpace(r[|r| - 1])
    ensures var i := |s| - |l|;
      && i + |r| <= |s| && r == s[i..i + |r|]
      && (forall k :: 0 <= k < i ==> IsSpace(s[k]))
      && (forall k :: i + |r| <= k < |s| ==> IsSpace(s[k]))
    ensures r != [] ==> !IsSpace(r[0]) && !IsSpace(r[|r| - 1])
  {
    var i := |s| - |l|;
    forall k | i + |r| <= k < |s|
      ensures IsSpace(s[k])
    {
      assert s[k] == l[k - i];
    }
    assert s[i..i + |r|] == l[..|r|];
    if r != [] {
      assert r[0] == l[0];
    }
  }

  /** The cleaning step of `extract_json`: every "```json", then every "```",
      removed, then the text trimmed. */
  function Clean(text: string): string {
    Strip(RemoveAll(RemoveAll(text, "```json"), "```"))
  }

  /** The braces of a text, in order. */
  function Braces(s: string): string {
    if s == [] then [] else BraceOf(s[0]) + Braces(s[1..])
  }

  /** A brace as a one-character text; any other character as nothing. */
  function BraceOf(c: char): string {
    if c == '{' || c == '}' then [c] else []
  }

  lemma {:induction false} BracesAppend(a: string, b: string)
    ensures Braces(a + b) == Braces(a) + Braces(b)
    decreases |a|
  {
    if a == [] {
      assert [] + b == b;
    } else {
      var ab := a + b;
      assert ab[0] == a[0] && ab[1..] == a[1..] + b;
      BracesAppend(a[1..], b);
      calc {
        Braces(ab);
        BraceOf(a[0]) + Braces(a[1..] + b);
        BraceOf(a[0]) + (Braces(a[1..]) + Braces(b));
        (BraceOf(a[0]) + Braces(a[1..])) + Braces(b);
      }
    }
  }

  /** Removing a pattern without braces keeps the braces of the text. */
  lemma {:induction false} RemoveAllKeepsBraces(s: string, pat: string)
    requires pat != []
    requires '{' !in pat && '}' !in pat
    ensures Braces(RemoveAll(s, pat)) == Braces(s)
    decreases |s|
  {
    if |s| < |pat| {
    } else if s[..|pat|] == pat {
      RemoveAllKeepsBraces(s[|pat|..], pat);
      assert s == s[..|pat|] + s[|pat|..];
      BracesAppend(s[..|pat|], s[|pat|..]);
      NoBraces(pat);
    } else {
      RemoveAllKeepsBraces(s[1..], pat);
    }
  }

  lemma {:induction false} NoBraces(s: string)
    requires '{' !in s && '}' !in s
    ensures Braces(s) == []
    decreases |s|
  {
    if s != [] {
      NoBraces(s[1..]);
    }
  }

  lemma {:induction false} StripLeftKeepsBraces(s: string)
    ensures Braces(StripLeft(s)) == Braces(s)
    decreases |s|
  {
    if s != [] && IsSpace(s[0]) {
      StripLeftKeepsBraces(s[1..]);
    }
  }

  lemma {:induction false} StripRightKeepsBraces(s: string)
    ensures Braces(StripRight(s)) == Braces(s)
    decreases |s|
  {
    if s != [] && IsSpace(s[|s| - 1]) {
      var init := s[..|s| - 1];
      StripRightKeepsBraces(init);
      assert s == init + [s[|s| - 1]];
      BracesAppend(init, [s[|s| - 1]]);
      assert Braces([s[|s| - 1]]) == [] by {
        assert [s[|s| - 1]][1..] == [];
      }
    }
  }

  /** The cleaning steps never add, drop or reorder a brace. */
  lemma {:induction false} CleanKeepsBraces(text: string)
    ensures Braces(Clean(text)) == Braces(text)
  {
    RemoveAllKeepsBraces(text, "```json");
    RemoveAllKeepsBraces(RemoveAll(text, "```json"), "```");
    StripLeftKeepsBraces(RemoveAll(RemoveAll(text, "```json"), "```"));
    StripRightKeepsBraces(StripLeft(RemoveAll(RemoveAll(text, "```json"), "```")));
  }

  // ---------------------------------------------------------------------------
  // The brace scan
  // ---------------------------------------------------------------------------

  /** What one character adds to the brace count. */
  function Delta(c: char): int {
    if c == '{' then 1 else if c == '}' then -1 else 0
  }

  /** The number of '{' minus the number of '}'. */
  function Depth(s: string): int {
    if s == [] then 0 else Depth(s[..|s| - 1]) + Delta(s[|s| - 1])
  }

  lemma DepthStep(s: string, start: int, i: int)
    requires 0 <= start <= i < |s|
    ensures Depth(s[start..i + 1]) == Depth(s[start..i]) + Delta(s[i])
  {
    assert s[start..i + 1][..i - start] == s[start..i];
  }

  /** `s.find(c)`: the first index of `c`, or -1. */
  function Find(s: string, c: char): (i: int)
    ensures -1 <= i < |s|
    ensures i == -1 <==> c !in s
    ensures i >= 0 ==> s[i] == c && c !in s[..i]
  {
    if s == [] then -1
    else if s[0] == c then 0
    else
      var j := Find(s[1..], c);
      if j == -1 then -1
      else
        assert s[..j + 1] == [s[0]] + s[1..][..j];
        j + 1
  }

  /** `s[start..end]` is where the scan from `start` stops: it balances there
      and at no earlier end, since every shorter non-empty span has more
      opening than closing braces. */
  predicate IsFirstBalance(s: string, start: int, end: int) {
    && 0 <= start < end <= |s|
    && Depth(s[start..end]) == 0
    && forall k :: start < k < end ==> Depth(s[start..k]) > 0
  }

  /** The loop over `range(start, len(text))`: counts braces from `start`
      and returns the span at the first point of balance. */
  method ScanFrom(s: string, start: int) returns (r: Result<string>)
    requires 0 <= start < |s| && s[start] == '{'
    ensures r.Failure? ==> r == Failure(IncompleteJson)
    ensures r.Success? <==> exists e :: start < e <= |s| && Depth(s[start..e]) == 0
    ensures r.Success? ==> IsFirstBalance(s, start, start + |r.value|) && r.value == s[start..start + |r.value|]
  {
    var bracketCount := 0;
    for i := start to |s|
      invariant bracketCount == Depth(s[start..i])
      invariant forall k :: start < k <= i ==> Depth(s[start..k]) > 0
    {
      DepthStep(s, start, i);
      if s[i] == '{' {
        bracketCount := bracketCount + 1;
      } else if s[i] == '}' {
        bracketCount := bracketCount - 1;
        if bracketCount == 0 {
          return Success(s[start..i + 1]);
        }
      }
    }
    return Failure(IncompleteJson);
  }

  /** The scan on cleaned text: the first '{', then the loop. */
  method ExtractFromCleaned(c: string) returns (r: Result<string>)
    ensures '{' !in c ==> r == Failure(NoJsonObject)
    ensures '{' in c && r.Failure? ==> r == Failure(IncompleteJson)
    ensures '{' in c ==> (r.Success? <==> exists e :: Find(c, '{') < e <= |c| && Depth(c[Find(c, '{')..e]) == 0)
    ensures r.Success? ==> '{' in c && IsFirstBalance(c, Find(c, '{'), Find(c, '{') + |r.value|)
    ensures r.Success? ==> r.value == c[Find(c, '{')..Find(c, '{') + |r.value|]
  {
    var start := Find(c, '{');
    if start == -1 {
      return Failure(NoJsonObject);
    }
    r := ScanFrom(c, start);
  }

  /** `extract_json(text)`: the scan runs on the cleaned text. */
  method ExtractJson(text: string) returns (r: Result<string>)
    ensures var c := Clean(text);
      && ('{' !in c ==> r == Failure(NoJsonObject))
      && ('{' in c && r.Failure? ==> r == Failure(IncompleteJson))
      && ('{' in c ==> (r.Success? <==> exists e :: Find(c, '{') < e <= |c| && Depth(c[Find(c, '{')..e]) == 0))
      && (r.Success? ==> '{' in c && IsFirstBalance(c, Find(c, '{'), Find(c, '{') + |r.value|)
                          && r.value == c[Find(c, '{')..Find(c, '{') + |r.value|])
  {
    r := ExtractFromCleaned(Clean(text));
  }

  /** There is only one first point of balance. */
  lemma FirstBalanceUnique(s: string, start: int, e1: int, e2: int)
    requires IsFirstBalance(s, start, e1) && IsFirstBalance(s, start, e2)
    ensures e1 == e2
  {
  }

  /** Text after the extracted span is never read. */
  lemma {:induction false} SuffixIgnored(s: string, t: string, start: int, end: int)
    requires IsFirstBalance(s, start, end)
    ensures IsFirstBalance(s + t, start, end)
  {
    assert (s + t)[start..end] == s[start..end];
    forall k | start < k < end ensures Depth((s + t)[start..k]) > 0 {
      assert (s + t)[start..k] == s[start..k];
    }
  }

  /** Braces inside string literals are counted: in `{"a":"}"}` the scan stops
      at the '}' inside the string, and the span it returns is `{"a":"}`. */
  lemma {:induction false} BraceInStringEndsSpan()
    ensures IsFirstBalance("{\"a\":\"}\"}", 0, 7)
    ensures "{\"a\":\"}\"}"[0..7] == "{\"a\":\"}"
  {
    var s := "{\"a\":\"}\"}";
    assert s[..0] == [];
    DepthStep(s, 0, 0);
    DepthStep(s, 0, 1);
    DepthStep(s, 0, 2);
    DepthStep(s, 0, 3);
    DepthStep(s, 0, 4);
    DepthStep(s, 0, 5);
    DepthStep(s, 0, 6);
  }
}
