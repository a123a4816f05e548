/** Cleaning of the decision-maker's free-text answer before it is compared
    with the candidate actions: `re.sub(r"[^a-z-]", "", text.strip().lower())`. */
module Sanitize {
  import opened BattleState

  /** The characters `str.strip()` removes that this model knows about. */
  predicate IsWhitespace(c: char) {
    c == ' ' || c == '\t' || c == '\n' || c == '\r' || c == '\U{0B}' || c == '\U{0C}'
    || c == '\U{1C}' || c == '\U{1D}' || c == '\U{1E}' || c == '\U{1F}' || c == '\U{85}' || c == '\U{A0}'
  }

  function StripLeft(s: string): string {
    if s != [] && IsWhitespace(s[0]) then StripLeft(s[1..]) else s
  }

  function StripRight(s: string): string {
    if s != [] && IsWhitespace(s[|s| - 1]) then StripRight(s[..|s| - 1]) else s
  }

  /** `str.strip()` */
  function Strip(s: string): string {
    StripRight(StripLeft(s))
  }

  /** The characters the answer may keep: `[a-z-]`. */
  predicate Allowed(c: char) {
    'a' <= c <= 'z' || c == '-'
  }

  /** `re.sub(r"[^a-z-]", "", s)` */
  function KeepAllowed(s: string): (r: string)
    ensures forall i :: 0 <= i < |r| ==> Allowed(r[i])
    ensures |r| <= |s|
  {
    if s == [] then [] else (if Allowed(s[0]) then [s[0]] else []) + KeepAllowed(s[1..])
  }

  /** `sanitize_model_response` */
  function SanitizeResponse(text: string): (r: string)
    ensures forall i :: 0 <= i < |r| ==> Allowed(r[i])
  {
    KeepAllowed(Lower(Strip(text)))
  }

  /** What remains after lowering and filtering, without the strip. */
  function Clean(s: string): string {
    KeepAllowed(Lower(s))
  }

  lemma {:induction false} LowerAppend(a: string, b: string)
    ensures Lower(a + b) == Lower(a) + Lower(b)
  {
    var ab, la, lb := a + b, Lower(a), Lower(b);
    var whole, parts := Lower(ab), la + lb;
    assert |whole| == |parts|;
    forall i | 0 <= i < |ab| ensures whole[i] == parts[i] {
      if i < |a| {
        assert ab[i] == a[i];
        assert parts[i] == la[i];
      } else {
        assert ab[i] == b[i - |a|];
        assert parts[i] == lb[i - |a|];
      }
    }
  }

  lemma {:induction false} KeepAllowedAppend(a: string, b: string)
    ensures KeepAllowed(a + b) == KeepAllowed(a) + KeepAllowed(b)
  {
    if a == [] {
      assert a + b == b;
    } else {
      KeepAllowedAppend(a[1..], b);
      var head := if Allowed(a[0]) then [a[0]] else [];
      assert (a + b)[0] == a[0];
      assert (a + b)[1..] == a[1..] + b;
      calc {
        KeepAllowed(a + b);
        head + KeepAllowed(a[1..] + b);
        head + (KeepAllowed(a[1..]) + KeepAllowed(b));
        (head + KeepAllowed(a[1..])) + KeepAllowed(b);
        KeepAllowed(a) + KeepAllowed(b);
      }
    }
  }

  lemma CleanAppend(a: string, b: string)
    ensures Clean(a + b) == Clean(a) + Clean(b)
  {
    LowerAppend(a, b);
    KeepAllowedAppend(Lower(a), Lower(b));
  }

  lemma {:induction false} CleanStripLeft(s: string)
    ensures Clean(StripLeft(s)) == Clean(s)
  {
    if s != [] && IsWhitespace(s[0]) {
      CleanStripLeft(s[1..]);
      CleanAppend([s[0]], s[1..]);
      assert [s[0]] + s[1..] == s;
    }
  }

  lemma {:induction false} CleanStripRight(s: string)
    ensures Clean(StripRight(s)) == Clean(s)
  {
    if s != [] && IsWhitespace(s[|s| - 1]) {
      CleanStripRight(s[..|s| - 1]);
      CleanAppend(s[..|s| - 1], [s[|s| - 1]]);
      assert s[..|s| - 1] + [s[|s| - 1]] == s;
    }
  }

  /** Stripping never matters: whitespace is not an allowed character, so the
      answer is the lowered text with every disallowed character dropped. */
  lemma StripIsIrrelevant(text: string)
    ensures SanitizeResponse(text) == KeepAllowed(Lower(text))
  {
    CleanStripLeft(text);
    CleanStripRight(StripLeft(text));
  }

  /** An answer already made of allowed characters comes back unchanged. */
  lemma {:induction false} AllowedIsFixedPoint(s: string)
    requires forall i :: 0 <= i < |s| ==> Allowed(s[i])
    ensures SanitizeResponse(s) == s
  {
    StripIsIrrelevant(s);
    KeepAllowedLowerFixed(s);
  }

  lemma {:induction false} KeepAllowedLowerFixed(s: string)
    requires forall i :: 0 <= i < |s| ==> Allowed(s[i])
    ensures KeepAllowed(Lower(s)) == s
  {
    if s != [] {
      KeepAllowedLowerFixed(s[1..]);
    }
  }

  /** The cleaned answer holds only `a`-`z` and `-`, and cleaning it again
      changes nothing. */
  lemma SanitizeIdempotent(text: string)
    ensures forall i :: 0 <= i < |SanitizeResponse(text)| ==> Allowed(SanitizeResponse(text)[i])
    ensures SanitizeResponse(SanitizeResponse(text)) == SanitizeResponse(text)
  {
    AllowedIsFixedPoint(SanitizeResponse(text));
  }

  /** Upper-case letters survive as their lower-case forms, in order: a
      letter-only answer in any case cleans to its lower-case spelling. */
  lemma {:induction false} LettersAreLowered(s: string)
    requires forall i :: 0 <= i < |s| ==> 'A' <= s[i] <= 'Z' || 'a' <= s[i] <= 'z' || s[i] == '-'
    ensures SanitizeResponse(s) == Lower(s)
  {
    StripIsIrrelevant(s);
    LettersAreLoweredClean(s);
  }

  lemma {:induction false} LettersAreLoweredClean(s: string)
    requires forall i :: 0 <= i < |s| ==> 'A' <= s[i] <= 'Z' || 'a' <= s[i] <= 'z' || s[i] == '-'
    ensures KeepAllowed(Lower(s)) == Lower(s)
  {
    if s != [] {
      LettersAreLoweredClean(s[1..]);
    }
  }
}
