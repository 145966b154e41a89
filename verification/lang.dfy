/** `normalizeLang` of server.js: reduces a raw language identifier to the
    leading run of ASCII lowercase letters, or to null for absent, blank and
    sentinel values. */
module Lang {
  import opened JsText

  /** Values that, after trimming and lowercasing, mean "no language". */
  const Sentinels: set<string> := {"unknown", "und", "undefined", "null"}

  predicate IsAsciiLower(c: char)
  {
    'a' <= c <= 'z'
  }

  /** A string made only of `a`–`z` (possibly empty). */
  predicate IsCode(s: string)
  {
    forall i :: 0 <= i < |s| ==> IsAsciiLower(s[i])
  }

  /** What a session's `detectedLanguage` may hold: null or a code. */
  predicate IsLangState(l: Option<string>)
  {
    l.None? || IsCode(l.value)
  }

  /** `String(code).trim().toLowerCase()` */
  function Canonical(s: string): string
  {
    Lower(Trim(s))
  }

  /** `normalizeLang(code)`. It is null exactly for a falsy input, a blank
      input, and the four sentinels; otherwise it is the longest prefix of
      the trimmed, lowercased input made only of `a`–`z`. */
  function NormalizeLang(code: Option<string>): (r: Option<string>)
    ensures r.None? <==> !Truthy(code) || Canonical(code.value) == "" || Canonical(code.value) in Sentinels
    ensures r.Some? ==>
              var s := Canonical(code.value);
              && IsCode(r.value)
              && IsPrefix(r.value, s)
              && (|r.value| == |s| || !IsAsciiLower(s[|r.value|]))
    ensures IsLangState(r)
  {
    if !Truthy(code) then None
    else
      var s := Canonical(code.value);
      if s == "" || s in Sentinels then None
      else Some(TakeWhile(s, IsAsciiLower))
  }

  /** A white-space-only input normalises to null, like an absent one. */
  lemma NormalizeBlank(s: string)
    requires AllSpace(s)
    ensures NormalizeLang(Some(s)) == None
  {
    assert Trim(s) == [];
  }

  /** A code is returned unchanged by `normalizeLang` exactly when it is
      non-empty and not a sentinel. */
  lemma NormalizeFixedPoint(c: string)
    requires IsCode(c)
    ensures Canonical(c) == c
    ensures NormalizeLang(Some(c)) == Some(c) <==> (c != "" && c !in Sentinels)
  {
    if c != [] {
      assert !IsSpace(c[0]) && !IsSpace(c[|c| - 1]) by {
        assert IsAsciiLower(c[0]) && IsAsciiLower(c[|c| - 1]);
      }
      assert TrimStart(c) == c;
      assert TrimEnd(c) == c;
    }
    assert Trim(c) == c;
    assert Lower(c) == c;
    if c != "" && c !in Sentinels {
      var t := TakeWhile(c, IsAsciiLower);
      assert |t| == |c|;
      assert t == c[..|t|];
    }
  }

  /** Normalising twice gives the first result back, except that a result
      of `""` or of a sentinel (reachable from `"-en"` or `"und-Latn"`)
      turns into null. */
  lemma NormalizeTwice(code: Option<string>)
    ensures var r := NormalizeLang(code);
            NormalizeLang(r) == if r.Some? && r.value != "" && r.value !in Sentinels then r else None
  {
    var r := NormalizeLang(code);
    if r.Some? {
      assert IsCode(r.value);
      NormalizeFixedPoint(r.value);
    }
  }

  /** A string with no white space at either end is its own trim. */
  lemma TrimUntouched(s: string)
    requires s != [] && !IsSpace(s[0]) && !IsSpace(s[|s| - 1])
    ensures Trim(s) == s
  {
    assert TrimStart(s) == s;
    assert TrimEnd(s) == s;
  }

  /** `normalizeLang` of a raw value, given its canonical form. */
  lemma NormalizeVia(raw: string, canonical: string)
    requires raw != "" && Canonical(raw) == canonical && canonical != "" && canonical !in Sentinels
    ensures NormalizeLang(Some(raw)) == Some(TakeWhile(canonical, IsAsciiLower))
  {
  }

  /** A region suffix is cut: `"EN-US"` normalises to `"en"`. */
  lemma NormalizeRegionTag()
    ensures NormalizeLang(Some("EN-US")) == Some("en")
  {
    CanonicalRegionTag();
    NormalizeVia("EN-US", "en-us");
    assert "en-us"[0] == 'e' && "en-us"[1] == 'n' && "en-us"[2] == '-';
    TakeWhileStops("en-us", IsAsciiLower, 2);
    assert "en-us"[..2] == "en";
  }

  lemma CanonicalRegionTag()
    ensures Canonical("EN-US") == "en-us"
  {
    TrimUntouched("EN-US");
  }

  /** A leading separator leaves the empty code, not null. */
  lemma NormalizeLeadingSeparator()
    ensures NormalizeLang(Some("-en")) == Some("")
  {
    TrimUntouched("-en");
    NormalizeVia("-en", "-en");
  }

  /** The sentinel test comes before the split, so `"und-Latn"` yields the
      sentinel `"und"` itself. */
  lemma NormalizeSentinelWithScript()
    ensures NormalizeLang(Some("und-Latn")) == Some("und")
  {
    CanonicalWithScript();
    NormalizeVia("und-Latn", "und-latn");
    assert "und-latn"[0] == 'u' && "und-latn"[1] == 'n' && "und-latn"[2] == 'd' && "und-latn"[3] == '-';
    TakeWhileStops("und-latn", IsAsciiLower, 3);
    assert "und-latn"[..3] == "und";
  }

  lemma CanonicalWithScript()
    ensures Canonical("und-Latn") == "und-latn"
  {
    TrimUntouched("und-Latn");
  }

  /** A sentinel in capitals with white space around it is null. */
  lemma NormalizePaddedSentinel(before: string, after: string)
    requires AllSpace(before) && AllSpace(after)
    ensures NormalizeLang(Some(before + "Unknown" + after)) == None
  {
    var raw := before + "Unknown" + after;
    TrimIgnoresPadding(before, "Unknown", after);
    CanonicalUnknown();
    assert |raw| >= 7;
    NormalizeSentinel(raw, "unknown");
  }

  /** A raw value whose canonical form is a sentinel normalises to null. */
  lemma NormalizeSentinel(raw: string, canonical: string)
    requires raw != "" && Canonical(raw) == canonical && canonical in Sentinels
    ensures NormalizeLang(Some(raw)) == None
  {
  }

  lemma CanonicalUnknown()
    ensures Canonical("Unknown") == "unknown"
  {
    TrimUntouched("Unknown");
  }
}
