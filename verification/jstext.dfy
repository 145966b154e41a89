/** The pieces of JavaScript value and string semantics that the relay code
    relies on: optional values and their truthiness, `String.prototype.trim`,
    `toLowerCase` on ASCII letters, and taking the leading run of a string. */
module JsText {

  /** A value that may be absent (`undefined` or `null` in JavaScript). */
  datatype Option<+T> = None | Some(value: T)

  /** `!!v` for a value that is absent or a string: only a present,
      non-empty string is truthy. */
  predicate Truthy(v: Option<string>)
  {
    v.Some? && v.value != ""
  }

  /** `a || b` on optional strings. */
  function Or(a: Option<string>, b: Option<string>): Option<string>
  {
    if Truthy(a) then a else b
  }

  /** The characters `String.prototype.trim` removes and `\s` matches:
      ECMAScript WhiteSpace and LineTerminator code points. */
  predicate IsSpace(c: char)
  {
    || c == ' ' || c == '\t' || c == '\n' || c == '\r'
    || c == '\U{000B}' || c == '\U{000C}' || c == '\U{00A0}' || c == '\U{FEFF}'
    || c == '\U{1680}' || ('\U{2000}' <= c <= '\U{200A}')
    || c == '\U{2028}' || c == '\U{2029}' || c == '\U{202F}' || c == '\U{205F}'
    || c == '\U{3000}'
  }

  predicate AllSpace(s: string)
  {
    forall i :: 0 <= i < |s| ==> IsSpace(s[i])
  }

  predicate IsPrefix(p: string, s: string)
  {
    |p| <= |s| && s[..|p|] == p
  }

  /** Drops leading white space. */
  function TrimStart(s: string): (r: string)
    ensures |r| <= |s| && r == s[|s| - |r|..]
    ensures AllSpace(s[..|s| - |r|])
    ensures r == [] || !IsSpace(r[0])
  {
    if s != [] && IsSpace(s[0]) then TrimStart(s[1..]) else s
  }

  /** Drops trailing white space. */
  function TrimEnd(s: string): (r: string)
    ensures IsPrefix(r, s)
    ensures AllSpace(s[|r|..])
    ensures r == [] || !IsSpace(r[|r| - 1])
  {
    if s != [] && IsSpace(s[|s| - 1]) then
      var r := TrimEnd(s[..|s| - 1]);
      assert s[|r|..] == s[..|s| - 1][|r|..] + [s[|s| - 1]];
      r
    else
      s
  }

  /** `s.trim()`: no white space is left at either end, the result is no
      longer than `s`, and it is empty exactly when `s` is all white space.
      What it keeps is the middle of `s` (`TrimIsMiddle`). */
  function Trim(s: string): (r: string)
    ensures |r| <= |s|
    ensures r == [] || (!IsSpace(r[0]) && !IsSpace(r[|r| - 1]))
    ensures r == [] <==> AllSpace(s)
  {
    TrimEmpty(s);
    TrimEnd(TrimStart(s))
  }

  /** `r` is what remains of `s` when `k` characters are cut from its start
      and the rest after `r`, both cut margins being all white space. */
  predicate SpaceMargins(s: string, k: nat, r: string)
  {
    k + |r| <= |s| && r == s[k..k + |r|] && AllSpace(s[..k]) && AllSpace(s[k + |r|..])
  }

  /** `s.trim()` is `s` with an all-white-space margin cut from each end,
      the first margin being the one `TrimStart` drops. */
  lemma TrimIsMiddle(s: string)
    ensures SpaceMargins(s, |s| - |TrimStart(s)|, Trim(s))
  {
    var t := TrimStart(s);
    MarginsCompose(s, t, TrimEnd(t), |s| - |t|);
  }

  /** Cutting a white-space start and then a white-space end leaves the
      middle between two white-space margins. */
  lemma MarginsCompose(s: string, t: string, r: string, k: nat)
    requires k <= |s| && t == s[k..] && AllSpace(s[..k])
    requires IsPrefix(r, t) && AllSpace(t[|r|..])
    ensures SpaceMargins(s, k, r)
  {
    assert s[k..k + |r|] == t[..|r|];
    assert s[k + |r|..] == t[|r|..];
  }

  lemma TrimEmpty(s: string)
    ensures TrimEnd(TrimStart(s)) == [] <==> AllSpace(s)
  {
    var t := TrimStart(s);
    var k := |s| - |t|;
    assert t == s[k..];
    if TrimEnd(t) == [] {
      assert t == [];
      assert s[..k] == s;
    } else {
      assert s[k] == TrimEnd(t)[0];
    }
  }

  function LowerChar(c: char): char
  {
    if 'A' <= c <= 'Z' then (c as int + 32) as char else c
  }

  /** `s.toLowerCase()` restricted to ASCII letters; every other character is kept. */
  function Lower(s: string): (r: string)
    ensures |r| == |s|
    ensures forall i :: 0 <= i < |s| ==> r[i] == LowerChar(s[i])
  {
    seq(|s|, i requires 0 <= i < |s| => LowerChar(s[i]))
  }

  /** The longest prefix of `s` whose characters all satisfy `p`: what
      `s.split(/[^…]/)[0]` and `s.split(/\s+/)[0]` return. */
  function TakeWhile(s: string, p: char -> bool): (r: string)
    ensures IsPrefix(r, s)
    ensures forall i :: 0 <= i < |r| ==> p(r[i])
    ensures |r| == |s| || !p(s[|r|])
  {
    if s != [] && p(s[0]) then [s[0]] + TakeWhile(s[1..], p) else []
  }

  /** `TakeWhile` stops exactly at the first element that fails `p`. */
  lemma TakeWhileStops(s: string, p: char -> bool, n: nat)
    requires n <= |s| && (forall i :: 0 <= i < n ==> p(s[i])) && (n == |s| || !p(s[n]))
    ensures TakeWhile(s, p) == s[..n]
  {
    var r := TakeWhile(s, p);
    if |r| < n {
      assert false;
    } else if |r| > n {
      assert false;
    }
  }

  /** Lowercasing never creates or removes white space. */
  lemma LowerKeepsSpace(c: char)
    ensures IsSpace(LowerChar(c)) == IsSpace(c)
  {
  }

  lemma {:induction false} TrimStartLower(s: string)
    ensures TrimStart(Lower(s)) == Lower(TrimStart(s))
    decreases |s|
  {
    if s != [] {
      LowerKeepsSpace(s[0]);
      assert Lower(s)[1..] == Lower(s[1..]);
      TrimStartLower(s[1..]);
    }
  }

  lemma {:induction false} TrimEndLower(s: string)
    ensures TrimEnd(Lower(s)) == Lower(TrimEnd(s))
    decreases |s|
  {
    if s != [] {
      var init, last := s[..|s| - 1], s[|s| - 1];
      LowerKeepsSpace(last);
      assert Lower(s)[..|s| - 1] == Lower(init);
      TrimEndLower(init);
      if IsSpace(last) {
        assert TrimEnd(Lower(s)) == TrimEnd(Lower(init));
      } else {
        assert TrimEnd(Lower(s)) == Lower(s);
      }
    }
  }

  lemma LowerCharIdempotent(c: char)
    ensures LowerChar(LowerChar(c)) == LowerChar(c)
  {
    if 'A' <= c <= 'Z' {
      assert 'a' <= LowerChar(c) <= 'z';
    }
  }

  /** Lowercasing twice is lowercasing once. */
  lemma LowerIdempotent(s: string)
    ensures Lower(Lower(s)) == Lower(s)
  {
    forall i | 0 <= i < |s| ensures Lower(Lower(s))[i] == Lower(s)[i] {
      LowerCharIdempotent(s[i]);
    }
  }

  /** `s.toLowerCase().trim()` and `s.trim().toLowerCase()` agree. */
  lemma TrimLowerCommute(s: string)
    ensures Trim(Lower(s)) == Lower(Trim(s))
  {
    TrimStartLower(s);
    TrimEndLower(TrimStart(s));
  }

  lemma {:induction false} TrimStartSkipsSpace(pad: string, s: string)
    requires AllSpace(pad)
    ensures TrimStart(pad + s) == TrimStart(s)
    decreases |pad|
  {
    if pad != [] {
      assert (pad + s)[1..] == pad[1..] + s;
      TrimStartSkipsSpace(pad[1..], s);
    } else {
      assert pad + s == s;
    }
  }

  lemma {:induction false} TrimEndSkipsSpace(s: string, pad: string)
    requires AllSpace(pad)
    ensures TrimEnd(s + pad) == TrimEnd(s)
    decreases |pad|
  {
    if pad != [] {
      assert (s + pad)[..|s + pad| - 1] == s + pad[..|pad| - 1];
      TrimEndSkipsSpace(s, pad[..|pad| - 1]);
    } else {
      assert s + pad == s;
    }
  }

  /** Trimming the start of `s + tail` keeps `tail` whole once `s` has a
      non-space character, and empties it when `s` and `tail` are all space. */
  lemma {:induction false} TrimStartAppend(s: string, tail: string)
    ensures !AllSpace(s) ==> TrimStart(s + tail) == TrimStart(s) + tail
    ensures AllSpace(s) && AllSpace(tail) ==> TrimStart(s + tail) == []
    decreases |s|
  {
    if s == [] {
      assert s + tail == tail;
    } else {
      assert (s + tail)[1..] == s[1..] + tail;
      TrimStartAppend(s[1..], tail);
      if AllSpace(s) && AllSpace(tail) {
        assert AllSpace(s[1..]);
      }
    }
  }

  /** White space added around a string does not change its trim. */
  lemma TrimIgnoresPadding(before: string, s: string, after: string)
    requires AllSpace(before) && AllSpace(after)
    ensures Trim(before + s + after) == Trim(s)
  {
    assert before + s + after == before + (s + after);
    TrimStartSkipsSpace(before, s + after);
    TrimStartAppend(s, after);
    if !AllSpace(s) {
      TrimEndSkipsSpace(TrimStart(s), after);
    }
  }
}
