/** Header mappings as the request and the response carry them: a canonical
    key maps to the list of values received for it, in arrival order.
    Lookup, `Set` and `Add` canonicalize the key they are given first, so
    `user-agent` and `User-Agent` name the same entry. */
module Headers {

  type Header = map<string, seq<string>>

  predicate IsLowerAscii(c: char) { 'a' <= c <= 'z' }

  predicate IsUpperAscii(c: char) { 'A' <= c <= 'Z' }

  function ToUpperAscii(c: char): char
  {
    if IsLowerAscii(c) then (c as int - 32) as char else c
  }

  function ToLowerAscii(c: char): char
  {
    if IsUpperAscii(c) then (c as int + 32) as char else c
  }

  /** The case a letter takes at the start of a hyphen-separated segment
      (`upper`) or inside one; other characters are left alone. */
  function CaseFor(c: char, upper: bool): char
  {
    if upper then ToUpperAscii(c) else ToLowerAscii(c)
  }

  /** Does character `i` of `s` open a hyphen-separated segment? `upper`
      says whether the first character does. */
  predicate OpensSegment(s: string, i: int, upper: bool)
    requires 0 <= i < |s|
  {
    if i == 0 then upper else s[i - 1] == '-'
  }

  /** `s` with every character in the case its position calls for. */
  function CaseFold(s: string, upper: bool): string
  {
    seq(|s|, i requires 0 <= i < |s| => CaseFor(s[i], OpensSegment(s, i, upper)))
  }

  /** Changing case keeps the letter, and only letters change. */
  lemma CaseForKeepsLetter(c: char, upper: bool)
    ensures ToLowerAscii(CaseFor(c, upper)) == ToLowerAscii(c)
    ensures CaseFor(c, upper) == '-' <==> c == '-'
    ensures upper ==> !IsLowerAscii(CaseFor(c, upper))
  {
  }

  lemma CaseFoldKeepsLetters(s: string, upper: bool)
    ensures |CaseFold(s, upper)| == |s|
    ensures forall i :: 0 <= i < |s| ==> ToLowerAscii(CaseFold(s, upper)[i]) == ToLowerAscii(s[i])
    ensures forall i :: 0 <= i < |s| ==> (CaseFold(s, upper)[i] == '-' <==> s[i] == '-')
    ensures |s| > 0 && upper ==> !IsLowerAscii(CaseFold(s, upper)[0])
  {
    var r := CaseFold(s, upper);
    forall i | 0 <= i < |s|
      ensures ToLowerAscii(r[i]) == ToLowerAscii(s[i])
      ensures r[i] == '-' <==> s[i] == '-'
    {
      CaseForKeepsLetter(s[i], OpensSegment(s, i, upper));
    }
    if |s| > 0 {
      CaseForKeepsLetter(s[0], upper);
    }
  }

  /** The canonical form of a header key: the first letter and every letter
      after a hyphen in upper case, all other letters in lower case. */
  function Canonicalize(key: string): (r: string)
    ensures |r| == |key|
    ensures forall i :: 0 <= i < |key| ==> ToLowerAscii(r[i]) == ToLowerAscii(key[i])
    ensures forall i :: 0 <= i < |key| ==> (r[i] == '-' <==> key[i] == '-')
    ensures |key| > 0 ==> !IsLowerAscii(r[0])
  {
    CaseFoldKeepsLetters(key, true);
    CaseFold(key, true)
  }

  /** The canonicalizing scan one character at a time, carrying whether the
      next character opens a segment, as the header library performs it. */
  function CanonicalizeScan(s: string, upper: bool): (r: string)
    ensures |r| == |s|
    ensures forall i :: 0 <= i < |s| ==> ToLowerAscii(r[i]) == ToLowerAscii(s[i])
    ensures forall i :: 0 <= i < |s| ==> (r[i] == '-' <==> s[i] == '-')
    decreases |s|
  {
    if |s| == 0 then ""
    else
      var c := CaseFor(s[0], upper);
      [c] + CanonicalizeScan(s[1..], c == '-')
  }

  /** The scan and the closed form agree on every input. */
  lemma {:induction false} ScanIsCaseFold(s: string, upper: bool)
    ensures CanonicalizeScan(s, upper) == CaseFold(s, upper)
    decreases |s|
  {
    if |s| > 0 {
      var c := CaseFor(s[0], upper);
      var t := s[1..];
      ScanIsCaseFold(t, c == '-');
      var g := CaseFold(t, c == '-');
      assert CanonicalizeScan(s, upper) == [c] + g;
      forall i | 0 <= i < |s| ensures ([c] + g)[i] == CaseFold(s, upper)[i]
      {
        if i > 0 {
          CaseForKeepsLetter(s[0], upper);
          assert OpensSegment(s, i, upper) == OpensSegment(t, i - 1, c == '-');
          assert g[i - 1] == CaseFor(t[i - 1], OpensSegment(t, i - 1, c == '-'));
        }
      }
    }
  }

  /** Every character of `s` already has the case its position calls for. */
  predicate CanonicalFrom(s: string, upper: bool)
  {
    forall i :: 0 <= i < |s| ==> CaseFor(s[i], OpensSegment(s, i, upper)) == s[i]
  }

  predicate IsCanonical(key: string)
  {
    CanonicalFrom(key, true)
  }

  /** Every key of `h` is in canonical form. */
  predicate CanonicalKeys(h: Header)
  {
    forall k :: k in h ==> IsCanonical(k)
  }

  lemma CaseForIdempotent(c: char, upper: bool)
    ensures CaseFor(CaseFor(c, upper), upper) == CaseFor(c, upper)
  {
  }

  /** Canonicalizing a key that is already canonical changes nothing. */
  lemma CanonicalizeFixesCanonical(key: string)
    requires IsCanonical(key)
    ensures Canonicalize(key) == key
  {
  }

  /** Whatever key goes in, a canonical key comes out. */
  lemma CanonicalizeIsCanonical(key: string)
    ensures IsCanonical(Canonicalize(key))
  {
    var r := Canonicalize(key);
    forall i | 0 <= i < |r|
      ensures CaseFor(r[i], OpensSegment(r, i, true)) == r[i]
    {
      if i > 0 {
        CaseForKeepsLetter(key[i - 1], OpensSegment(key, i - 1, true));
      }
      assert OpensSegment(r, i, true) == OpensSegment(key, i, true);
      CaseForIdempotent(key[i], OpensSegment(key, i, true));
    }
  }

  /** Canonicalizing twice is canonicalizing once. */
  lemma CanonicalizeIdempotent(key: string)
    ensures Canonicalize(Canonicalize(key)) == Canonicalize(key)
  {
    CanonicalizeIsCanonical(key);
    CanonicalizeFixesCanonical(Canonicalize(key));
  }

  /** The first value stored under the canonical form of `key`, or the empty
      string when there is none. */
  function Get(h: Header, key: string): (v: string)
    ensures Canonicalize(key) in h && |h[Canonicalize(key)]| > 0 ==> v == h[Canonicalize(key)][0]
    ensures Canonicalize(key) !in h ==> v == ""
    ensures v != "" ==> Canonicalize(key) in h && |h[Canonicalize(key)]| > 0
                        && v == h[Canonicalize(key)][0]
  {
    var k := Canonicalize(key);
    if k in h && |h[k]| > 0 then h[k][0] else ""
  }

  /** Replaces every value stored under `key` by the single `value`. */
  function Set(h: Header, key: string, value: string): (h': Header)
    ensures h'.Keys == h.Keys + {Canonicalize(key)}
    ensures h'[Canonicalize(key)] == [value]
    ensures Get(h', key) == value
    ensures forall k :: k in h && k != Canonicalize(key) ==> h'[k] == h[k]
    ensures CanonicalKeys(h) ==> CanonicalKeys(h')
  {
    CanonicalizeIsCanonical(key);
    h[Canonicalize(key) := [value]]
  }

  /** Appends `value` to the values stored under `key`. */
  function Add(h: Header, key: string, value: string): (h': Header)
    ensures h'.Keys == h.Keys + {Canonicalize(key)}
    ensures Canonicalize(key) in h ==> h'[Canonicalize(key)] == h[Canonicalize(key)] + [value]
    ensures Canonicalize(key) !in h ==> h'[Canonicalize(key)] == [value]
    ensures forall k :: k in h && k != Canonicalize(key) ==> h'[k] == h[k]
    ensures CanonicalKeys(h) ==> CanonicalKeys(h')
  {
    CanonicalizeIsCanonical(key);
    var k := Canonicalize(key);
    h[k := (if k in h then h[k] else []) + [value]]
  }

  /** `Add` never displaces the first value: `Get` sees the value added only
      when nothing was stored under the key before. */
  lemma GetAfterAdd(h: Header, key: string, value: string)
    ensures var k := Canonicalize(key);
            Get(Add(h, key, value), key) == (if k in h && |h[k]| > 0 then h[k][0] else value)
  {
  }

  /** Setting one key does not disturb lookups of a key with a different
      canonical form. */
  lemma GetAfterSetOther(h: Header, key: string, value: string, other: string)
    requires Canonicalize(other) != Canonicalize(key)
    ensures Get(Set(h, key, value), other) == Get(h, other)
  {
  }

}
