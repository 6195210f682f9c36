/** The shared utilities: membership search, rune-wise string reversal, and
    the text preparation that precedes base64 decoding of an uploaded image. */
module Functions {

  // ----------------------------------------------------------------- search

  /** `Contains` and `ContainsStr` (the same loop over `[]int` and
      `[]string`): scan the list and stop at the first element equal to the
      value. */
  method Contains<T(==)>(list: seq<T>, value: T) returns (found: bool)
    ensures found <==> value in list
  {
    var i := 0;
    while i < |list|
      invariant 0 <= i <= |list|
      invariant value !in list[..i]
    {
      if list[i] == value {
        return true;
      }
      assert list[..i + 1] == list[..i] + [list[i]];
      i := i + 1;
    }
    assert list[..i] == list;
    return false;
  }

  // -------------------------------------------------------------- reversal

  /** Reference definition: the runes of `s` in the opposite order. */
  function Reversed(s: string): string
  {
    if s == [] then [] else Reversed(s[1..]) + [s[0]]
  }

  /** Position `k` of the reversal holds the rune at `|s| - 1 - k`. */
  lemma {:induction false} ReversedAt(s: string)
    ensures |Reversed(s)| == |s|
    ensures forall k :: 0 <= k < |s| ==> Reversed(s)[k] == s[|s| - 1 - k]
  {
    if s != [] {
      ReversedAt(s[1..]);
    }
  }

  /** Reversing twice gives back the original. */
  lemma ReversedTwice(s: string)
    ensures Reversed(Reversed(s)) == s
  {
    ReversedAt(s);
    ReversedAt(Reversed(s));
  }

  /** `ReverseString`: copy the runes into a buffer and swap them pairwise
      from both ends towards the middle. */
  method ReverseString(s: string) returns (r: string)
    ensures r == Reversed(s)
    ensures |r| == |s| && forall k :: 0 <= k < |s| ==> r[k] == s[|s| - 1 - k]
  {
    var runes := new char[|s|](k requires 0 <= k < |s| => s[k]);
    var i, j := 0, |s| - 1;
    while i < j
      invariant 0 <= i <= j + 1 <= |s| || (|s| == 0 && i == 0 && j == -1)
      invariant i + j == |s| - 1
      invariant forall k :: 0 <= k < i ==> runes[k] == s[|s| - 1 - k]
      invariant forall k :: j < k < |s| ==> runes[k] == s[|s| - 1 - k]
      invariant forall k :: i <= k <= j ==> runes[k] == s[k]
    {
      runes[i], runes[j] := runes[j], runes[i];
      i, j := i + 1, j - 1;
    }
    r := runes[..];
    ReversedAt(s);
  }

  // ---------------------------------------------------- base64 preparation

  /** `pat` occurs in `s` starting at position `i`. */
  predicate OccursAt(s: string, pat: string, i: int)
  {
    0 <= i && i + |pat| <= |s| && s[i..i + |pat|] == pat
  }

  /** Occurrences in `s[1..]` are the occurrences in `s` shifted by one. */
  lemma ShiftOccurrences(s: string, pat: string)
    requires |s| >= 1
    ensures forall j :: 1 <= j ==> (OccursAt(s, pat, j) <==> OccursAt(s[1..], pat, j - 1))
  {
    forall j | 1 <= j
      ensures OccursAt(s, pat, j) <==> OccursAt(s[1..], pat, j - 1)
    {
      if j + |pat| <= |s| {
        assert s[1..][j - 1..j - 1 + |pat|] == s[j..j + |pat|];
      }
    }
  }

  /** `strings.Index`: the position of the first occurrence, or -1. */
  function IndexOf(s: string, pat: string): (r: int)
    ensures -1 <= r
    ensures r == -1 <==> forall i :: !OccursAt(s, pat, i)
    ensures r >= 0 ==> OccursAt(s, pat, r) && forall i :: 0 <= i < r ==> !OccursAt(s, pat, i)
    decreases |s|
  {
    if |s| < |pat| then -1
    else if s[..|pat|] == pat then
      assert OccursAt(s, pat, 0);
      0
    else
      var k := IndexOf(s[1..], pat);
      ShiftOccurrences(s, pat);
      assert !OccursAt(s, pat, 0);
      if k == -1 then -1
      else
        assert OccursAt(s, pat, k + 1);
        k + 1
  }

  /** What is left after the first occurrence of `marker`; the whole text when
      it does not occur. */
  function StripThrough(s: string, marker: string): (r: string)
    ensures IndexOf(s, marker) == -1 ==> r == s
    ensures IndexOf(s, marker) >= 0 ==> s == s[..IndexOf(s, marker)] + marker + r
  {
    var idx := IndexOf(s, marker);
    if idx == -1 then s
    else
      assert s[idx..idx + |marker|] == marker;
      assert s == s[..idx] + s[idx..idx + |marker|] + s[idx + |marker|..];
      s[idx + |marker|..]
  }

  /** The character class `[A-Za-z0-9+/=]`. */
  predicate IsBase64Char(c: char)
  {
    ('A' <= c <= 'Z') || ('a' <= c <= 'z') || ('0' <= c <= '9') || c == '+' || c == '/' || c == '='
  }

  predicate AllBase64(s: string)
  {
    forall k :: 0 <= k < |s| ==> IsBase64Char(s[k])
  }

  /** Replacing every match of `[^A-Za-z0-9+/=]` by "": the characters of the
      class, in order. */
  function KeepBase64Chars(s: string): (r: string)
    ensures AllBase64(r)
    ensures |r| <= |s|
    ensures forall c :: c in r <==> c in s && IsBase64Char(c)
  {
    if s == [] then []
    else
      var rest := KeepBase64Chars(s[1..]);
      assert s == [s[0]] + s[1..];
      if IsBase64Char(s[0]) then [s[0]] + rest else rest
  }

  /** Text already in the class passes the filter unchanged. */
  lemma {:induction false} KeepBase64CharsOfClean(s: string)
    requires AllBase64(s)
    ensures KeepBase64Chars(s) == s
  {
    if s != [] {
      KeepBase64CharsOfClean(s[1..]);
    }
  }

  /** `n` padding characters. */
  function Padding(n: nat): (p: string)
    ensures |p| == n && forall k :: 0 <= k < n ==> p[k] == '='
  {
    if n == 0 then [] else Padding(n - 1) + "="
  }

  /** How many '=' the padding loop appends to a text of `len` characters. */
  function PadCount(len: nat): (n: nat)
    ensures n <= 3 && (len + n) % 4 == 0
  {
    (4 - len % 4) % 4
  }

  /** No shorter padding reaches a multiple of 4. */
  lemma PadCountLeast(len: nat, m: nat)
    requires m <= PadCount(len) && (len + m) % 4 == 0
    ensures m == PadCount(len)
  {
  }

  /** The padding loop: append '=' until the length is a multiple of 4. Past
      the filter every character is ASCII, so characters and bytes agree. */
  method PadToQuad(s: string) returns (t: string)
    ensures t == s + Padding(PadCount(|s|))
    ensures |t| % 4 == 0 && |t| - |s| <= 3
  {
    t := s;
    while |t| % 4 != 0
      invariant |s| <= |t| <= |s| + PadCount(|s|)
      invariant t == s + Padding(|t| - |s|)
      decreases |s| + PadCount(|s|) - |t|
    {
      t := t + "=";
    }
    PadCountLeast(|s|, |t| - |s|);
  }

  /** The text `DecodeBase64ToByteArray` hands to the standard decoder. */
  function Base64Prepared(s: string): (t: string)
    ensures AllBase64(t) && |t| % 4 == 0
  {
    var body := KeepBase64Chars(StripThrough(s, "base64,"));
    body + Padding(PadCount(|body|))
  }

  /** The string handling of `DecodeBase64ToByteArray`: skip through the first
      "base64,", drop the characters outside the alphabet, pad. */
  method PrepareBase64(s: string) returns (t: string)
    ensures t == Base64Prepared(s)
  {
    var text := s;
    var idx := IndexOf(text, "base64,");
    if idx != -1 {
      text := text[idx + 7..];
    }
    text := KeepBase64Chars(text);
    t := PadToQuad(text);
  }

  /** The string handling of `VDecodeBase64ToByteArray`: skip through the
      first ";base64," and nothing else. */
  function DataUrlPayload(s: string): (t: string)
    ensures IndexOf(s, ";base64,") == -1 ==> t == s
    ensures IndexOf(s, ";base64,") >= 0 ==> s == s[..IndexOf(s, ";base64,")] + ";base64," + t
  {
    StripThrough(s, ";base64,")
  }

  /** A marker that holds `c` at position `pos` cannot start before
      `prefixLen` when `c` is absent from the first `prefixLen + pos`
      characters. */
  lemma NoEarlyOccurrence(s: string, marker: string, prefixLen: nat, pos: nat, c: char)
    requires pos < |marker| && marker[pos] == c
    requires forall k :: 0 <= k < prefixLen + pos && k < |s| ==> s[k] != c
    ensures forall i :: 0 <= i < prefixLen ==> !OccursAt(s, marker, i)
  {
  }

  /** Base64 text holds no comma, so "base64," does not occur in it. */
  lemma NoMarkerInBase64(t: string)
    requires AllBase64(t)
    ensures IndexOf(t, "base64,") == -1
  {
    NoEarlyOccurrence(t, "base64,", |t|, 6, ',');
  }

  /** Padded standard base64 text is prepared as it is. */
  lemma PreparedClean(t: string)
    requires AllBase64(t) && |t| % 4 == 0
    ensures Base64Prepared(t) == t
  {
    NoMarkerInBase64(t);
    KeepBase64CharsOfClean(t);
    assert PadCount(|t|) == 0;
  }

  /** Preparing a prepared text again changes nothing. */
  lemma PreparedIsFixedPoint(s: string)
    ensures Base64Prepared(Base64Prepared(s)) == Base64Prepared(s)
  {
    PreparedClean(Base64Prepared(s));
  }

  /** Stripping through a marker whose first occurrence follows `prefix`
      yields what comes after it. */
  lemma StripAfterPrefix(prefix: string, marker: string, payload: string)
    requires forall i :: 0 <= i < |prefix| ==> !OccursAt(prefix + marker + payload, marker, i)
    ensures StripThrough(prefix + marker + payload, marker) == payload
  {
    var s := prefix + marker + payload;
    assert s[|prefix|..|prefix| + |marker|] == marker;
    assert OccursAt(s, marker, |prefix|);
    assert s[|prefix| + |marker|..] == payload;
  }

  /** The data URLs that `ByteaToBase64` produces, "data:<mime>;base64,<payload>",
      give `VDecodeBase64ToByteArray` exactly the payload back. */
  lemma DataUrlPayloadRoundTrip(mime: string, payload: string)
    requires ';' !in mime
    ensures DataUrlPayload("data:" + mime + ";base64," + payload) == payload
  {
    var p := "data:" + mime;
    var url := p + ";base64," + payload;
    assert url == "data:" + mime + ";base64," + payload;
    forall k | 0 <= k < |p| ensures url[k] != ';' {
      assert url[k] == p[k];
      assert p[k] in p;
    }
    NoEarlyOccurrence(url, ";base64,", |p|, 0, ';');
    StripAfterPrefix(p, ";base64,", payload);
  }

  /** The same data URLs give `DecodeBase64ToByteArray` the payload back, and
      a padded standard base64 payload reaches the decoder unchanged. */
  lemma Base64PreparedRoundTrip(mime: string, payload: string)
    requires ',' !in mime
    ensures StripThrough("data:" + mime + ";base64," + payload, "base64,") == payload
    ensures AllBase64(payload) && |payload| % 4 == 0 ==>
      Base64Prepared("data:" + mime + ";base64," + payload) == payload
  {
    var p := "data:" + mime + ";";
    var head := p + "base64";
    var url := p + "base64," + payload;
    assert url == "data:" + mime + ";base64," + payload;
    forall k | 0 <= k < |p| + 6 ensures url[k] != ',' {
      assert url[k] == head[k];
      assert head[k] in head;
    }
    NoEarlyOccurrence(url, "base64,", |p|, 6, ',');
    StripAfterPrefix(p, "base64,", payload);
    if AllBase64(payload) && |payload| % 4 == 0 {
      PreparedClean(payload);
    }
  }
}
