/** Normalisation of the user-entered server address (getServerUrl in App.tsx).
    Strings are sequences of Unicode scalar values, whereas JavaScript strings
    are sequences of UTF-16 code units; every character the code inspects is ASCII or a
    whitespace character of the fixed set below. */
module ServerAddress {

  /** The characters String.prototype.trim removes: ECMAScript WhiteSpace
      (TAB, VT, FF, SP, NBSP, ZWNBSP and every Unicode space separator) and
      LineTerminator (LF, CR, LS, PS). No visible ASCII character is among
      them, so digits, letters, '.', ':' and '/' of an address are never
      trimmed. */
  predicate IsWhitespace(c: char)
    ensures IsWhitespace(c) ==> !('!' <= c <= '~')
  {
    c == '\t' || c == '\n' || c == '\U{000B}' || c == '\U{000C}' || c == '\r' ||
    c == ' ' || c == '\U{00A0}' || c == '\U{1680}' ||
    ('\U{2000}' <= c <= '\U{200A}') ||
    c == '\U{2028}' || c == '\U{2029}' || c == '\U{202F}' || c == '\U{205F}' ||
    c == '\U{3000}' || c == '\U{FEFF}'
  }

  predicate AllWhitespace(s: string) {
    forall k :: 0 <= k < |s| ==> IsWhitespace(s[k])
  }

  /** The string neither begins nor ends with a whitespace character. */
  predicate IsTrimmed(s: string) {
    s == [] || (!IsWhitespace(s[0]) && !IsWhitespace(s[|s| - 1]))
  }

  /** String.prototype.startsWith with a literal prefix: case-sensitive,
      character by character, so "https..." and "httpXYZ" both start with
      "http". */
  predicate StartsWith(s: string, prefix: string) {
    |prefix| <= |s| && s[..|prefix|] == prefix
  }

  /** String.prototype.includes with a one-character argument: the character
      occurs anywhere in the string. */
  predicate Includes(s: string, c: char) {
    c in s
  }

  /** Drops the leading whitespace: what remains is a suffix of s that is
      empty or starts with a non-whitespace character, and everything dropped
      is whitespace. */
  function TrimStart(s: string): (r: string)
    ensures |r| <= |s| && r == s[|s| - |r|..]
    ensures r == [] || !IsWhitespace(r[0])
    ensures AllWhitespace(s[..|s| - |r|])
  {
    if s == [] || !IsWhitespace(s[0]) then s
    else
      var r := TrimStart(s[1..]);
      LeadingStep(s, r);
      r
  }

  /** One more leading whitespace character in front keeps the suffix a
      suffix and the dropped part all whitespace. */
  lemma LeadingStep(s: string, r: string)
    requires s != [] && IsWhitespace(s[0])
    requires |r| <= |s[1..]| && r == s[1..][|s[1..]| - |r|..]
    requires AllWhitespace(s[1..][..|s[1..]| - |r|])
    ensures |r| <= |s| && r == s[|s| - |r|..]
    ensures AllWhitespace(s[..|s| - |r|])
  {
    assert s[..|s| - |r|] == [s[0]] + s[1..][..|s[1..]| - |r|];
  }

  /** Drops the trailing whitespace: what remains is a prefix of s that is
      empty or ends with a non-whitespace character, and everything dropped
      is whitespace. */
  function TrimEnd(s: string): (r: string)
    ensures |r| <= |s| && r == s[..|r|]
    ensures r == [] || !IsWhitespace(r[|r| - 1])
    ensures AllWhitespace(s[|r|..])
  {
    if s == [] || !IsWhitespace(s[|s| - 1]) then s
    else
      var init := s[..|s| - 1];
      var r := TrimEnd(init);
      TrailingStep(s, r);
      r
  }

  /** One more trailing whitespace character at the end keeps the prefix a
      prefix and the dropped part all whitespace. */
  lemma TrailingStep(s: string, r: string)
    requires s != [] && IsWhitespace(s[|s| - 1])
    requires |r| <= |s[..|s| - 1]| && r == s[..|s| - 1][..|r|]
    requires AllWhitespace(s[..|s| - 1][|r|..])
    ensures |r| <= |s| && r == s[..|r|]
    ensures AllWhitespace(s[|r|..])
  {
    assert s[|r|..] == s[..|s| - 1][|r|..] + [s[|s| - 1]];
  }

  /** r is s with whitespace removed from both ends: r has no whitespace at
      either end, and s is r with only whitespace before and after it. */
  predicate IsTrimOf(r: string, s: string) {
    IsTrimmed(r) &&
    exists i :: 0 <= i <= |s| - |r| && s[i..i + |r|] == r &&
                AllWhitespace(s[..i]) && AllWhitespace(s[i + |r|..])
  }

  /** String.prototype.trim. */
  function Trim(s: string): (r: string)
    ensures IsTrimOf(r, s)
  {
    var t := TrimStart(s);
    var r := TrimEnd(t);
    TrimWitness(s, t, r);
    r
  }

  /** Trimming the start and then the end trims the whole string. */
  lemma TrimWitness(s: string, t: string, r: string)
    requires |t| <= |s| && t == s[|s| - |t|..] && AllWhitespace(s[..|s| - |t|])
    requires t == [] || !IsWhitespace(t[0])
    requires |r| <= |t| && r == t[..|r|] && AllWhitespace(t[|r|..])
    requires r == [] || !IsWhitespace(r[|r| - 1])
    ensures IsTrimOf(r, s)
  {
    var i := |s| - |t|;
    assert r != [] ==> r[0] == t[0];
    assert s[i..i + |r|] == r;
    assert s[i + |r|..] == t[|r|..];
  }

  const HttpPrefix: string := "http"
  const DefaultScheme: string := "http://"
  const DefaultPort: string := ":5000"

  /** The first step of getServerUrl: "http://" goes in front unless the
      text already starts with "http"; either way the result starts with
      "http", and an inserted scheme brings a ':' with it. */
  function WithScheme(ip: string): (r: string)
    ensures StartsWith(r, HttpPrefix)
    ensures !StartsWith(ip, HttpPrefix) ==> Includes(r, ':')
  {
    if !StartsWith(ip, HttpPrefix) then
      assert DefaultScheme[4] == ':';
      IncludesConcat(DefaultScheme, ip, ':');
      DefaultScheme + ip
    else ip
  }

  /** The second step of getServerUrl: ":5000" goes at the end unless the
      text already contains a ':'; either way the result contains one, and
      an "http" prefix survives. */
  function WithPort(ip: string): (r: string)
    ensures Includes(r, ':')
    ensures StartsWith(ip, HttpPrefix) ==> StartsWith(r, HttpPrefix)
  {
    if !Includes(ip, ':') then
      assert DefaultPort[0] == ':';
      IncludesConcat(ip, DefaultPort, ':');
      if StartsWith(ip, HttpPrefix) then PrefixKept(ip, DefaultPort, HttpPrefix); ip + DefaultPort
      else ip + DefaultPort
    else ip
  }

  /** getServerUrl: trim the entered address, prepend "http://" unless it
      already starts with "http", then append ":5000" unless it already
      contains a ':' anywhere. The result is always a complete-looking
      address: it starts with "http" and contains a ':'. */
  function GetServerUrl(serverIp: string): (r: string)
    ensures StartsWith(r, HttpPrefix)
    ensures Includes(r, ':')
  {
    WithPort(WithScheme(Trim(serverIp)))
  }

  /** A character occurs in a concatenation exactly when it occurs in one
      of the parts; so the ':' of an inserted "http://" satisfies the port
      check, and an appended ":5000" does too. */
  lemma IncludesConcat(a: string, b: string, c: char)
    ensures Includes(a + b, c) <==> Includes(a, c) || Includes(b, c)
  {
  }

  /** The scheme check is case-sensitive and literal: a text starting with
      "http" has exactly those four lower-case letters in front. */
  lemma StartsWithHttpLetters(s: string)
    requires StartsWith(s, HttpPrefix)
    ensures |s| >= 4 && s[0] == 'h' && s[1] == 't' && s[2] == 't' && s[3] == 'p'
  {
    assert s[..4] == HttpPrefix;
    assert s[..4][0] == s[0] && s[..4][1] == s[1] && s[..4][2] == s[2] && s[..4][3] == s[3];
  }

  /** Appending to a string keeps its prefixes. */
  lemma PrefixKept(s: string, suffix: string, prefix: string)
    requires StartsWith(s, prefix)
    ensures StartsWith(s + suffix, prefix)
  {
    assert (s + suffix)[..|prefix|] == s[..|prefix|];
  }

  /** Trimming leaves an already trimmed string alone. */
  lemma {:induction false} TrimmedIsFixed(s: string)
    requires IsTrimmed(s)
    ensures Trim(s) == s
  {
    assert TrimStart(s) == s;
    assert TrimEnd(s) == s;
  }

  /** Trimming twice is trimming once. */
  lemma TrimIdempotent(s: string)
    ensures Trim(Trim(s)) == Trim(s)
  {
    TrimmedIsFixed(Trim(s));
  }

  /** Inserting the scheme keeps a trimmed string trimmed. */
  lemma WithSchemeKeepsTrimmed(ip: string)
    requires IsTrimmed(ip)
    ensures IsTrimmed(WithScheme(ip))
  {
    var r := WithScheme(ip);
    if !StartsWith(ip, HttpPrefix) {
      if ip == [] {
        assert r == DefaultScheme;
      } else {
        assert r[|r| - 1] == ip[|ip| - 1];
      }
    }
  }

  /** Appending the port keeps a trimmed string trimmed. */
  lemma WithPortKeepsTrimmed(ip: string)
    requires IsTrimmed(ip)
    ensures IsTrimmed(WithPort(ip))
  {
    var r := WithPort(ip);
    if !Includes(ip, ':') {
      assert r[0] == (if ip == [] then ':' else ip[0]);
      assert r[|r| - 1] == '0';
    }
  }

  /** The address getServerUrl produces neither begins nor ends with
      whitespace. */
  lemma ServerUrlIsTrimmed(serverIp: string)
    ensures IsTrimmed(GetServerUrl(serverIp))
  {
    var t := Trim(serverIp);
    WithSchemeKeepsTrimmed(t);
    WithPortKeepsTrimmed(WithScheme(t));
  }

  /** Feeding the normalised address back in as the entered address gives
      the same address: getServerUrl is idempotent. */
  lemma {:induction false} ServerUrlIdempotent(serverIp: string)
    ensures GetServerUrl(GetServerUrl(serverIp)) == GetServerUrl(serverIp)
  {
    var r := GetServerUrl(serverIp);
    ServerUrlIsTrimmed(serverIp);
    TrimmedIsFixed(r);
  }

  /** The two steps on an already trimmed text: the scheme check decides
      first, and an inserted scheme already satisfies the port check. */
  lemma {:induction false} NormaliseCases(ip: string)
    ensures WithPort(WithScheme(ip)) ==
              if !StartsWith(ip, HttpPrefix) then DefaultScheme + ip
              else if !Includes(ip, ':') then ip + DefaultPort
              else ip
  {
    if !StartsWith(ip, HttpPrefix) {
      var u := DefaultScheme + ip;
      assert u[4] == ':';
    }
  }

  /** The three cases together: the result is one of the trimmed input
      behind "http://", the trimmed input with ":5000", or the trimmed input
      itself, and the two checks decide which, in that order. */
  lemma {:induction false} ServerUrlCases(serverIp: string)
    ensures var t := Trim(serverIp);
            GetServerUrl(serverIp) ==
              if !StartsWith(t, HttpPrefix) then DefaultScheme + t
              else if !Includes(t, ':') then t + DefaultPort
              else t
  {
    NormaliseCases(Trim(serverIp));
  }

  /** An address without an "http" prefix only gains "http://": the ':' of
      the inserted scheme satisfies the port check, so ":5000" is never
      appended to a bare host. */
  lemma {:induction false} BareHostGetsSchemeOnly(serverIp: string)
    ensures !StartsWith(Trim(serverIp), HttpPrefix) ==>
              GetServerUrl(serverIp) == DefaultScheme + Trim(serverIp)
  {
    ServerUrlCases(serverIp);
  }

  /** An "http"-prefixed address without any ':' gains the default port. */
  lemma {:induction false} HttpWithoutColonGetsPort(serverIp: string)
    ensures StartsWith(Trim(serverIp), HttpPrefix) && !Includes(Trim(serverIp), ':') ==>
              GetServerUrl(serverIp) == Trim(serverIp) + DefaultPort
  {
    ServerUrlCases(serverIp);
  }

  /** An "http"-prefixed address that already contains a ':' is only
      trimmed. */
  lemma {:induction false} HttpWithColonIsTrimmedOnly(serverIp: string)
    ensures StartsWith(Trim(serverIp), HttpPrefix) && Includes(Trim(serverIp), ':') ==>
              GetServerUrl(serverIp) == Trim(serverIp)
  {
    ServerUrlCases(serverIp);
  }

  /** An address written with an upper-case scheme, such as
      "HTTP://10.0.0.1:5000", fails the case-sensitive scheme check and so
      gets a second, lower-case scheme in front. */
  lemma {:induction false} UpperCaseSchemeGetsAnother(serverIp: string)
    ensures Trim(serverIp) != [] && Trim(serverIp)[0] == 'H' ==>
              GetServerUrl(serverIp) == DefaultScheme + Trim(serverIp)
  {
    if StartsWith(Trim(serverIp), HttpPrefix) {
      StartsWithHttpLetters(Trim(serverIp));
    }
    BareHostGetsSchemeOnly(serverIp);
  }

  /** The app's initial address, as the code has it, yields no port. */
  lemma DefaultAddressHasNoPort()
    ensures GetServerUrl("192.168.1.25") == "http://" + "192.168.1.25"
  {
    var s := "192.168.1.25";
    assert IsTrimmed(s) by { assert s[0] == '1' && s[|s| - 1] == '5'; }
    TrimmedIsFixed(s);
    assert !StartsWith(s, HttpPrefix) by { assert s[0] != HttpPrefix[0]; }
    NormaliseCases(s);
  }
}
