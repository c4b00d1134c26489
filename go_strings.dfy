/**
 * The pieces of Go's standard library the core relies on for strings:
 * strings.TrimSpace (with unicode.IsSpace), strings.Trim of one cut character,
 * the UTF-8 encoding behind []byte(s) and len(s), and %q quoting.
 */
module GoStrings {

  newtype byte = b: int | 0 <= b < 256

  /** unicode.IsSpace: the Latin-1 spaces and the White_Space characters above U+00FF. */
  predicate IsSpace(c: char) {
    || c == ' ' || c == '\t' || c == '\n' || c == '\r'
    || c == '\U{0B}' || c == '\U{0C}' || c == '\U{85}' || c == '\U{A0}'
    || c == '\U{1680}' || ('\U{2000}' <= c <= '\U{200A}')
    || c == '\U{2028}' || c == '\U{2029}' || c == '\U{202F}' || c == '\U{205F}'
    || c == '\U{3000}'
  }

  /** Drops the leading characters satisfying IsSpace. */
  function TrimLeftSpace(s: string): (r: string)
    ensures |r| <= |s|
    ensures r == [] || !IsSpace(r[0])
  {
    if s != [] && IsSpace(s[0]) then TrimLeftSpace(s[1..]) else s
  }

  /** Drops the trailing characters satisfying IsSpace. */
  function TrimRightSpace(s: string): (r: string)
    ensures |r| <= |s|
    ensures r == [] || !IsSpace(r[|r| - 1])
  {
    if s != [] && IsSpace(s[|s| - 1]) then TrimRightSpace(s[..|s| - 1]) else s
  }

  /** TrimLeftSpace removes a prefix made of spaces only. */
  lemma {:induction false} TrimLeftSpaceIsSuffix(s: string)
    ensures var r := TrimLeftSpace(s);
      && r == s[|s| - |r|..]
      && forall k :: 0 <= k < |s| - |r| ==> IsSpace(s[k])
  {
    if s != [] && IsSpace(s[0]) {
      TrimLeftSpaceIsSuffix(s[1..]);
    }
  }

  /** TrimRightSpace removes a suffix made of spaces only. */
  lemma {:induction false} TrimRightSpaceIsPrefix(s: string)
    ensures var r := TrimRightSpace(s);
      && r == s[..|r|]
      && forall k :: |r| <= k < |s| ==> IsSpace(s[k])
  {
    if s != [] && IsSpace(s[|s| - 1]) {
      TrimRightSpaceIsPrefix(s[..|s| - 1]);
    }
  }

  /** strings.TrimSpace. */
  function TrimSpace(s: string): string {
    TrimRightSpace(TrimLeftSpace(s))
  }

  /** A trimmed string has no surrounding space, so trimming it again changes nothing. */
  lemma {:induction false} TrimSpaceIdempotent(s: string)
    ensures TrimSpace(TrimSpace(s)) == TrimSpace(s)
    ensures var t := TrimSpace(s); t == [] || (!IsSpace(t[0]) && !IsSpace(t[|t| - 1]))
  {
    var l := TrimLeftSpace(s);
    var t := TrimRightSpace(l);
    TrimRightSpaceIsPrefix(l);
    if t != [] {
      assert t[0] == l[0];
      assert TrimLeftSpace(t) == t;
    } else {
      assert TrimLeftSpace(t) == t;
    }
    assert TrimRightSpace(t) == t;
  }

  /** A string whose ends are not spaces is its own trim. */
  lemma TrimSpaceOfTrimmed(s: string)
    requires s == [] || (!IsSpace(s[0]) && !IsSpace(s[|s| - 1]))
    ensures TrimSpace(s) == s
  {
    assert TrimLeftSpace(s) == s;
  }

  /** Drops leading and trailing '-' (strings.Trim(s, "-")). */
  function TrimDashes(s: string): (r: string)
    ensures |r| <= |s|
    ensures r == [] || (r[0] != '-' && r[|r| - 1] != '-')
    ensures forall k :: 0 <= k < |r| ==> r[k] in s
    ensures (forall k :: 0 <= k < |s| ==> s[k] == '-') ==> r == []
  {
    if s == [] then []
    else if s[0] == '-' then TrimDashes(s[1..])
    else if s[|s| - 1] == '-' then TrimDashes(s[..|s| - 1])
    else s
  }

  /** The UTF-8 encoding of one Unicode scalar value. */
  function EncodeRune(c: char): (bs: seq<byte>)
    ensures 1 <= |bs| <= 4
    ensures |bs| == 1 <==> c as int < 0x80
  {
    var n := c as int;
    if n < 0x80 then [n as byte]
    else if n < 0x800 then [(0xC0 + n / 0x40) as byte, (0x80 + n % 0x40) as byte]
    else if n < 0x10000 then
      [(0xE0 + n / 0x1000) as byte, (0x80 + (n / 0x40) % 0x40) as byte, (0x80 + n % 0x40) as byte]
    else
      [(0xF0 + n / 0x40000) as byte, (0x80 + (n / 0x1000) % 0x40) as byte,
       (0x80 + (n / 0x40) % 0x40) as byte, (0x80 + n % 0x40) as byte]
  }

  /** []byte(s): the UTF-8 bytes of s; Go's len(s) is the length of this sequence. */
  function Utf8(s: string): (bs: seq<byte>)
    ensures |bs| >= |s|
    ensures (forall k :: 0 <= k < |s| ==> s[k] as int < 0x80) ==> |bs| == |s|
  {
    if s == [] then [] else EncodeRune(s[0]) + Utf8(s[1..])
  }

  /** %q, without Go's escaping of quotes and control characters. */
  function Quote(s: string): string {
    "\"" + s + "\""
  }
}
