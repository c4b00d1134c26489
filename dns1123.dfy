/**
 * The namespace name the reconciler derives (internal/controller/namespacerequest_controller.go):
 * sanitizeDNS1123 turns any string into a label in the syntax of RFC 1123 section 2.1 as
 * Kubernetes restricts it (lowercase letters, digits and '-', alphanumeric at both ends,
 * at most 63 characters), and buildNamespaceName applies it to "<tenant>-<env>".
 */
module Dns1123 {
  import opened GoStrings

  predicate IsAlnum(c: char) {
    'a' <= c <= 'z' || '0' <= c <= '9'
  }

  /** The characters the pattern [^a-z0-9-] leaves alone. */
  predicate IsLabelChar(c: char) {
    IsAlnum(c) || c == '-'
  }

  /** A Kubernetes DNS-1123 label. */
  predicate IsDns1123Label(s: string) {
    && 1 <= |s| <= 63
    && (forall k :: 0 <= k < |s| ==> IsLabelChar(s[k]))
    && s[0] != '-' && s[|s| - 1] != '-'
  }

  /** unicode.ToLower, for the characters whose lower case is a label character: ASCII
      capitals, U+0130 (dotted capital I, lowered to 'i') and U+212A (Kelvin sign, lowered
      to 'k'). Every other character either is its own lower case or lowers to a
      character outside [a-z0-9-], which the next step replaces all the same. */
  function LowerChar(c: char): (l: char)
    ensures IsLabelChar(c) ==> l == c
  {
    if 'A' <= c <= 'Z' then (c as int - 'A' as int + 'a' as int) as char
    else if c == '\U{0130}' then 'i'
    else if c == '\U{212A}' then 'k'
    else c
  }

  /** strings.ToLower, character by character. */
  function ToLower(s: string): (r: string)
    ensures |r| == |s|
    ensures forall k :: 0 <= k < |s| ==> r[k] == LowerChar(s[k])
  {
    if s == [] then [] else [LowerChar(s[0])] + ToLower(s[1..])
  }

  /** regexp [^a-z0-9-]+ replaced by "-": every maximal run of other characters becomes
      one '-'. inRun says whether the previous character already opened such a run. */
  function CollapseInvalid(s: string, inRun: bool): (r: string)
    ensures |r| <= |s|
    ensures forall k :: 0 <= k < |r| ==> IsLabelChar(r[k])
    ensures (forall k :: 0 <= k < |s| ==> !IsAlnum(s[k])) ==> forall k :: 0 <= k < |r| ==> r[k] == '-'
  {
    if s == [] then []
    else if IsLabelChar(s[0]) then [s[0]] + CollapseInvalid(s[1..], false)
    else if inRun then CollapseInvalid(s[1..], true)
    else ['-'] + CollapseInvalid(s[1..], true)
  }

  /** sanitizeDNS1123. After the replacement the string is ASCII, so Go's byte length and
      byte slice are the character length and slice here. */
  function Sanitize(s: string): string {
    var t := TrimDashes(CollapseInvalid(ToLower(TrimSpace(s)), false));
    if t == "" then "ns"
    else if |t| > 63 then
      var u := TrimDashes(t[..63]);
      if u == "" then "ns" else u
    else t
  }

  /** buildNamespaceName: "<tenant>-<env>", sanitised. */
  function BuildNamespaceName(tenant: string, env: string): (n: string)
    ensures IsDns1123Label(n)
  {
    SanitizeValid(tenant + "-" + env);
    Sanitize(tenant + "-" + env)
  }

  /** Trimming the dashes off a string of label characters leaves either nothing or a
      string of label characters with no dash at either end. */
  lemma TrimDashesOfLabelChars(s: string)
    requires forall k :: 0 <= k < |s| ==> IsLabelChar(s[k])
    ensures var r := TrimDashes(s);
      r == [] || (r[0] != '-' && r[|r| - 1] != '-' && forall k :: 0 <= k < |r| ==> IsLabelChar(r[k]))
  {
    var r := TrimDashes(s);
    forall k | 0 <= k < |r| ensures IsLabelChar(r[k]) {
      assert r[k] in s;
    }
  }

  /** A string that does not start with '-' keeps its first character. */
  lemma {:induction false} TrimDashesKeepsLead(s: string)
    requires s != [] && s[0] != '-'
    ensures TrimDashes(s) != []
  {
    if s[|s| - 1] == '-' {
      assert |s| > 1;
      assert s[..|s| - 1][0] == s[0];
      TrimDashesKeepsLead(s[..|s| - 1]);
    }
  }

  /** The sanitiser always yields a DNS-1123 label. */
  lemma SanitizeValid(s: string)
    ensures IsDns1123Label(Sanitize(s))
  {
    var c := CollapseInvalid(ToLower(TrimSpace(s)), false);
    var t := TrimDashes(c);
    TrimDashesOfLabelChars(c);
    if t != "" && |t| > 63 {
      var p := t[..63];
      assert forall k :: 0 <= k < |p| ==> p[k] == t[k];
      TrimDashesOfLabelChars(p);
      assert p[0] == t[0];
      TrimDashesKeepsLead(p);
    }
  }

  /** The sanitiser falls back to "ns" when no letter or digit survives lowering. */
  lemma SanitizeFallback(s: string)
    requires forall k :: 0 <= k < |ToLower(TrimSpace(s))| ==> !IsAlnum(ToLower(TrimSpace(s))[k])
    ensures Sanitize(s) == "ns"
  {
  }

  lemma {:induction false} ToLowerOfLabel(s: string)
    requires forall k :: 0 <= k < |s| ==> IsLabelChar(s[k])
    ensures ToLower(s) == s
  {
    if s != [] {
      ToLowerOfLabel(s[1..]);
    }
  }

  lemma {:induction false} CollapseOfLabel(s: string)
    requires forall k :: 0 <= k < |s| ==> IsLabelChar(s[k])
    ensures CollapseInvalid(s, false) == s
  {
    if s != [] {
      CollapseOfLabel(s[1..]);
    }
  }

  /** A DNS-1123 label is left unchanged: the sanitiser is a projection onto labels. */
  lemma SanitizeFixesLabels(s: string)
    requires IsDns1123Label(s)
    ensures Sanitize(s) == s
  {
    TrimSpaceOfTrimmed(s);
    ToLowerOfLabel(s);
    CollapseOfLabel(s);
  }

  /** Sanitising a sanitised name returns it unchanged. */
  lemma SanitizeIdempotent(s: string)
    ensures Sanitize(Sanitize(s)) == Sanitize(s)
  {
    SanitizeValid(s);
    SanitizeFixesLabels(Sanitize(s));
  }

  /** A lowercase tenant and environment give "<tenant>-<env>" verbatim. */
  lemma BuildNamespaceNameExample()
    ensures BuildNamespaceName("acme", "dev") == "acme-dev"
  {
    var n := "acme-dev";
    assert "acme" + "-" + "dev" == n;
    assert forall k :: 0 <= k < |n| ==> IsLabelChar(n[k]);
    SanitizeFixesLabels(n);
  }
}
