/** Identifier syntax shared by the node and the control plane, and the NUL-joined composite keys built from
    identifiers. */
module Identifiers {

  const MAX_SAFE_NAME := 128
  const NUL: char := 0 as char

  predicate IsAlphanumeric(c: char) {
    'a' <= c <= 'z' || 'A' <= c <= 'Z' || '0' <= c <= '9'
  }

  /** `^[A-Za-z0-9][A-Za-z0-9._-]{0,127}$`, the syntax of project, route, sandbox and workspace ids. */
  predicate SafeName(s: string) {
    && 1 <= |s| <= MAX_SAFE_NAME
    && IsAlphanumeric(s[0])
    && forall i | 0 <= i < |s| :: IsAlphanumeric(s[i]) || s[i] in "._-"
  }

  predicate IsSpace(c: char) {
    || '\t' <= c <= '\r'
    || c == ' '
    || c as int in {0x85, 0xA0, 0x1680, 0x2028, 0x2029, 0x202F, 0x205F, 0x3000}
    || 0x2000 <= c as int <= 0x200A
  }

  predicate IsControl(c: char) {
    c as int < 0x20 || 0x7F <= c as int <= 0x9F
  }

  predicate Blank(s: string) {
    forall i | 0 <= i < |s| :: IsSpace(s[i])
  }

  predicate Contains(s: string, c: char) {
    exists i | 0 <= i < |s| :: s[i] == c
  }

  function ScopedKey(projectId: string, resourceId: string): string {
    projectId + [NUL] + resourceId
  }

  function IdempotencyKey(projectId: string, kind: string, key: string): string {
    projectId + [NUL] + kind + [NUL] + key
  }

  /** Safe names, built up a character at a time: one letter or digit, then letters, digits, dots, underscores and
      dashes, up to 128 in all. */
  lemma SafeNamesGrow(s: string, c: char)
    ensures !SafeName("") && (SafeName([c]) <==> 'a' <= c <= 'z' || 'A' <= c <= 'Z' || '0' <= c <= '9')
    ensures s != "" ==>
              (SafeName(s + [c]) <==>
                SafeName(s) && |s| < 128
                && ('a' <= c <= 'z' || 'A' <= c <= 'Z' || '0' <= c <= '9' || c == '.' || c == '_' || c == '-'))
  {
    var t := s + [c];
    if s != "" {
      assert t[0] == s[0] && t[|s|] == c && forall i | 0 <= i < |s| :: t[i] == s[i];
      if SafeName(t) {
        assert forall i | 0 <= i < |s| :: IsAlphanumeric(t[i]) || t[i] in "._-";
      }
    }
  }

  lemma SafeNameHasNoNul(s: string)
    requires SafeName(s)
    ensures !Contains(s, NUL)
  {
  }

  lemma SeparatorIsFirstNul(p: string, r: string)
    requires !Contains(p, NUL)
    ensures ScopedKey(p, r)[|p|] == NUL
    ensures forall i | 0 <= i < |p| :: ScopedKey(p, r)[i] != NUL
    ensures ScopedKey(p, r)[..|p|] == p && ScopedKey(p, r)[|p| + 1..] == r
  {
  }

  /** Two joined keys agree only if their parts agree, provided the leading part cannot hold the
      separator. This is what lets the rest of the project key its maps by pairs. */
  lemma ScopedKeyInjective(p: string, r: string, p': string, r': string)
    requires !Contains(p, NUL) && !Contains(p', NUL)
    ensures ScopedKey(p, r) == ScopedKey(p', r') <==> p == p' && r == r'
  {
    SeparatorIsFirstNul(p, r);
    SeparatorIsFirstNul(p', r');
  }

  lemma IdempotencyKeyInjective(p: string, n: string, k: string, p': string, n': string, k': string)
    requires !Contains(p, NUL) && !Contains(p', NUL) && !Contains(n, NUL) && !Contains(n', NUL)
    ensures IdempotencyKey(p, n, k) == IdempotencyKey(p', n', k') <==> p == p' && n == n' && k == k'
  {
    assert IdempotencyKey(p, n, k) == ScopedKey(p, ScopedKey(n, k));
    assert IdempotencyKey(p', n', k') == ScopedKey(p', ScopedKey(n', k'));
    ScopedKeyInjective(p, ScopedKey(n, k), p', ScopedKey(n', k'));
    ScopedKeyInjective(n, k, n', k');
  }
}
