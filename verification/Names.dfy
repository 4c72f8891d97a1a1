/** The name grammars of internal/core/core.go. */
module Names {

  predicate Alphanumeric(c: char) {
    'a' <= c <= 'z' || 'A' <= c <= 'Z' || '0' <= c <= '9'
  }

  predicate NameChar(c: char) {
    Alphanumeric(c) || c == '-' || c == '_' || c == '.'
  }

  /** `validHostReference`, the grammar of host names and serial numbers. */
  predicate ValidHostName(s: string) {
    1 <= |s| <= 128 && s[0] != '-' && forall i :: 0 <= i < |s| ==> NameChar(s[i])
  }

  /** `validSSHUser`. */
  predicate ValidSSHUser(s: string) {
    1 <= |s| <= 64 && s[0] != '-' && forall i :: 0 <= i < |s| ==> NameChar(s[i])
  }

  predicate RelayChar(c: char) {
    NameChar(c) || c == ':' || c == '/'
  }

  predicate HasPrefix(s: string, prefix: string) {
    |prefix| <= |s| && s[..|prefix|] == prefix
  }

  predicate HasSuffix(s: string, suffix: string) {
    |suffix| <= |s| && s[|s| - |suffix|..] == suffix
  }

  /** `validRelayURL`. */
  predicate ValidRelayURL(s: string) {
    && 8 <= |s| <= 512
    && (HasPrefix(s, "http://") || HasPrefix(s, "https://"))
    && forall i :: 0 <= i < |s| ==> RelayChar(s[i])
  }
}
