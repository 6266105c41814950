/** Name syntax shared by the operator's checks: RFC 1123 labels and subdomains, and label values. */
module Names {

  predicate LowerAlnum(c: char) {
    'a' <= c <= 'z' || '0' <= c <= '9'
  }

  predicate Alnum(c: char) {
    LowerAlnum(c) || 'A' <= c <= 'Z'
  }

  /** An RFC 1123 label: lower-case alphanumerics and inner dashes, at most 63 characters. */
  predicate IsLabel(s: string) {
    && 0 < |s| <= 63
    && LowerAlnum(s[0]) && LowerAlnum(s[|s| - 1])
    && forall i :: 0 <= i < |s| ==> LowerAlnum(s[i]) || s[i] == '-'
  }

  /** An RFC 1123 subdomain: dot-separated labels, at most 253 characters. */
  predicate IsSubdomain(s: string) {
    && 0 < |s| <= 253
    && LowerAlnum(s[0]) && LowerAlnum(s[|s| - 1])
    && (forall i :: 0 <= i < |s| ==> LowerAlnum(s[i]) || s[i] == '-' || s[i] == '.')
    && (forall i :: 0 < i < |s| && s[i] == '.' ==> LowerAlnum(s[i - 1]) && i + 1 < |s| && LowerAlnum(s[i + 1]))
  }

  /** A label value: empty, or alphanumerics with inner dashes, underscores and dots, at most 63 characters. */
  predicate IsLabelValue(s: string) {
    || s == ""
    || (&& |s| <= 63
        && Alnum(s[0]) && Alnum(s[|s| - 1])
        && forall i :: 0 <= i < |s| ==> Alnum(s[i]) || s[i] in "-_.")
  }

  /** White space as the Go library has it. */
  predicate IsSpace(c: char) {
    || c == ' ' || '\t' <= c <= '\r' || c == '\U{85}' || c == '\U{A0}' || c == '\U{1680}'
    || '\U{2000}' <= c <= '\U{200A}' || c == '\U{2028}' || c == '\U{2029}' || c == '\U{202F}'
    || c == '\U{205F}' || c == '\U{3000}'
  }
}
