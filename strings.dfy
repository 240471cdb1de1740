/** The string operations the address classifier relies on: the JavaScript builtins
    `String.prototype.trim` and `Array.prototype.join`, and the `${part} `
    accumulation of the postcode loop. */
module Strings {

  /** The code points `trim` strips: ECMAScript WhiteSpace (tab, vertical tab, form feed,
      ZWNBSP and every Unicode space separator) and LineTerminator (LF, CR, LS, PS). */
  predicate IsWhitespace(ch: char) {
    || ch == '\t' || ch == '\n' || ch == '\U{000B}' || ch == '\U{000C}' || ch == '\r'
    || ch == ' ' || ch == '\U{00A0}' || ch == '\U{1680}'
    || ('\U{2000}' <= ch <= '\U{200A}')
    || ch == '\U{2028}' || ch == '\U{2029}' || ch == '\U{202F}' || ch == '\U{205F}'
    || ch == '\U{3000}' || ch == '\U{FEFF}'
  }

  /** Drops leading whitespace. */
  function TrimStart(s: string): string {
    if s != [] && IsWhitespace(s[0]) then TrimStart(s[1..]) else s
  }

  /** Drops trailing whitespace. */
  function TrimEnd(s: string): string {
    if s != [] && IsWhitespace(s[|s| - 1]) then TrimEnd(s[..|s| - 1]) else s
  }

  /** `s.trim()`. */
  function Trim(s: string): string {
    TrimEnd(TrimStart(s))
  }

  /** `TrimStart` leaves a suffix of `s`, everything it dropped is whitespace, and what
      it leaves does not start with whitespace. */
  lemma {:induction false} TrimStartSuffix(s: string)
    ensures var r := TrimStart(s);
      && |r| <= |s| && r == s[|s| - |r|..]
      && (forall k :: 0 <= k < |s| - |r| ==> IsWhitespace(s[k]))
      && (r == [] || !IsWhitespace(r[0]))
    decreases |s|
  {
    if s != [] && IsWhitespace(s[0]) {
      TrimStartSuffix(s[1..]);
    }
  }

  /** `TrimEnd` leaves a prefix of `s`, everything it dropped is whitespace, and what
      it leaves does not end with whitespace. */
  lemma {:induction false} TrimEndPrefix(s: string)
    ensures var r := TrimEnd(s);
      && |r| <= |s| && r == s[..|r|]
      && (forall k :: |r| <= k < |s| ==> IsWhitespace(s[k]))
      && (r == [] || !IsWhitespace(r[|r| - 1]))
    decreases |s|
  {
    if s != [] && IsWhitespace(s[|s| - 1]) {
      TrimEndPrefix(s[..|s| - 1]);
    }
  }

  /** `trim` keeps the slice of `s` between its leading and its trailing whitespace:
      everything outside it is whitespace, its ends are not, and interior whitespace is kept. */
  lemma TrimSlice(s: string)
    ensures var r, lead := Trim(s), |s| - |TrimStart(s)|;
      && 0 <= lead && lead + |r| <= |s|
      && r == s[lead..lead + |r|]
      && (forall k :: 0 <= k < lead ==> IsWhitespace(s[k]))
      && (forall k :: lead + |r| <= k < |s| ==> IsWhitespace(s[k]))
      && (r == [] || (!IsWhitespace(r[0]) && !IsWhitespace(r[|r| - 1])))
  {
    TrimStartSuffix(s);
    TrimEndPrefix(TrimStart(s));
  }

  /** `tokens.join(sep)`: the tokens in order, with `sep` between neighbours. */
  function Join(tokens: seq<string>, sep: string): string {
    if |tokens| == 0 then ""
    else if |tokens| == 1 then tokens[0]
    else tokens[0] + sep + Join(tokens[1..], sep)
  }

  /** What `forEach(part => acc += `${part} `)` accumulates: every part followed by one space. */
  function Spaced(parts: seq<string>): string {
    if parts == [] then "" else Spaced(parts[..|parts| - 1]) + parts[|parts| - 1] + " "
  }
}
