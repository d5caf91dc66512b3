/** Trimming and deduplication of strings, as str::trim and unique() do them. */
module Text {
  // Unicode White_Space.
  predicate IsWhite(c: char) {
    '\U{9}' <= c <= '\U{D}' || c == ' ' || c == '\U{85}' || c == '\U{A0}' || c == '\U{1680}'
    || '\U{2000}' <= c <= '\U{200A}' || c == '\U{2028}' || c == '\U{2029}' || c == '\U{202F}'
    || c == '\U{205F}' || c == '\U{3000}'
  }

  function TrimStart(s: string): string {
    if s != [] && IsWhite(s[0]) then TrimStart(s[1..]) else s
  }

  function TrimEnd(s: string): string {
    if s != [] && IsWhite(s[|s| - 1]) then TrimEnd(s[..|s| - 1]) else s
  }

  function Trim(s: string): string {
    TrimEnd(TrimStart(s))
  }

  // The trimmed, nonempty values of `s[..n]`, first occurrences only.
  function UniqueUpTo(s: seq<string>, n: nat): seq<string>
    requires n <= |s|
  {
    if n == 0 then []
    else
      var done := UniqueUpTo(s, n - 1);
      var t := Trim(s[n - 1]);
      if t == "" || t in done then done else done + [t]
  }

  function Unique(s: seq<string>): seq<string> {
    UniqueUpTo(s, |s|)
  }
}
