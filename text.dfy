/** Reading back the fixed opening words of the console lines the notifications write. */
module Text {
  import opened Wrappers

  /** What follows `prefix` in `line`, when `line` starts with `prefix`. */
  function StripPrefix(prefix: string, line: string): (rest: Option<string>)
    ensures rest.Some? <==> prefix <= line
    ensures rest.Some? ==> line == prefix + rest.value
  {
    if prefix <= line then Some(line[|prefix|..]) else None
  }

  /** Stripping a prefix undoes prepending it. */
  lemma StripPrefixOfConcat(prefix: string, rest: string)
    ensures StripPrefix(prefix, prefix + rest) == Some(rest)
  {
  }

  /** Two prefixes that disagree at some position cannot both open the same line. */
  lemma ClashingPrefixes(p: string, q: string, line: string, k: nat)
    requires k < |p| && k < |q| && p[k] != q[k]
    ensures !(p <= line && q <= line)
  {
  }
}
