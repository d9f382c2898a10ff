/** The two regular expressions of svelte.config.js, and what each one means as a
    plain property of the string it is applied to. */
module Patterns {

  import opened Wrappers
  import opened Regex

  /** `/\/$/`: a slash at the very end of the input. */
  const TrailingSlash: seq<Atom> := [Lit('/'), End]

  /** `/^https?:\/\//`: `http://` or `https://` at the very start of the input. */
  const HttpScheme: seq<Atom> := [Start, Lit('h'), Lit('t'), Lit('t'), Lit('p'), Opt('s'), Lit(':'), Lit('/'), Lit('/')]

  predicate EndsWithSlash(s: string)
  {
    |s| > 0 && s[|s| - 1] == '/'
  }

  /** Case-sensitive: `HTTPS://` is not a scheme prefix. */
  predicate HasHttpScheme(s: string)
  {
    "http://" <= s || "https://" <= s
  }

  /** Where `/\/$/` matches: at the last index when the input ends with a slash,
      nowhere otherwise. */
  lemma {:induction false} TrailingSlashExec(s: string, from: nat)
    requires from <= |s|
    ensures Exec(TrailingSlash, s, from) ==
              if EndsWithSlash(s) && from < |s| then Some((|s| - 1, |s|)) else None
    decreases |s| - from
  {
    var p := TrailingSlash;
    assert p[0] == Lit('/') && p[1..] == [End] && [End][1..] == [];
    if from < |s| {
      TrailingSlashExec(s, from + 1);
    }
  }

  /** `s.replace(/\/$/, '')`: removes one final slash, and only one. */
  function ReplaceTrailingSlash(s: string): (r: string)
    ensures EndsWithSlash(s) ==> r + "/" == s
    ensures !EndsWithSlash(s) ==> r == s
  {
    TrailingSlashExec(s, 0);
    Replace(TrailingSlash, s, "")
  }

  /** At index 0 the scheme pattern matches exactly the strings that begin with
      `http://` or `https://`. */
  lemma HttpSchemeAtStart(s: string)
    ensures MatchFrom(HttpScheme, s, 0).Some? <==> HasHttpScheme(s)
  {
  }

  /** Searching from `from`, the scheme pattern is found exactly when the search
      starts at index 0 and the input begins with a scheme: the leading `^` rules
      out every later index. */
  lemma {:induction false} HttpSchemeExec(s: string, from: nat)
    requires from <= |s|
    ensures Exec(HttpScheme, s, from).Some? <==> from == 0 && HasHttpScheme(s)
    decreases |s| - from
  {
    assert HttpScheme[0] == Start;
    if from == 0 {
      HttpSchemeAtStart(s);
    }
    if from < |s| {
      HttpSchemeExec(s, from + 1);
    }
  }

  /** `/^https?:\/\//.test(s)`. */
  function TestHttpScheme(s: string): (r: bool)
    ensures r <==> HasHttpScheme(s)
  {
    HttpSchemeExec(s, 0);
    Test(HttpScheme, s)
  }

  /** Removing the trailing slash undoes appending one. */
  lemma ReplaceTrailingSlashUndoesAppend(s: string)
    ensures ReplaceTrailingSlash(s + "/") == s
  {
    assert (s + "/")[..|s|] == s;
  }

  /** At most one character goes, and when one goes it is the final slash. */
  lemma ReplaceTrailingSlashLength(s: string)
    ensures |ReplaceTrailingSlash(s)| == if EndsWithSlash(s) then |s| - 1 else |s|
  {
  }

  /** The trim is not a normalisation: applying it a second time changes the
      result exactly when the input ended with two slashes. */
  lemma ReplaceTrailingSlashTwice(s: string)
    ensures (ReplaceTrailingSlash(ReplaceTrailingSlash(s)) == ReplaceTrailingSlash(s))
            <==> !(|s| >= 2 && s[|s| - 2] == '/' && s[|s| - 1] == '/')
  {
  }

  /** `"/a//"` trims to `"/a/"`, which trims again to `"/a"`. */
  lemma ReplaceTrailingSlashNotIdempotent()
    ensures ReplaceTrailingSlash("/a//") == "/a/"
    ensures ReplaceTrailingSlash(ReplaceTrailingSlash("/a//")) == "/a"
  {
    assert "/a/" + "/" == "/a//" && "/a" + "/" == "/a/";
    ReplaceTrailingSlashUndoesAppend("/a/");
    ReplaceTrailingSlashUndoesAppend("/a");
  }

  /** The scheme test is case-sensitive and needs both slashes. */
  lemma HttpSchemeExamples()
    ensures TestHttpScheme("https://cdn.example.com/")
    ensures TestHttpScheme("http://")
    ensures !TestHttpScheme("cdn.example.com")
    ensures !TestHttpScheme("HTTPS://x")
    ensures !TestHttpScheme("http:/")
  {
  }
}
