/** Just enough of ECMAScript regular-expression matching to give meaning to the two
    literal patterns of svelte.config.js: `/\/$/` and `/^https?:\/\//`.

    A pattern is a sequence of atoms. Neither pattern carries a flag, so `^` matches
    only at index 0 and `$` only at the end of the input (no multiline mode), and a
    match is searched for from index 0 upwards, the first index where the pattern
    matches winning. The quantifier `?` is greedy: it first tries to consume its
    character and falls back to consuming nothing. */
module Regex {

  import opened Wrappers

  datatype Atom =
    | Start          // `^`
    | End            // `$`
    | Lit(c: char)   // a literal character, `\/` included
    | Opt(c: char)   // a literal character followed by `?`

  /** The index just past the match of `p` that starts at index `at` of `s`,
      or None when `p` does not match there. */
  function MatchFrom(p: seq<Atom>, s: string, at: nat): (end: Option<nat>)
    requires at <= |s|
    ensures end.Some? ==> at <= end.value <= |s|
    decreases |p|
  {
    if p == [] then Some(at)
    else
      match p[0]
      case Start => if at == 0 then MatchFrom(p[1..], s, at) else None
      case End => if at == |s| then MatchFrom(p[1..], s, at) else None
      case Lit(c) => if at < |s| && s[at] == c then MatchFrom(p[1..], s, at + 1) else None
      case Opt(c) =>
        var taken := if at < |s| && s[at] == c then MatchFrom(p[1..], s, at + 1) else None;
        if taken.Some? then taken else MatchFrom(p[1..], s, at)
  }

  /** The first match of `p` in `s` at an index no smaller than `from`, as the pair
      (start, end) of its bounds; None when there is none. */
  function Exec(p: seq<Atom>, s: string, from: nat): (m: Option<(nat, nat)>)
    requires from <= |s|
    ensures m.Some? ==> from <= m.value.0 <= m.value.1 <= |s|
    ensures m.Some? ==> MatchFrom(p, s, m.value.0) == Some(m.value.1)
    ensures m.Some? ==> forall k :: from <= k < m.value.0 ==> MatchFrom(p, s, k).None?
    ensures m.None? ==> forall k :: from <= k <= |s| ==> MatchFrom(p, s, k).None?
    decreases |s| - from
  {
    match MatchFrom(p, s, from)
    case Some(e) => Some((from, e))
    case None => if from == |s| then None else Exec(p, s, from + 1)
  }

  /** `p` matches at index `i` of `s` and at no smaller index. */
  predicate FirstMatchAt(p: seq<Atom>, s: string, i: nat)
  {
    i <= |s| && MatchFrom(p, s, i).Some? && forall k :: 0 <= k < i ==> MatchFrom(p, s, k).None?
  }

  /** A search from index 0 finds a match exactly when the pattern matches at some
      index, and then it finds the first such index. */
  lemma ExecFromStart(p: seq<Atom>, s: string)
    ensures Exec(p, s, 0).Some? <==> exists k :: 0 <= k <= |s| && MatchFrom(p, s, k).Some?
    ensures forall i: nat :: FirstMatchAt(p, s, i) ==> Exec(p, s, 0) == Some((i, MatchFrom(p, s, i).value))
  {
    var m := Exec(p, s, 0);
    if m.Some? {
      assert MatchFrom(p, s, m.value.0).Some?;
    }
    forall i: nat | FirstMatchAt(p, s, i)
      ensures m == Some((i, MatchFrom(p, s, i).value))
    {
      assert m.Some?;
      assert MatchFrom(p, s, m.value.0).Some?;
      assert m.value.0 >= i;
    }
  }

  /** `p.test(s)` for a pattern without the global or sticky flag. */
  function Test(p: seq<Atom>, s: string): (r: bool)
    ensures r <==> exists k :: 0 <= k <= |s| && MatchFrom(p, s, k).Some?
  {
    ExecFromStart(p, s);
    Exec(p, s, 0).Some?
  }

  /** `s.replace(p, rep)` for a pattern without the global flag: the first match
      only is replaced, and `s` is returned unchanged when there is none. `rep` is
      inserted as literal text: the `$` substitution patterns of a JavaScript
      replacement string (`$$`, `$&`, `$n`, ...) are not modelled. */
  function Replace(p: seq<Atom>, s: string, rep: string): (r: string)
    ensures (forall k :: 0 <= k <= |s| ==> MatchFrom(p, s, k).None?) ==> r == s
    ensures forall i: nat :: FirstMatchAt(p, s, i) ==> r == s[..i] + rep + s[MatchFrom(p, s, i).value..]
  {
    ExecFromStart(p, s);
    var m := Exec(p, s, 0);
    if m.Some? then s[..m.value.0] + rep + s[m.value.1..] else s
  }
}
