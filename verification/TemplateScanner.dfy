/**
 * The placeholder scanner of src/agents/instructions.rs, for an arbitrary way to resolve a placeholder body.
 *
 * The source scans by hand and says that it matches the regular expression `{+[^{}]*}+`.  Here the regular
 * expression is the specification: `Substituted` replaces the leftmost, longest match and goes on after it.
 * `Scan` is the scanner, proved to compute exactly that.
 */
module TemplateScanner {
  import opened Wrappers

  /** What a placeholder body stands for: text, nothing (keep the placeholder), or an error. */
  type Resolver<!E> = string -> Result<Option<string>, E>

  /** Index of the first character from `i` on that does not satisfy `p`. */
  function SkipWhile(t: string, i: nat, p: char -> bool): (j: nat)
    requires i <= |t|
    ensures i <= j <= |t|
    ensures forall k | i <= k < j :: p(t[k])
    ensures j < |t| ==> !p(t[j])
    decreases |t| - i
  {
    if i < |t| && p(t[i]) then SkipWhile(t, i + 1, p) else i
  }

  // ---- The regular expression `{+[^{}]*}+` -------------------------------------------------------------

  /** A match of the expression at `[start, end)`, with the bounds of its body. */
  datatype Match = Match(start: nat, open: nat, close: nat, end: nat)

  predicate IsBrace(c: char) { c == '{' || c == '}' }

  ghost predicate MatchAt(t: string, m: Match) {
    && m.start < m.open <= m.close < m.end <= |t|
    && (forall k | m.start <= k < m.open :: t[k] == '{')
    && (forall k | m.open <= k < m.close :: !IsBrace(t[k]))
    && (forall k | m.close <= k < m.end :: t[k] == '}')
  }

  ghost predicate HasMatch(t: string) { exists m :: MatchAt(t, m) }

  /** The match a regular-expression engine finds first: leftmost, then longest. */
  ghost predicate FirstMatch(t: string, m: Match) {
    && MatchAt(t, m)
    && forall n | MatchAt(t, n) :: m.start <= n.start && (n.start == m.start ==> n.end <= m.end)
  }

  function Shift(m: Match, d: nat): Match {
    Match(m.start + d, m.open + d, m.close + d, m.end + d)
  }

  /** A match is fixed by where it starts and ends. */
  lemma MatchDetermined(t: string, m: Match, n: Match)
    requires MatchAt(t, m) && MatchAt(t, n) && m.start == n.start
    ensures m.open == n.open && m.close == n.close
  {
    assert t[m.open] != '{' && t[n.open] != '{';
    assert t[m.close] == '}' && t[n.close] == '}';
  }

  lemma FirstMatchUnique(t: string, m: Match, n: Match)
    requires FirstMatch(t, m) && FirstMatch(t, n)
    ensures m == n
  {
    MatchDetermined(t, m, n);
  }

  /** Where the scanner says "match", the engine finds that very match. */
  lemma ScannedMatchIsFirst(t: string, m: Match)
    requires MatchAt(t, m)
    requires forall k | 0 <= k < m.start :: t[k] != '{'
    requires m.end < |t| ==> t[m.end] != '}'
    ensures FirstMatch(t, m)
  {
    forall n | MatchAt(t, n)
      ensures m.start <= n.start && (n.start == m.start ==> n.end <= m.end)
    {
      assert t[n.start] == '{';
      if n.start == m.start {
        MatchDetermined(t, m, n);
      }
    }
  }

  /** Where the scanner gives up on a run of braces, no match starts inside what it skips. */
  lemma SkippedHasNoMatch(t: string, start: nat, open: nat, close: nat, n: Match)
    requires start < open <= close <= |t|
    requires forall k | 0 <= k < start :: t[k] != '{'
    requires forall k | start <= k < open :: t[k] == '{'
    requires open < |t| ==> t[open] != '{'
    requires forall k | open <= k < close :: !IsBrace(t[k])
    requires close < |t| ==> t[close] == '{'
    requires MatchAt(t, n)
    ensures close <= n.start
  {
    assert t[n.start] == '{' && t[n.open] != '{' && t[n.close] == '}';
    assert n.start < close ==> start <= n.start < open;
    assert open < |t| ==> t[open] != '{';
    assert n.start < open ==> n.open == open;
    assert close < |t| ==> t[close] == '{';
  }

  lemma {:induction false} FirstMatchExists(t: string)
    requires HasMatch(t)
    ensures exists m :: FirstMatch(t, m)
    decreases |t|
  {
    var n :| MatchAt(t, n);
    var start := SkipWhile(t, 0, c => c != '{');
    assert t[n.start] == '{';
    var open := SkipWhile(t, start, c => c == '{');
    var close := SkipWhile(t, open, c => !IsBrace(c));
    var end := SkipWhile(t, close, c => c == '}');
    if close < end {
      ScannedMatchIsFirst(t, Match(start, open, close, end));
    } else {
      forall k | MatchAt(t, k) ensures close <= k.start {
        SkippedHasNoMatch(t, start, open, close, k);
      }
      MatchInSuffix(t, close, n);
      hide *;
      FirstMatchExists(t[close..]);
      var m :| FirstMatch(t[close..], m);
      FirstMatchFromSuffix(t, close, m);
    }
  }

  lemma FirstMatchFromSuffix(t: string, d: nat, m: Match)
    requires d <= |t| && FirstMatch(t[d..], m)
    requires forall k | MatchAt(t, k) :: d <= k.start
    ensures FirstMatch(t, Shift(m, d))
  {
    MatchFromSuffix(t, d, m);
    forall k | MatchAt(t, k)
      ensures Shift(m, d).start <= k.start && (k.start == Shift(m, d).start ==> k.end <= Shift(m, d).end)
    {
      MatchInSuffix(t, d, k);
    }
  }

  lemma MatchInSuffix(t: string, d: nat, m: Match)
    requires MatchAt(t, m)
    requires d <= m.start
    ensures MatchAt(t[d..], Match(m.start - d, m.open - d, m.close - d, m.end - d))
  {
  }

  lemma MatchFromSuffix(t: string, d: nat, m: Match)
    requires d <= |t| && MatchAt(t[d..], m)
    ensures MatchAt(t, Shift(m, d))
  {
    var s := t[d..];
    var n := Shift(m, d);
    assert forall k | d <= k < |t| :: t[k] == s[k - d];
  }

  ghost function First(t: string): (m: Match)
    requires HasMatch(t)
    ensures FirstMatch(t, m)
  {
    FirstMatchExists(t);
    var m :| FirstMatch(t, m);
    m
  }

  // ---- Substitution as the regular expression prescribes it --------------------------------------------

  function Prefixed<E>(p: string, r: Result<string, E>): Result<string, E> {
    if r.Ok? then Ok(p + r.value) else r
  }

  /** What stands in the result for match `m`: what its body resolves to, or the matched text itself. */
  function Shown<E>(t: string, m: Match, resolve: Resolver<E>): Result<string, E>
    requires m.start <= m.open <= m.close <= m.end <= |t|
  {
    match resolve(t[m.open..m.close])
    case Err(e) => Err(e)
    case Ok(Some(v)) => Ok(v)
    case Ok(None) => Ok(t[m.start..m.end])
  }

  /**
   * Replace every leftmost-longest match by what its body resolves to, keep it when the body is not a reference,
   * and fail with the first reference that cannot be resolved.  What is substituted is not looked at again.
   */
  ghost function Substituted<E>(t: string, resolve: Resolver<E>): Result<string, E>
    decreases |t|
  {
    if !HasMatch(t) then Ok(t)
    else
      var m := First(t);
      var shown := Shown(t, m, resolve);
      if shown.Err? then shown else Prefixed(t[..m.start] + shown.value, Substituted(t[m.end..], resolve))
  }

  lemma PrefixedTwice<E>(p: string, q: string, r: Result<string, E>)
    ensures Prefixed(p, Prefixed(q, r)) == Prefixed(p + q, r)
  {
    if r.Ok? { assert p + (q + r.value) == (p + q) + r.value; }
  }

  lemma PrefixedSplit<E>(t: string, d: nat, i: nat, x: string, r: Result<string, E>)
    requires d + i <= |t|
    ensures Prefixed(t[..d], Prefixed(t[d..][..i] + x, r)) == Prefixed(t[..d + i] + x, r)
  {
    PrefixedTwice(t[..d], t[d..][..i] + x, r);
    assert t[..d] + (t[d..][..i] + x) == t[..d + i] + x;
  }

  lemma PrefixedFailure<E>(p: string, r: Result<string, E>)
    requires r.Err?
    ensures Prefixed(p, r) == r
  {
  }

  lemma PrefixedEmpty<E>(r: Result<string, E>)
    ensures Prefixed("", r) == r
  {
    if r.Ok? { assert "" + r.value == r.value; }
  }

  /** Dropping text in which no match starts does not change which match comes first. */
  lemma FirstInSuffix(t: string, d: nat)
    requires d <= |t|
    requires forall n | MatchAt(t, n) :: d <= n.start
    ensures HasMatch(t) <==> HasMatch(t[d..])
    ensures HasMatch(t) ==> FirstMatch(t, Shift(First(t[d..]), d))
  {
    if HasMatch(t[d..]) {
      FirstMatchFromSuffix(t, d, First(t[d..]));
    } else if HasMatch(t) {
      var n :| MatchAt(t, n);
      MatchInSuffix(t, d, n);
    }
  }

  /** One step of the specification, at the match that comes first. */
  lemma SubstitutedAt<E>(t: string, m: Match, resolve: Resolver<E>)
    requires FirstMatch(t, m)
    ensures var shown := Shown(t, m, resolve);
            Substituted(t, resolve) ==
            if shown.Err? then shown else Prefixed(t[..m.start] + shown.value, Substituted(t[m.end..], resolve))
  {
    FirstMatchUnique(t, m, First(t));
  }

  lemma ShownInSuffix<E>(t: string, d: nat, m: Match, resolve: Resolver<E>)
    requires d <= |t| && MatchAt(t[d..], m)
    ensures Shown(t, Shift(m, d), resolve) == Shown(t[d..], m, resolve)
  {
    var s, n := t[d..], Shift(m, d);
    assert t[n.open..n.close] == s[m.open..m.close];
    assert t[n.start..n.end] == s[m.start..m.end];
  }

  /** Text in which no match starts is copied. */
  lemma SubstitutedSkips<E>(t: string, d: nat, resolve: Resolver<E>)
    requires d <= |t|
    requires forall n | MatchAt(t, n) :: d <= n.start
    ensures Substituted(t, resolve) == Prefixed(t[..d], Substituted(t[d..], resolve))
  {
    hide *;
    var s := t[d..];
    FirstInSuffix(t, d);
    if HasMatch(t) {
      var m' := First(s);
      var m := Shift(m', d);
      FirstIsMatch(t, m);
      FirstIsMatch(s, m');
      ShiftBounds(m', d);
      SubstitutedAt(t, m, resolve);
      SubstitutedAt(s, m', resolve);
      ShownInSuffix(t, d, m', resolve);
      SuffixOfSuffix(t, d, m'.end);
      if Shown(t, m, resolve).Ok? {
        PrefixedSplit(t, d, m'.start, Shown(t, m, resolve).value, Substituted(t[m.end..], resolve));
      } else {
        PrefixedFailure(t[..d], Shown(t, m, resolve));
      }
    } else {
      SubstitutedNowhere(t, d, resolve);
    }
  }

  lemma FirstIsMatch(t: string, m: Match)
    requires FirstMatch(t, m)
    ensures MatchAt(t, m) && m.start < m.open <= m.close < m.end <= |t|
  {
  }

  lemma ShiftBounds(m: Match, d: nat)
    ensures Shift(m, d) == Match(m.start + d, m.open + d, m.close + d, m.end + d)
  {
  }

  lemma SuffixOfSuffix(t: string, d: nat, e: nat)
    requires d + e <= |t|
    ensures t[d..][e..] == t[d + e..]
  {
  }

  lemma SubstitutedNowhere<E>(t: string, d: nat, resolve: Resolver<E>)
    requires d <= |t| && !HasMatch(t) && !HasMatch(t[d..])
    ensures Substituted(t, resolve) == Prefixed(t[..d], Substituted(t[d..], resolve))
  {
    assert t == t[..d] + t[d..];
  }

  /** A failure is the failure of some match; where every match resolves, the whole template does. */
  lemma {:induction false} FailureHasCause<E>(t: string, resolve: Resolver<E>)
    requires Substituted(t, resolve).Err?
    ensures exists m :: MatchAt(t, m) && Shown(t, m, resolve) == Substituted(t, resolve)
    decreases |t|
  {
    var m := First(t);
    if Shown(t, m, resolve).Ok? {
      var s := t[m.end..];
      FailureHasCause(s, resolve);
      var n :| MatchAt(s, n) && Shown(s, n, resolve) == Substituted(s, resolve);
      MatchFromSuffix(t, m.end, n);
      ShownInSuffix(t, m.end, n, resolve);
      assert MatchAt(t, Shift(n, m.end));
    }
  }

  /** No match is a reference. */
  ghost predicate NoReference<E>(t: string, resolve: Resolver<E>) {
    forall m | MatchAt(t, m) :: resolve(t[m.open..m.close]) == Ok(None)
  }

  lemma NoReferenceInSuffix<E>(t: string, d: nat, resolve: Resolver<E>)
    requires d <= |t| && NoReference(t, resolve)
    ensures NoReference(t[d..], resolve)
  {
    var s := t[d..];
    forall n | MatchAt(s, n) ensures resolve(s[n.open..n.close]) == Ok(None) {
      MatchFromSuffix(t, d, n);
      var n' := Shift(n, d);
      assert t[n'.open..n'.close] == s[n.open..n.close];
    }
  }

  /** A template in which no match is a state or artifact reference is returned unchanged. */
  lemma {:induction false} NoReferenceUnchanged<E>(t: string, resolve: Resolver<E>)
    requires NoReference(t, resolve)
    ensures Substituted(t, resolve) == Ok(t)
    decreases |t|
  {
    if HasMatch(t) {
      var m := First(t);
      NoReferenceInSuffix(t, m.end, resolve);
      NoReferenceUnchanged(t[m.end..], resolve);
      assert t == t[..m.start] + t[m.start..m.end] + t[m.end..];
    }
  }

  // ---- The scanner -------------------------------------------------------------------------------------

  lemma CopiedInTwo(out: string, rest: string, start: nat, close: nat)
    requires start <= close <= |rest|
    ensures out + rest[..close] == out + rest[..start] + rest[start..close]
  {
  }

  /** One step of the scanner over a run of braces that is not closed. */
  lemma SkipStep<E>(out: string, rest: string, start: nat, open: nat, close: nat, resolve: Resolver<E>)
    requires start < open <= close <= |rest|
    requires forall k | 0 <= k < start :: rest[k] != '{'
    requires forall k | start <= k < open :: rest[k] == '{'
    requires open < |rest| ==> rest[open] != '{'
    requires forall k | open <= k < close :: !IsBrace(rest[k])
    requires close < |rest| ==> rest[close] == '{'
    ensures Prefixed(out, Substituted(rest, resolve)) ==
            Prefixed(out + rest[..start] + rest[start..close], Substituted(rest[close..], resolve))
  {
    forall n | MatchAt(rest, n) ensures close <= n.start {
      SkippedHasNoMatch(rest, start, open, close, n);
    }
    hide *;
    SubstitutedSkips(rest, close, resolve);
    PrefixedTwice(out, rest[..close], Substituted(rest[close..], resolve));
    CopiedInTwo(out, rest, start, close);
  }

  /** One step of the scanner over a match. */
  lemma MatchStep<E>(out: string, rest: string, start: nat, open: nat, close: nat, end: nat, resolve: Resolver<E>)
    requires start < open <= close < end <= |rest|
    requires forall k | 0 <= k < start :: rest[k] != '{'
    requires forall k | start <= k < open :: rest[k] == '{'
    requires forall k | open <= k < close :: !IsBrace(rest[k])
    requires forall k | close <= k < end :: rest[k] == '}'
    requires end < |rest| ==> rest[end] != '}'
    ensures Prefixed(out, Substituted(rest, resolve)) ==
            match resolve(rest[open..close])
            case Err(e) => Err(e)
            case Ok(Some(v)) => Prefixed(out + rest[..start] + v, Substituted(rest[end..], resolve))
            case Ok(None) => Prefixed(out + rest[..start] + rest[start..end], Substituted(rest[end..], resolve))
  {
    var m := Match(start, open, close, end);
    ScannedMatchIsFirst(rest, m);
    SubstitutedAt(rest, m, resolve);
    hide Substituted;
    var shown := Shown(rest, m, resolve);
    if shown.Ok? {
      PrefixedTwice(out, rest[..start] + shown.value, Substituted(rest[end..], resolve));
      assert out + rest[..start] + shown.value == out + (rest[..start] + shown.value);
    }
  }

  lemma NothingToScan<E>(out: string, rest: string, resolve: Resolver<E>)
    requires forall k | 0 <= k < |rest| :: rest[k] != '{'
    ensures Prefixed(out, Substituted(rest, resolve)) == Ok(out + rest)
  {
    forall n ensures !MatchAt(rest, n) {
      assert n.start < |rest| ==> rest[n.start] != '{';
    }
  }

  method Scan<E>(template: string, resolve: Resolver<E>) returns (r: Result<string, E>)
    ensures r == Substituted(template, resolve)
  {
    var out := "";
    var rest := template;
    PrefixedEmpty(Substituted(template, resolve));
    hide Substituted;
    hide Prefixed;
    while true
      invariant Substituted(template, resolve) == Prefixed(out, Substituted(rest, resolve))
      decreases |rest|
    {
      var start := SkipWhile(rest, 0, c => c != '{');
      if start == |rest| {
        break;
      }
      var open := SkipWhile(rest, start, c => c == '{');
      var close := SkipWhile(rest, open, c => !IsBrace(c));
      var end := SkipWhile(rest, close, c => c == '}');
      if close == end {
        SkipStep(out, rest, start, open, close, resolve);
        out := out + rest[..start];
        out := out + rest[start..close];
        rest := rest[close..];
        continue;
      }
      MatchStep(out, rest, start, open, close, end, resolve);
      out := out + rest[..start];
      var found := resolve(rest[open..close]);
      match found {
        case Err(e) => return Err(e);
        case Ok(Some(v)) => out := out + v;
        case Ok(None) => out := out + rest[start..end];
      }
      rest := rest[end..];
    }
    NothingToScan(out, rest, resolve);
    r := Ok(out + rest);
  }
}
