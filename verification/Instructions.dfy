/**
 * Instruction templating (src/agents/instructions.rs): `{name}` placeholders in a static instruction are replaced
 * by session state or artifact content.  How a body is resolved is here; finding the bodies is TemplateScanner.
 */
module Instructions {
  import opened Wrappers
  import opened TemplateScanner

  // ---- What a placeholder can refer to -----------------------------------------------------------------

  datatype Error =
    | NoArtifactService
    | LoadFailed(artifact: string)
    | ArtifactNotFound(artifact: string)
    | VariableNotFound(name: string)

  /** A JSON value or an artifact part: a string is shown bare, anything else in its serialized form. */
  datatype Value = Str(s: string) | Other(serialized: string)

  /** The three Unicode tables that the source consults. */
  datatype CharClasses = CharClasses(alphabetic: char -> bool, numeric: char -> bool, whitespace: char -> bool)

  datatype Context = Context(
    state: map<string, Value>,
    artifacts: Option<string -> Result<Option<Value>, Error>>,
    chars: CharClasses)

  function Render(v: Value): string {
    match v
    case Str(s) => s
    case Other(serialized) => serialized
  }

  function IsIdentifier(s: string, cc: CharClasses): bool {
    && |s| > 0
    && (cc.alphabetic(s[0]) || s[0] == '_')
    && forall i | 1 <= i < |s| :: cc.alphabetic(s[i]) || cc.numeric(s[i]) || s[i] == '_'
  }

  const ARTIFACT_PREFIX := "artifact."

  function IsValidStateName(name: string, cc: CharClasses): bool {
    var colon := SkipWhile(name, 0, c => c != ':');
    if colon < |name| then
      name[..colon] in {"app", "user", "temp"} && IsIdentifier(name[colon + 1..], cc)
    else
      IsIdentifier(name, cc)
  }

  function StripOptional(v: string): (string, bool) {
    if |v| > 0 && v[|v| - 1] == '?' then (v[..|v| - 1], true) else (v, false)
  }

  /** Resolve one placeholder body.  `Ok(None)`: not a reference, leave it as it is. */
  function ResolveVar(v: string, ctx: Context): Result<Option<string>, Error> {
    var (name, optional) := StripOptional(v);
    if ARTIFACT_PREFIX <= name then
      var artifact := name[|ARTIFACT_PREFIX|..];
      match ctx.artifacts
      case None => Err(NoArtifactService)
      case Some(load) =>
        (match load(artifact)
         case Err(e) => Err(e)
         case Ok(Some(part)) => Ok(Some(Render(part)))
         case Ok(None) => if optional then Ok(Some("")) else Err(ArtifactNotFound(artifact)))
    else if !IsValidStateName(name, ctx.chars) then Ok(None)
    else if name in ctx.state then Ok(Some(Render(ctx.state[name])))
    else if optional then Ok(Some(""))
    else Err(VariableNotFound(name))
  }

  function TrimStart(s: string, cc: CharClasses): string {
    s[SkipWhile(s, 0, cc.whitespace)..]
  }

  function TrimEnd(s: string, cc: CharClasses): string {
    if |s| > 0 && cc.whitespace(s[|s| - 1]) then TrimEnd(s[..|s| - 1], cc) else s
  }

  function Trim(s: string, cc: CharClasses): string {
    TrimEnd(TrimStart(s, cc), cc)
  }

  // ---- The templating function -------------------------------------------------------------------------

  function ResolveBody(ctx: Context): Resolver<Error> {
    body => ResolveVar(Trim(body, ctx.chars), ctx)
  }

  method InjectSessionState(template: string, ctx: Context) returns (r: Result<string, Error>)
    ensures r == Substituted(template, ResolveBody(ctx))
  {
    r := Scan(template, ResolveBody(ctx));
  }

  /** The character tables keep the separators of the name syntax apart from names. */
  ghost predicate Sane(cc: CharClasses) {
    forall c | c in {':', '.', '?', '{', '}'} :: !cc.alphabetic(c) && !cc.numeric(c)
  }

  /** The accepted names are exactly `ident`, `app:ident`, `user:ident` and `temp:ident`. */
  lemma ValidStateNames(name: string, cc: CharClasses)
    requires Sane(cc)
    ensures IsValidStateName(name, cc) <==>
            IsIdentifier(name, cc) ||
            exists p, id :: p in {"app", "user", "temp"} && IsIdentifier(id, cc) && name == p + ":" + id
  {
    var colon := SkipWhile(name, 0, c => c != ':');
    if colon < |name| {
      assert name == name[..colon] + ":" + name[colon + 1..];
      assert name[colon] == ':';
      forall p, id | p in {"app", "user", "temp"} && IsIdentifier(id, cc) && name == p + ":" + id
        ensures IsValidStateName(name, cc)
      {
        assert name[|p|] == ':';
        assert forall k | 0 <= k < |p| :: name[k] == p[k] != ':';
        assert colon == |p|;
        assert name[..colon] == p && name[colon + 1..] == id;
      }
    } else {
      forall p, id | p in {"app", "user", "temp"} && IsIdentifier(id, cc) && name == p + ":" + id
        ensures false
      {
        assert name[|p|] == ':';
      }
    }
  }

  /**
   * A body is left alone exactly when it is neither an artifact reference nor a state name; whether it is does not
   * depend on the state, so a template cannot change its meaning as text because a key comes or goes.
   */
  lemma LeftAlone(v: string, ctx: Context, other: Context)
    requires ctx.chars == other.chars
    ensures var name := StripOptional(v).0;
            ResolveVar(v, ctx) == Ok(None) <==>
            !(ARTIFACT_PREFIX <= name) && !IsValidStateName(name, ctx.chars)
    ensures ResolveVar(v, ctx) == Ok(None) <==> ResolveVar(v, other) == Ok(None)
  {
  }

  ghost predicate NamesNothing(body: string, cc: CharClasses) {
    var name := StripOptional(Trim(body, cc)).0;
    && !(ARTIFACT_PREFIX <= name)
    && !IsIdentifier(name, cc)
    && !exists p, id :: p in {"app", "user", "temp"} && IsIdentifier(id, cc) && name == p + ":" + id
  }

  lemma NothingNamedIsLeft(body: string, ctx: Context)
    requires Sane(ctx.chars) && NamesNothing(body, ctx.chars)
    ensures ResolveBody(ctx)(body) == Ok(None)
  {
    var v := Trim(body, ctx.chars);
    ValidStateNames(StripOptional(v).0, ctx.chars);
    LeftAlone(v, ctx, ctx);
  }

  /**
   * JSON in an instruction survives: when no `{...}` encloses an artifact reference, an identifier or a prefixed
   * identifier, the template comes back unchanged, whatever the session state holds.
   */
  lemma LiteralBracesSurvive(template: string, ctx: Context)
    requires Sane(ctx.chars)
    requires forall m | MatchAt(template, m) :: NamesNothing(template[m.open..m.close], ctx.chars)
    ensures Substituted(template, ResolveBody(ctx)) == Ok(template)
  {
    hide ResolveVar;
    hide Trim;
    hide NamesNothing;
    forall m | MatchAt(template, m) ensures ResolveBody(ctx)(template[m.open..m.close]) == Ok(None) {
      NothingNamedIsLeft(template[m.open..m.close], ctx);
    }
    NoReferenceUnchanged(template, ResolveBody(ctx));
  }

  // ---- What references are replaced by -----------------------------------------------------------------

  /** Identifiers, letter by letter. */
  lemma IdentifierGrows(s: string, c: char, cc: CharClasses)
    ensures !IsIdentifier("", cc)
    ensures IsIdentifier([c], cc) <==> cc.alphabetic(c) || c == '_'
    ensures s != "" ==>
              (IsIdentifier(s + [c], cc) <==> IsIdentifier(s, cc) && (cc.alphabetic(c) || cc.numeric(c) || c == '_'))
  {
    if s != "" {
      var t := s + [c];
      assert t[0] == s[0] && t[|s|] == c && forall i | 1 <= i < |s| :: t[i] == s[i];
    }
  }

  /** Text without braces and without space around it. */
  predicate Bare(s: string, cc: CharClasses) {
    && s != "" && !cc.whitespace(s[0]) && !cc.whitespace(s[|s| - 1])
    && forall i | 0 <= i < |s| :: !IsBrace(s[i])
  }

  predicate Blank(s: string, cc: CharClasses) {
    forall i | 0 <= i < |s| :: cc.whitespace(s[i]) && !IsBrace(s[i])
  }

  lemma {:induction false} TrimEndBlank(s: string, r: string, cc: CharClasses)
    requires Bare(s, cc) && Blank(r, cc)
    ensures TrimEnd(s + r, cc) == s
    decreases r
  {
    if r == "" {
      assert s + r == s;
    } else {
      var n := |r| - 1;
      assert (s + r)[|s + r| - 1] == r[n] && (s + r)[..|s + r| - 1] == s + r[..n];
      TrimEndBlank(s, r[..n], cc);
    }
  }

  /** Space around the body of a placeholder is ignored. */
  lemma TrimPadded(l: string, s: string, r: string, cc: CharClasses)
    requires Bare(s, cc) && Blank(l, cc) && Blank(r, cc)
    ensures Trim(l + s + r, cc) == s
  {
    var t := l + s + r;
    var j := SkipWhile(t, 0, cc.whitespace);
    assert t[|l|] == s[0] && forall i | 0 <= i < |l| :: t[i] == l[i];
    assert j == |l|;
    assert t[j..] == s + r;
    TrimEndBlank(s, r, cc);
  }

  /** A placeholder in a template: nothing before it opens one, and it is closed by a single brace. */
  datatype Place = Place(pre: string, left: string, right: string, post: string)

  predicate Placed(at: Place, cc: CharClasses) {
    && (forall i | 0 <= i < |at.pre| :: at.pre[i] != '{')
    && Blank(at.left, cc) && Blank(at.right, cc)
    && (at.post != "" ==> at.post[0] != '}')
  }

  function Written(at: Place, body: string): string {
    at.pre + "{" + (at.left + body + at.right) + "}" + at.post
  }

  /** The template with `value` in place of the placeholder, and the rest substituted. */
  ghost function Replaced(at: Place, value: string, ctx: Context): Result<string, Error> {
    Prefixed(at.pre + value, Substituted(at.post, ResolveBody(ctx)))
  }

  function PlaceMatch(at: Place, body: string): Match {
    var n, inner := |at.pre|, |at.left + body + at.right|;
    Match(n, n + 1, n + 1 + inner, n + inner + 2)
  }

  lemma WrittenParts(at: Place, body: string)
    ensures var t, m := Written(at, body), PlaceMatch(at, body);
            && m.start < m.open <= m.close < m.end <= |t|
            && t[..m.start] == at.pre && t[m.open..m.close] == at.left + body + at.right && t[m.end..] == at.post
            && t[m.start..m.end] == "{" + (at.left + body + at.right) + "}"
            && t[m.start] == '{' && t[m.close] == '}'
            && (forall k | 0 <= k < m.start :: t[k] == at.pre[k])
            && (forall k | m.open <= k < m.close :: t[k] == (at.left + body + at.right)[k - m.open])
            && (m.end < |t| ==> t[m.end] == at.post[0])
  {
    var t, m, inner := Written(at, body), PlaceMatch(at, body), at.left + body + at.right;
    assert t == at.pre + ("{" + (inner + ("}" + at.post)));
  }

  lemma PlaceIsFirst(at: Place, body: string, cc: CharClasses)
    requires Placed(at, cc) && Bare(body, cc)
    ensures FirstMatch(Written(at, body), PlaceMatch(at, body))
  {
    var t, m := Written(at, body), PlaceMatch(at, body);
    WrittenParts(at, body);
    InnerHasNoBrace(at, body, cc);
    hide Written, FirstMatch;
    assert MatchAt(t, m);
    ScannedMatchIsFirst(t, m);
  }

  lemma InnerHasNoBrace(at: Place, body: string, cc: CharClasses)
    requires Placed(at, cc) && Bare(body, cc)
    ensures forall k | 0 <= k < |at.left + body + at.right| :: !IsBrace((at.left + body + at.right)[k])
  {
    var inner := at.left + body + at.right;
    forall k | 0 <= k < |inner| ensures !IsBrace(inner[k]) {
      var l, b := |at.left|, |body|;
      assert inner[k] == if k < l then at.left[k] else if k < l + b then body[k - l] else at.right[k - l - b];
    }
  }

  /** What the template comes to with this body in the placeholder. */
  ghost function Filled(at: Place, body: string, ctx: Context): Result<string, Error> {
    Substituted(Written(at, body), ResolveBody(ctx))
  }

  lemma PlaceShown(at: Place, body: string, cc: CharClasses, resolve: Resolver<Error>)
    requires Placed(at, cc) && Bare(body, cc)
    ensures var inner := at.left + body + at.right;
            var shown := match resolve(inner)
                         case Err(e) => Err(e)
                         case Ok(Some(value)) => Ok(value)
                         case Ok(None) => Ok("{" + inner + "}");
            Substituted(Written(at, body), resolve) ==
            if shown.Err? then Err(shown.error) else Prefixed(at.pre + shown.value, Substituted(at.post, resolve))
  {
    PlaceIsFirst(at, body, cc);
    WrittenParts(at, body);
    var t, m := Written(at, body), PlaceMatch(at, body);
    hide Written, FirstMatch, MatchAt, Substituted, PlaceMatch;
    SubstitutedAt(t, m, resolve);
  }

  /** With this body in the placeholder, the template fails, or shows the value in its place. */
  ghost predicate Shows(at: Place, body: string, ctx: Context, outcome: Result<string, Error>) {
    Filled(at, body, ctx) == if outcome.Err? then Err(outcome.error) else Replaced(at, outcome.value, ctx)
  }

  lemma BodyResolved(at: Place, body: string, ctx: Context)
    requires Placed(at, ctx.chars) && Bare(body, ctx.chars)
    ensures Shows(at, body, ctx,
                  match ResolveVar(body, ctx)
                  case Err(e) => Err(e)
                  case Ok(Some(value)) => Ok(value)
                  case Ok(None) => Ok("{" + (at.left + body + at.right) + "}"))
  {
    hide Written, Substituted, Trim, ResolveVar, Bare;
    TrimPadded(at.left, body, at.right, ctx.chars);
    PlaceShown(at, body, ctx.chars, ResolveBody(ctx));
  }

  lemma {:induction false} NamesHaveNoDots(name: string, cc: CharClasses)
    requires Sane(cc) && IsValidStateName(name, cc)
    ensures forall i | 0 <= i < |name| :: name[i] != '.'
  {
    ValidStateNames(name, cc);
    hide IsValidStateName;
    if !IsIdentifier(name, cc) {
      var p, id :| p in {"app", "user", "temp"} && IsIdentifier(id, cc) && name == p + ":" + id;
      forall i | 0 <= i < |name| ensures name[i] != '.' {
        assert name[i] == if i < |p| then p[i] else if i == |p| then ':' else id[i - |p| - 1];
      }
    }
  }

  lemma NamesAreNoArtifacts(name: string, cc: CharClasses)
    requires Sane(cc) && IsValidStateName(name, cc)
    ensures !(ARTIFACT_PREFIX <= name)
  {
    NamesHaveNoDots(name, cc);
    assert ARTIFACT_PREFIX[8] == '.';
  }

  /** A name by itself, and marked with `?`. */
  lemma NameResolved(name: string, ctx: Context)
    requires Sane(ctx.chars) && name != "" && IsValidStateName(name, ctx.chars)
    ensures var (plain, marked) := (ResolveVar(name, ctx), ResolveVar(name + "?", ctx));
            if name in ctx.state then
              plain == marked == Ok(Some(match ctx.state[name] case Str(text) => text case Other(json) => json))
            else
              marked == Ok(Some("")) && plain == Err(VariableNotFound(name))
  {
    NoMarkAtEnd(name, ctx.chars);
    NamesAreNoArtifacts(name, ctx.chars);
    hide IsValidStateName;
    MarkStripped(name);
  }

  lemma MarkStripped(name: string)
    ensures StripOptional(name + "?") == (name, true)
    ensures name != "" && name[|name| - 1] != '?' ==> StripOptional(name) == (name, false)
  {
    assert (name + "?")[..|name|] == name;
  }

  /**
   * A name is replaced by its value in the state, a string as it is and anything else serialized.  Without a value a
   * name marked with `?` is replaced by nothing, and any other makes the template fail with that name.
   */
  lemma NamesAreReplaced(at: Place, name: string, ctx: Context)
    requires Placed(at, ctx.chars) && Name(name, ctx.chars)
    ensures forall text | name in ctx.state && ctx.state[name] in {Str(text), Other(text)} ::
              Shows(at, name, ctx, Ok(text)) && Shows(at, name + "?", ctx, Ok(text))
    ensures name !in ctx.state ==>
              Shows(at, name + "?", ctx, Ok("")) && Shows(at, name, ctx, Err(VariableNotFound(name)))
  {
    hide *;
    NameIs(name, ctx.chars);
    MarkedIsBare(name, ctx.chars);
    NameResolved(name, ctx);
    BodyResolved(at, name, ctx);
    BodyResolved(at, name + "?", ctx);
  }

  /** A valid name, written without space around it. */
  ghost predicate Name(name: string, cc: CharClasses) {
    Sane(cc) && !cc.whitespace('?') && Bare(name, cc) && IsValidStateName(name, cc)
  }

  lemma NameIs(name: string, cc: CharClasses)
    requires Name(name, cc)
    ensures Sane(cc) && !cc.whitespace('?') && Bare(name, cc) && IsValidStateName(name, cc) && name != ""
  {
  }

  lemma MarkedIsBare(s: string, cc: CharClasses)
    requires Bare(s, cc) && !cc.whitespace('?')
    ensures Bare(s + "?", cc)
  {
    var t := s + "?";
    assert t[0] == s[0] && t[|s|] == '?';
  }

  lemma NoMarkAtEnd(name: string, cc: CharClasses)
    requires Sane(cc) && IsValidStateName(name, cc)
    ensures name[|name| - 1] != '?'
  {
    ValidStateNames(name, cc);
    if p, id :| p in {"app", "user", "temp"} && IsIdentifier(id, cc) && name == p + ":" + id {
      assert name[|name| - 1] == id[|id| - 1];
    }
  }

  lemma ArtifactResolved(artifact: string, ctx: Context)
    requires artifact != "" ==> artifact[|artifact| - 1] != '?'
    ensures var (plain, marked) := (ResolveVar(ARTIFACT_PREFIX + artifact, ctx),
                                    ResolveVar(ARTIFACT_PREFIX + artifact + "?", ctx));
            match ctx.artifacts
            case None => plain == marked == Err(NoArtifactService)
            case Some(load) =>
              match load(artifact)
              case Err(e) => plain == marked == Err(e)
              case Ok(Some(Str(text))) => plain == marked == Ok(Some(text))
              case Ok(Some(Other(json))) => plain == marked == Ok(Some(json))
              case Ok(None) => marked == Ok(Some("")) && plain == Err(ArtifactNotFound(artifact))
  {
    var body := ARTIFACT_PREFIX + artifact;
    assert body[|ARTIFACT_PREFIX|..] == artifact;
    assert body[|body| - 1] == if artifact == "" then '.' else artifact[|artifact| - 1];
    MarkStripped(body);
  }

  /**
   * An artifact reference fails without an artifact service, and with the service's own error.  An artifact that is
   * found replaces it; one that is not is an error unless the reference is marked with `?`.
   */
  lemma ArtifactsAreReplaced(at: Place, artifact: string, ctx: Context)
    requires Placed(at, ctx.chars) && !ctx.chars.whitespace('?')
    requires Bare(ARTIFACT_PREFIX + artifact, ctx.chars) && (artifact != "" ==> artifact[|artifact| - 1] != '?')
    ensures var body := ARTIFACT_PREFIX + artifact;
            match ctx.artifacts
            case None =>
              Shows(at, body, ctx, Err(NoArtifactService)) && Shows(at, body + "?", ctx, Err(NoArtifactService))
            case Some(load) =>
              match load(artifact)
              case Err(e) => Shows(at, body, ctx, Err(e)) && Shows(at, body + "?", ctx, Err(e))
              case Ok(Some(Str(text))) => Shows(at, body, ctx, Ok(text)) && Shows(at, body + "?", ctx, Ok(text))
              case Ok(Some(Other(json))) => Shows(at, body, ctx, Ok(json)) && Shows(at, body + "?", ctx, Ok(json))
              case Ok(None) =>
                Shows(at, body + "?", ctx, Ok("")) && Shows(at, body, ctx, Err(ArtifactNotFound(artifact)))
  {
    hide *;
    MarkedIsBare(ARTIFACT_PREFIX + artifact, ctx.chars);
    ArtifactResolved(artifact, ctx);
    BodyResolved(at, ARTIFACT_PREFIX + artifact, ctx);
    BodyResolved(at, ARTIFACT_PREFIX + artifact + "?", ctx);
  }
}
