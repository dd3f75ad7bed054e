/**
 * The two selection rules of the agent's start-up code: turning the
 * `--characters` argument into file paths (with the default character as the
 * fallback when nothing loads), and choosing the API token of a model provider.
 */
module Agent {
  import opened Wrappers
  import opened Strings

  // ---------------------------------------------------------------- character paths

  const ParentCharacters := "../characters"
  const BareCharacters := "characters"
  const DotCharacters := "./characters"
  /** The directory all three spellings are rewritten to. */
  const ResolvedCharacters := "../../characters"

  /** The prefix tests, tried in order; the first that matches rewrites the path. */
  function RewritePath(path: string): (r: string)
    ensures r == path || (|r| > |path| && r[|r| - |path|..] == path)
  {
    if StartsWith(path, ParentCharacters) then "../" + path
    else if StartsWith(path, BareCharacters) then "../../" + path
    else if StartsWith(path, DotCharacters) then "../." + path
    else path
  }

  predicate IsCharactersPath(path: string)
  {
    StartsWith(path, ParentCharacters) || StartsWith(path, BareCharacters) || StartsWith(path, DotCharacters)
  }

  /** The three prefix tests exclude each other, so at most one rewrite applies. */
  lemma PrefixTestsExclusive(path: string)
    ensures !(StartsWith(path, ParentCharacters) && StartsWith(path, BareCharacters))
    ensures !(StartsWith(path, ParentCharacters) && StartsWith(path, DotCharacters))
    ensures !(StartsWith(path, BareCharacters) && StartsWith(path, DotCharacters))
  {
    if StartsWith(path, ParentCharacters) {
      assert path[1] == '.';
    }
    if StartsWith(path, BareCharacters) {
      assert path[0] == 'c';
    }
  }

  /** All three spellings of the characters directory end up as `../../characters`. */
  lemma RewriteReachesResolvedDirectory(rest: string)
    ensures RewritePath(ParentCharacters + rest) == ResolvedCharacters + rest
    ensures RewritePath(BareCharacters + rest) == ResolvedCharacters + rest
    ensures RewritePath(DotCharacters + rest) == ResolvedCharacters + rest
  {
    RewriteParent(rest);
    RewriteBare(rest);
    RewriteDot(rest);
  }

  lemma RewriteParent(rest: string)
    ensures RewritePath(ParentCharacters + rest) == ResolvedCharacters + rest
  {
    var p := ParentCharacters + rest;
    assert p[..|ParentCharacters|] == ParentCharacters;
    assert "../" + ParentCharacters == ResolvedCharacters;
    assert "../" + p == ("../" + ParentCharacters) + rest;
  }

  lemma RewriteBare(rest: string)
    ensures RewritePath(BareCharacters + rest) == ResolvedCharacters + rest
  {
    var p := BareCharacters + rest;
    assert p[..|BareCharacters|] == BareCharacters;
    assert p[0] == 'c';
    assert !StartsWith(p, ParentCharacters);
    assert "../../" + BareCharacters == ResolvedCharacters;
    assert "../../" + p == ("../../" + BareCharacters) + rest;
  }

  lemma RewriteDot(rest: string)
    ensures RewritePath(DotCharacters + rest) == ResolvedCharacters + rest
  {
    var p := DotCharacters + rest;
    assert p[..|DotCharacters|] == DotCharacters;
    assert p[0] == '.' && p[1] == '/';
    assert !StartsWith(p, ParentCharacters);
    assert !StartsWith(p, BareCharacters);
    assert "../." + DotCharacters == ResolvedCharacters;
    assert "../." + p == ("../." + DotCharacters) + rest;
  }

  /** Any other path is left as it is. */
  lemma OtherPathsUnchanged(path: string)
    requires !IsCharactersPath(path)
    ensures RewritePath(path) == path
  {
  }

  /** A rewritten path is not rewritten again: the rewrite is idempotent. */
  lemma RewriteIdempotent(path: string)
    ensures RewritePath(RewritePath(path)) == RewritePath(path)
  {
    if IsCharactersPath(path) {
      var r := RewritePath(path);
      assert r[..4] == "../.";
      assert !StartsWith(r, ParentCharacters) by { assert r[3] != ParentCharacters[3]; }
      assert !StartsWith(r, BareCharacters) by { assert r[0] != BareCharacters[0]; }
      assert !StartsWith(r, DotCharacters) by { assert r[1] != DotCharacters[1]; }
    }
  }

  /**
   * `charactersArg?.split(",").map(trim).map(rewrite)`: `None` when the
   * argument is undefined, otherwise one path per comma-separated piece.
   */
  function CharacterPaths(charactersArg: Option<string>): (r: Option<seq<string>>)
    ensures r.None? <==> charactersArg.None?
    ensures r.Some? ==> |r.value| == |Split(charactersArg.value, ',')| >= 1
  {
    match charactersArg
    case None => None
    case Some(arg) =>
      var pieces := Split(arg, ',');
      Some(seq(|pieces|, i requires 0 <= i < |pieces| => RewritePath(Trim(pieces[i]))))
  }

  /** The i-th path is the i-th comma-separated piece of the argument, trimmed and rewritten. */
  lemma CharacterPathsArePieces(charactersArg: string)
    ensures var paths := CharacterPaths(Some(charactersArg)).value;
            forall i :: 0 <= i < |paths| ==> paths[i] == RewritePath(Trim(Split(charactersArg, ',')[i]))
  {
    var pieces := Split(charactersArg, ',');
    assert CharacterPaths(Some(charactersArg)).value
        == seq(|pieces|, i requires 0 <= i < |pieces| => RewritePath(Trim(pieces[i])));
  }

  /** The characters that load, in the order of their paths; a path that fails is skipped. */
  function LoadedFrom<C>(paths: seq<string>, load: string -> Option<C>): (r: seq<C>)
    ensures |r| <= |paths|
  {
    if paths == [] then []
    else
      var init := LoadedFrom(paths[..|paths| - 1], load);
      match load(paths[|paths| - 1])
      case Some(c) => init + [c]
      case None => init
  }

  /** Loading a concatenation of path lists loads each list in turn: the order is kept. */
  lemma {:induction false} LoadedFromAppend<C>(a: seq<string>, b: seq<string>, load: string -> Option<C>)
    ensures LoadedFrom(a + b, load) == LoadedFrom(a, load) + LoadedFrom(b, load)
    decreases |b|
  {
    if b == [] {
      assert a + b == a;
    } else {
      var b' := b[..|b| - 1];
      assert (a + b)[..|a + b| - 1] == a + b';
      assert (a + b)[|a + b| - 1] == b[|b| - 1];
      LoadedFromAppend(a, b', load);
    }
  }

  /** When every path loads, every character is there, in path order. */
  lemma {:induction false} LoadedFromAllLoad<C>(paths: seq<string>, load: string -> Option<C>)
    requires forall i :: 0 <= i < |paths| ==> load(paths[i]).Some?
    ensures |LoadedFrom(paths, load)| == |paths|
    ensures forall i :: 0 <= i < |paths| ==> LoadedFrom(paths, load)[i] == load(paths[i]).value
    decreases |paths|
  {
    if paths != [] {
      var init := paths[..|paths| - 1];
      LoadedFromAllLoad(init, load);
    }
  }

  /**
   * `loadCharacters`: loads every path (`load` stands for reading the JSON file
   * and importing its plugins; `None` when either throws) and falls back to
   * the default character when nothing loaded.
   */
  method LoadCharacters<C>(charactersArg: Option<string>, load: string -> Option<C>, defaultCharacter: C)
    returns (loaded: seq<C>)
    ensures var paths := if charactersArg.Some? then CharacterPaths(charactersArg).value else [];
            loaded == if LoadedFrom(paths, load) == [] then [defaultCharacter] else LoadedFrom(paths, load)
    ensures loaded != []
  {
    var characterPaths := CharacterPaths(charactersArg);
    loaded := [];
    if characterPaths.Some? && |characterPaths.value| > 0 {
      var paths := characterPaths.value;
      for i := 0 to |paths|
        invariant loaded == LoadedFrom(paths[..i], load)
      {
        assert paths[..i + 1][..i] == paths[..i];
        match load(paths[i]) {
          case Some(character) => loaded := loaded + [character];
          case None =>
        }
      }
      assert paths[..|paths|] == paths;
    }
    if |loaded| == 0 {
      loaded := loaded + [defaultCharacter];
    }
  }

  // ---------------------------------------------------------------- provider tokens

  /** The model providers; the ones `getTokenForProvider` has no case for get no token. */
  datatype Provider =
    | OpenAI | LlamaCloud | Anthropic | RedPill | OpenRouter
    | Groq | Google | Ollama | OtherProvider(name: string)

  /** Where one candidate token is looked up: the character's secrets or the global settings. */
  datatype KeySource = Secret(key: string) | Setting(key: string)

  /** The `||` chain of each provider, in the order it is evaluated. */
  function TokenChain(provider: Provider): seq<KeySource>
  {
    match provider
    case OpenAI => [Secret("OPENAI_API_KEY"), Setting("OPENAI_API_KEY")]
    case LlamaCloud =>
      [Secret("LLAMACLOUD_API_KEY"), Setting("LLAMACLOUD_API_KEY"),
       Secret("TOGETHER_API_KEY"), Setting("TOGETHER_API_KEY"),
       Secret("XAI_API_KEY"), Setting("XAI_API_KEY"),
       Secret("OPENAI_API_KEY"), Setting("OPENAI_API_KEY")]
    case Anthropic =>
      [Secret("ANTHROPIC_API_KEY"), Secret("CLAUDE_API_KEY"),
       Setting("ANTHROPIC_API_KEY"), Setting("CLAUDE_API_KEY")]
    case RedPill => [Secret("REDPILL_API_KEY"), Setting("REDPILL_API_KEY")]
    case OpenRouter => [Secret("OPENROUTER"), Setting("OPENROUTER_API_KEY")]
    case _ => []
  }

  /** The value a key source holds; a missing secrets object behaves as an empty map. */
  function Resolve(source: KeySource, secrets: map<string, string>, settings: map<string, string>): (v: Option<string>)
    ensures v.Some? ==> v.value in secrets.Values || v.value in settings.Values
  {
    match source
    case Secret(k) => if k in secrets then Some(secrets[k]) else None
    case Setting(k) => if k in settings then Some(settings[k]) else None
  }

  /** `v0 || v1 || ... || vn`: the first truthy value, or the last value when none is. */
  function OrChain(values: seq<Option<string>>): (v: Option<string>)
    requires values != []
    ensures v in values
  {
    if |values| == 1 || Truthy(values[0]) then values[0] else OrChain(values[1..])
  }

  lemma {:induction false} OrChainFirstTruthy(values: seq<Option<string>>, i: nat)
    requires i < |values| && Truthy(values[i])
    requires forall j :: 0 <= j < i ==> !Truthy(values[j])
    ensures OrChain(values) == values[i]
  {
    if i > 0 {
      OrChainFirstTruthy(values[1..], i - 1);
    }
  }

  lemma {:induction false} OrChainNoneTruthy(values: seq<Option<string>>)
    requires values != []
    requires forall j :: 0 <= j < |values| ==> !Truthy(values[j])
    ensures OrChain(values) == values[|values| - 1]
  {
    if |values| > 1 {
      OrChainNoneTruthy(values[1..]);
    }
  }

  function GetTokenForProvider(provider: Provider, secrets: map<string, string>, settings: map<string, string>): (token: Option<string>)
    ensures TokenChain(provider) == [] ==> token.None?
    ensures token.Some? ==> token.value in secrets.Values || token.value in settings.Values
  {
    var chain := TokenChain(provider);
    if chain == [] then None
    else OrChain(seq(|chain|, i requires 0 <= i < |chain| => Resolve(chain[i], secrets, settings)))
  }

  /**
   * The token is the value of the first key in the provider's chain that holds
   * a non-empty value; when none does, it is whatever the last key holds.
   */
  lemma TokenIsFirstTruthyKey(provider: Provider, secrets: map<string, string>, settings: map<string, string>)
    ensures var chain := TokenChain(provider);
            chain == [] ==> GetTokenForProvider(provider, secrets, settings) == None
    ensures var chain := TokenChain(provider);
            forall i :: 0 <= i < |chain| && Truthy(Resolve(chain[i], secrets, settings))
                     && (forall j :: 0 <= j < i ==> !Truthy(Resolve(chain[j], secrets, settings)))
                     ==> GetTokenForProvider(provider, secrets, settings) == Resolve(chain[i], secrets, settings)
    ensures var chain := TokenChain(provider);
            chain != [] && (forall j :: 0 <= j < |chain| ==> !Truthy(Resolve(chain[j], secrets, settings)))
            ==> GetTokenForProvider(provider, secrets, settings) == Resolve(chain[|chain| - 1], secrets, settings)
  {
    var chain := TokenChain(provider);
    if chain != [] {
      var values := seq(|chain|, i requires 0 <= i < |chain| => Resolve(chain[i], secrets, settings));
      forall i | 0 <= i < |chain| && Truthy(Resolve(chain[i], secrets, settings))
                 && (forall j :: 0 <= j < i ==> !Truthy(Resolve(chain[j], secrets, settings)))
        ensures GetTokenForProvider(provider, secrets, settings) == Resolve(chain[i], secrets, settings)
      {
        OrChainFirstTruthy(values, i);
      }
      if forall j :: 0 <= j < |chain| ==> !Truthy(Resolve(chain[j], secrets, settings)) {
        OrChainNoneTruthy(values);
      }
    }
  }

  /** A character secret wins over the global setting of the same provider. */
  lemma SecretBeforeSetting(secrets: map<string, string>, settings: map<string, string>)
    ensures Truthy(Resolve(Secret("OPENAI_API_KEY"), secrets, settings)) ==>
              GetTokenForProvider(OpenAI, secrets, settings) == Some(secrets["OPENAI_API_KEY"])
    ensures !Truthy(Resolve(Secret("OPENAI_API_KEY"), secrets, settings)) ==>
              GetTokenForProvider(OpenAI, secrets, settings) == Resolve(Setting("OPENAI_API_KEY"), secrets, settings)
  {
    var chain := TokenChain(OpenAI);
    var values := seq(|chain|, i requires 0 <= i < |chain| => Resolve(chain[i], secrets, settings));
    assert values == [Resolve(Secret("OPENAI_API_KEY"), secrets, settings), Resolve(Setting("OPENAI_API_KEY"), secrets, settings)];
    assert GetTokenForProvider(OpenAI, secrets, settings) == OrChain(values);
    if !Truthy(values[0]) {
      assert values[1..] == [values[1]];
      assert OrChain(values) == OrChain(values[1..]);
    }
  }

  /** Providers the switch does not list get `undefined`. */
  lemma UnlistedProvidersGetNoToken(provider: Provider, secrets: map<string, string>, settings: map<string, string>)
    requires provider.Groq? || provider.Google? || provider.Ollama? || provider.OtherProvider?
    ensures GetTokenForProvider(provider, secrets, settings) == None
  {
  }
}
