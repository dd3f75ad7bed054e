/**
 * The properties-file reader of the streaming client: `key=value` lines parsed
 * into a map, read back with `GetValue`, re-read with `ReloadConfig`, and one
 * shared instance handed out by `GetInstance`.  The file itself is not read
 * here: its text is a parameter, and `None` stands for a read that threw.
 */
module Config {
  import opened Wrappers
  import opened Strings

  /** The file's text cut into lines, as `content.split('\n')`. */
  function Lines(content: string): (r: seq<string>)
    ensures |r| >= 1
  {
    Split(content, '\n')
  }

  /** A line that is blank or whose trimmed text starts with `#`. */
  predicate IsCommentOrBlank(line: string)
  {
    StartsWith(Trim(line), "#") || Trim(line) == ""
  }

  /**
   * The entry one line contributes: the trimmed first two `=`-pieces, kept
   * only when both are non-empty (a missing second piece is `undefined`).
   */
  function ParseLine(line: string): (r: Option<(string, string)>)
    ensures IsCommentOrBlank(line) ==> r.None?
    ensures r.Some? ==> r.value.0 != "" && r.value.1 != ""
    ensures r.Some? ==> '=' !in r.value.0 && '=' !in r.value.1
  {
    if IsCommentOrBlank(line) then None
    else
      var parts := Split(line, '=');
      var key := Trim(parts[0]);
      var value := if |parts| > 1 then Trim(parts[1]) else "";
      if key != "" && value != "" then Some((key, value)) else None
  }

  predicate Defines(line: string, key: string)
  {
    ParseLine(line).Some? && ParseLine(line).value.0 == key
  }

  /** `config.set(key, value)` for a line that yields an entry. */
  function Store(m: map<string, string>, line: string): (r: map<string, string>)
    ensures m.Keys <= r.Keys
  {
    match ParseLine(line)
    case None => m
    case Some((k, v)) => m[k := v]
  }

  /** The map after the lines have been stored one after the other into `m`. */
  function LoadLines(m: map<string, string>, lines: seq<string>): (r: map<string, string>)
    ensures m.Keys <= r.Keys
  {
    if lines == [] then m else Store(LoadLines(m, lines[..|lines| - 1]), lines[|lines| - 1])
  }

  /** Every stored key and value is non-empty. */
  ghost predicate ValidMap(m: map<string, string>)
  {
    forall k | k in m :: k != "" && m[k] != ""
  }

  /** The entry of a line `k=tail` when `k` holds no `=`: its key is `k` trimmed. */
  lemma KeyIsFirstPiece(k: string, tail: string)
    requires '=' !in k && Trim(k) != "" && Trim(k)[0] != '#'
    ensures !IsCommentOrBlank(k + "=" + tail)
    ensures Split(k + "=" + tail, '=') == [k] + Split(tail, '=')
  {
    LineWithVisibleKeyIsNoComment(k, "=" + tail);
    assert k + "=" + tail == k + ("=" + tail);
    assert k + "=" + tail == k + ['='] + tail;
    SplitAtSeparator(k, '=', tail);
  }

  lemma LineWithVisibleKeyIsNoComment(k: string, rest: string)
    requires Trim(k) != "" && Trim(k)[0] != '#'
    ensures !IsCommentOrBlank(k + rest)
  {
    assert TrimEnd([]) == [];
    assert TrimStart(k) != [];
    TrimKeepsFirstVisible(k, rest);
    var t := Trim(k + rest);
    assert t[..1][0] == t[0] != '#';
  }

  /** A line `k=tail` whose second piece is `v` stores `k -> v`, both trimmed. */
  lemma ParseKeyAndSecondPiece(k: string, tail: string, v: string)
    requires '=' !in k && Trim(k) != "" && Trim(k)[0] != '#'
    requires Split(tail, '=')[0] == v && Trim(v) != ""
    ensures ParseLine(k + "=" + tail) == Some((Trim(k), Trim(v)))
  {
    KeyIsFirstPiece(k, tail);
    var parts := Split(k + "=" + tail, '=');
    assert |parts| > 1 && parts[0] == k && parts[1] == v;
  }

  /** Only the first two pieces count: `k=v=rest` stores `k -> v`, exactly like `k=v`. */
  lemma FirstTwoPiecesOnly(k: string, v: string, rest: string)
    requires '=' !in k && '=' !in v
    requires Trim(k) != "" && Trim(v) != "" && Trim(k)[0] != '#'
    ensures ParseLine(k + "=" + v + "=" + rest) == Some((Trim(k), Trim(v)))
    ensures ParseLine(k + "=" + v) == Some((Trim(k), Trim(v)))
  {
    SplitWithoutSeparator(v, '=');
    ParseKeyAndSecondPiece(k, v, v);
    var tail := v + ['='] + rest;
    SplitAtSeparator(v, '=', rest);
    SecondPieceOf(v, rest, tail);
    ParseKeyAndSecondPiece(k, tail, v);
    ConcatAssoc(k, v, rest);
  }

  lemma SecondPieceOf(v: string, rest: string, tail: string)
    requires tail == v + ['='] + rest
    requires Split(tail, '=') == [v] + Split(rest, '=')
    ensures Split(tail, '=')[0] == v
  {
  }

  lemma ConcatAssoc(k: string, v: string, rest: string)
    ensures k + "=" + v + "=" + rest == k + "=" + (v + ['='] + rest)
  {
  }

  /** A comment or blank line stores nothing. */
  lemma CommentLinesIgnored(m: map<string, string>, lines: seq<string>, line: string)
    requires IsCommentOrBlank(line)
    ensures LoadLines(m, lines + [line]) == LoadLines(m, lines)
  {
    var all := lines + [line];
    assert all[..|all| - 1] == lines && all[|all| - 1] == line;
    assert ParseLine(line).None?;
    assert LoadLines(m, all) == Store(LoadLines(m, lines), line);
  }

  /** The value stored for a key is the one on the last line that defines it. */
  lemma {:induction false} LastDefinitionWins(m: map<string, string>, lines: seq<string>, i: nat, k: string, v: string)
    requires i < |lines| && ParseLine(lines[i]) == Some((k, v))
    requires forall j :: i < j < |lines| ==> !Defines(lines[j], k)
    ensures k in LoadLines(m, lines) && LoadLines(m, lines)[k] == v
    decreases |lines|
  {
    var init, last := lines[..|lines| - 1], lines[|lines| - 1];
    assert LoadLines(m, lines) == Store(LoadLines(m, init), last);
    if i < |lines| - 1 {
      LastDefinitionWins(m, init, i, k, v);
      StoreKeepsOtherKeys(LoadLines(m, init), last, k);
    } else {
      StoreDefines(LoadLines(m, init), last, k, v);
    }
  }

  lemma StoreDefines(m: map<string, string>, line: string, k: string, v: string)
    requires ParseLine(line) == Some((k, v))
    ensures k in Store(m, line) && Store(m, line)[k] == v
  {
  }

  lemma StoreKeepsOtherKeys(m: map<string, string>, line: string, k: string)
    requires !Defines(line, k)
    ensures (k in Store(m, line)) == (k in m)
    ensures k in m ==> Store(m, line)[k] == m[k]
  {
  }

  /** A key no line defines keeps whatever `m` held for it, including being absent. */
  lemma {:induction false} UndefinedKeyUntouched(m: map<string, string>, lines: seq<string>, k: string)
    requires forall j :: 0 <= j < |lines| ==> !Defines(lines[j], k)
    ensures (k in LoadLines(m, lines)) == (k in m)
    ensures k in m ==> LoadLines(m, lines)[k] == m[k]
    decreases |lines|
  {
    if lines != [] {
      var init := lines[..|lines| - 1];
      UndefinedKeyUntouched(m, init, k);
      assert !Defines(lines[|lines| - 1], k);
    }
  }

  lemma LoadStep(m: map<string, string>, lines: seq<string>, i: nat)
    requires i < |lines|
    ensures LoadLines(m, lines[..i + 1]) == Store(LoadLines(m, lines[..i]), lines[i])
  {
    assert lines[..i + 1][..i] == lines[..i];
  }

  /** Loading never stores an empty key or an empty value. */
  lemma {:induction false} LoadLinesValid(m: map<string, string>, lines: seq<string>)
    requires ValidMap(m)
    ensures ValidMap(LoadLines(m, lines))
    decreases |lines|
  {
    if lines != [] {
      LoadLinesValid(m, lines[..|lines| - 1]);
    }
  }

  class ConfigReader {
    /** The parsed entries (`Map<string, string>`). */
    var config: map<string, string>

    ghost predicate Valid()
      reads this
    {
      ValidMap(config)
    }

    /** The private constructor: an empty map, then one load of the file's text. */
    constructor (content: string)
      ensures config == LoadLines(map[], Lines(content))
      ensures Valid()
    {
      config := map[];
      new;
      var _ := LoadConfig(Some(content));
      LoadLinesValid(map[], Lines(content));
    }

    /**
     * Stores every line of the file into `config`; `None` means reading the
     * file threw, which is rethrown (`ok == false`) with the map untouched.
     */
    method LoadConfig(content: Option<string>) returns (ok: bool)
      modifies this
      ensures ok == content.Some?
      ensures config == if content.Some? then LoadLines(old(config), Lines(content.value)) else old(config)
    {
      if content.None? {
        return false;
      }
      var lines := Lines(content.value);
      for i := 0 to |lines|
        invariant config == LoadLines(old(config), lines[..i])
      {
        LoadStep(old(config), lines, i);
        match ParseLine(lines[i]) {
          case Some((key, value)) =>
            config := config[key := value];
          case None =>
        }
      }
      assert lines[..|lines|] == lines;
      return true;
    }

    /** `config.get(key) || ''`. */
    function GetValue(key: string): (r: string)
      reads this
      ensures key in config ==> r == config[key]
      ensures Valid() ==> (r == "" <==> key !in config)
    {
      if key in config then config[key] else ""
    }

    /**
     * Clears the map, then loads again: nothing from before survives, and a
     * failed read leaves the map empty.
     */
    method ReloadConfig(content: Option<string>) returns (ok: bool)
      modifies this
      ensures ok == content.Some?
      ensures config == if content.Some? then LoadLines(map[], Lines(content.value)) else map[]
    {
      config := map[];
      ok := LoadConfig(content);
    }
  }

  /** Holder of the static `ConfigReader.instance` field. */
  class ConfigRegistry {
    var instance: ConfigReader?

    constructor ()
      ensures instance == null
    {
      instance := null;
    }

    /**
     * Creates the reader on the first call and returns the same one on every
     * later call; a first call whose file read throws (`None`) creates nothing.
     */
    method GetInstance(content: Option<string>) returns (r: Option<ConfigReader>)
      modifies this
      ensures old(instance) != null ==> r == Some(old(instance)) && instance == old(instance)
      ensures old(instance) == null && content.None? ==> r == None && instance == null
      ensures old(instance) == null && content.Some? ==>
                && instance != null && fresh(instance) && r == Some(instance)
                && instance.config == LoadLines(map[], Lines(content.value)) && instance.Valid()
    {
      if instance == null {
        if content.None? {
          return None;
        }
        instance := new ConfigReader(content.value);
      }
      r := Some(instance);
    }
  }
}
