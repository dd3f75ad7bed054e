/**
 * The JavaScript string primitives the core relies on: `trim`, `startsWith`,
 * `split` with a one-character separator, and the markdown-fence stripping
 * done with two anchored `replace` calls.
 */
module Strings {

  /** The characters `String.prototype.trim` removes (ECMAScript WhiteSpace and LineTerminator). */
  predicate IsWhitespace(c: char)
  {
    || c == ' ' || c == '\t' || c == '\n' || c == '\r' || c == '\U{B}' || c == '\U{C}'
    || c == '\U{A0}' || c == '\U{1680}' || ('\U{2000}' <= c <= '\U{200A}')
    || c == '\U{2028}' || c == '\U{2029}' || c == '\U{202F}' || c == '\U{205F}'
    || c == '\U{3000}' || c == '\U{FEFF}'
  }

  function TrimStart(s: string): (r: string)
    ensures |r| <= |s| && r == s[|s| - |r|..]
    ensures r == [] || !IsWhitespace(r[0])
    ensures forall i :: 0 <= i < |s| - |r| ==> IsWhitespace(s[i])
  {
    if s != [] && IsWhitespace(s[0]) then TrimStart(s[1..]) else s
  }

  function TrimEnd(s: string): (r: string)
    ensures |r| <= |s| && r == s[..|r|]
    ensures r == [] || !IsWhitespace(r[|r| - 1])
    ensures forall i :: |r| <= i < |s| ==> IsWhitespace(s[i])
  {
    if s != [] && IsWhitespace(s[|s| - 1]) then TrimEnd(s[..|s| - 1]) else s
  }

  /** `s.trim()`: the longest infix of `s` that neither starts nor ends with whitespace. */
  function Trim(s: string): (r: string)
    ensures r == [] || (!IsWhitespace(r[0]) && !IsWhitespace(r[|r| - 1]))
    ensures forall c :: c in r ==> c in s
  {
    TrimEnd(TrimStart(s))
  }

  /**
   * Trimming removes exactly the whitespace at both ends: the result is the
   * infix of `s` between a whitespace prefix and a whitespace suffix.  As the
   * result neither starts nor ends with whitespace, no longer infix qualifies.
   */
  lemma TrimIsInfixBetweenBlanks(s: string)
    ensures var r, i := Trim(s), |s| - |TrimStart(s)|;
            && 0 <= i && i + |r| <= |s| && r == s[i..i + |r|]
            && (forall k :: 0 <= k < i ==> IsWhitespace(s[k]))
            && (forall k :: i + |r| <= k < |s| ==> IsWhitespace(s[k]))
  {
    var i := |s| - |TrimStart(s)|;
    assert TrimStart(s) == s[i..];
    TrimEndOfSuffix(s, i);
  }

  /** Trimming the end of a suffix of `s` leaves an infix of `s` followed only by whitespace. */
  lemma TrimEndOfSuffix(s: string, i: nat)
    requires i <= |s|
    ensures var r := TrimEnd(s[i..]);
            && i + |r| <= |s| && r == s[i..i + |r|]
            && (forall k :: i + |r| <= k < |s| ==> IsWhitespace(s[k]))
  {
    var t := s[i..];
    var r := TrimEnd(t);
    assert r == s[i..i + |r|];
    forall k | i + |r| <= k < |s|
      ensures IsWhitespace(s[k])
    {
      assert s[k] == t[k - i];
    }
  }

  /** Text that begins with a non-blank character keeps that character first once trimmed. */
  lemma TrimKeepsFirstVisible(a: string, b: string)
    requires TrimStart(a) != []
    ensures Trim(a + b) != [] && Trim(a + b)[0] == Trim(a)[0] == TrimStart(a)[0]
  {
    TrimStartConcat(a, b);
    var x := TrimStart(a) + b;
    assert TrimStart(a + b) == x;
    var r := TrimEnd(x);
    assert !IsWhitespace(x[0]);
    assert r != [];
    assert r[0] == x[0];
    assert !IsWhitespace(TrimStart(a)[0]);
    assert TrimEnd(TrimStart(a)) != [];
  }

  lemma {:induction false} TrimStartConcat(a: string, b: string)
    requires TrimStart(a) != []
    ensures TrimStart(a + b) == TrimStart(a) + b
    decreases |a|
  {
    assert a != [];
    assert (a + b)[0] == a[0];
    if IsWhitespace(a[0]) {
      assert (a + b)[1..] == a[1..] + b;
      TrimStartConcat(a[1..], b);
    }
  }

  predicate StartsWith(s: string, prefix: string)
  {
    |prefix| <= |s| && s[..|prefix|] == prefix
  }

  predicate EndsWith(s: string, suffix: string)
  {
    |suffix| <= |s| && s[|s| - |suffix|..] == suffix
  }

  /** `s.split(sep)`: never empty, and no piece contains the separator. */
  function Split(s: string, sep: char): (r: seq<string>)
    ensures |r| >= 1
    ensures forall i :: 0 <= i < |r| ==> sep !in r[i]
    decreases |s|
  {
    if s == [] then [""]
    else if s[0] == sep then [""] + Split(s[1..], sep)
    else
      var rest := Split(s[1..], sep);
      [[s[0]] + rest[0]] + rest[1..]
  }

  /** `parts.join(sep)`, the inverse of `Split`. */
  function Join(parts: seq<string>, sep: char): string
  {
    if parts == [] then ""
    else if |parts| == 1 then parts[0]
    else parts[0] + [sep] + Join(parts[1..], sep)
  }

  lemma {:induction false} JoinSplit(s: string, sep: char)
    ensures Join(Split(s, sep), sep) == s
    decreases |s|
  {
    if s == [] {
    } else if s[0] == sep {
      JoinSplit(s[1..], sep);
      var rest := Split(s[1..], sep);
      assert Split(s, sep) == [""] + rest;
      assert ([""] + rest)[1..] == rest;
    } else {
      JoinSplit(s[1..], sep);
      var rest := Split(s[1..], sep);
      var r := [[s[0]] + rest[0]] + rest[1..];
      assert Split(s, sep) == r;
      if |rest| == 1 {
        assert s == [s[0]] + s[1..];
      } else {
        assert r[1..] == rest[1..];
        assert Join(rest, sep) == rest[0] + [sep] + Join(rest[1..], sep);
        assert s == [s[0]] + s[1..];
      }
    }
  }

  /** Splitting a text that holds no separator gives the text back as the only piece. */
  lemma {:induction false} SplitWithoutSeparator(s: string, sep: char)
    requires sep !in s
    ensures Split(s, sep) == [s]
    decreases |s|
  {
    if s != [] {
      assert s[0] != sep && sep !in s[1..];
      SplitWithoutSeparator(s[1..], sep);
      assert [s[0]] + s[1..] == s;
    }
  }

  /** The first two pieces of `a + [sep] + b + ...` are `a` and the text up to the next separator. */
  lemma {:induction false} SplitAtSeparator(a: string, sep: char, b: string)
    requires sep !in a
    ensures Split(a + [sep] + b, sep) == [a] + Split(b, sep)
    decreases |a|
  {
    if a == [] {
      assert [] + [sep] + b == [sep] + b;
      assert ([sep] + b)[1..] == b;
    } else {
      var s := a + [sep] + b;
      assert s[0] == a[0];
      assert s[1..] == a[1..] + [sep] + b;
      SplitAtSeparator(a[1..], sep, b);
      assert [a[0]] + a[1..] == a;
    }
  }

  /** `.replace(/^```json\n/, '')` followed by `.replace(/\n```$/, '')`. */
  const FenceOpen := "```json\n"
  const FenceClose := "\n```"

  function StripFence(text: string): (r: string)
    ensures |r| <= |text|
  {
    var afterOpen := if StartsWith(text, FenceOpen) then text[|FenceOpen|..] else text;
    if EndsWith(afterOpen, FenceClose) then afterOpen[..|afterOpen| - |FenceClose|] else afterOpen
  }

  /** A body wrapped in a json fence comes back unchanged: the fence round-trips. */
  lemma StripFenceOfFenced(body: string)
    ensures StripFence(FenceOpen + body + FenceClose) == body
  {
    var text := FenceOpen + body + FenceClose;
    assert StartsWith(text, FenceOpen);
    var afterOpen := text[|FenceOpen|..];
    assert afterOpen == body + FenceClose;
    assert EndsWith(afterOpen, FenceClose);
    assert afterOpen[..|afterOpen| - |FenceClose|] == body;
  }

  /** A text carrying neither the opening nor the closing fence is left untouched. */
  lemma StripFenceWithoutFence(text: string)
    requires !StartsWith(text, FenceOpen) && !EndsWith(text, FenceClose)
    ensures StripFence(text) == text
  {
  }

  /** Only a prefix and a suffix are removed: the result is an infix of the text. */
  lemma StripFenceIsInfix(text: string)
    ensures exists i, j :: 0 <= i <= j <= |text| && StripFence(text) == text[i..j]
  {
    var afterOpen := if StartsWith(text, FenceOpen) then text[|FenceOpen|..] else text;
    var i := |text| - |afterOpen|;
    assert afterOpen == text[i..];
    if EndsWith(afterOpen, FenceClose) {
      var j := |text| - |FenceClose|;
      assert StripFence(text) == text[i..j];
    } else {
      assert StripFence(text) == text[i..|text|];
    }
  }

  /** Concatenation regroups freely. */
  lemma AppendRegroup<T>(a: seq<T>, b: seq<T>, c: seq<T>)
    ensures (a + b) + c == a + (b + c)
  {
  }
}
