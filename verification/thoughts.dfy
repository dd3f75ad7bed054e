/** The bounded thought history shared by the two structured generators. */
module Thoughts {
  import opened Strings

  /** `maxThoughtHistory`: how many past thoughts are kept as context. */
  const MaxThoughtHistory: nat := 5

  /** `push` the new thought, then `shift` once if the history grew past the bound. */
  function PushBounded(history: seq<string>, thought: string): (r: seq<string>)
    ensures r != [] && r[|r| - 1] == thought
    ensures |history| <= MaxThoughtHistory ==> |r| <= MaxThoughtHistory
  {
    var pushed := history + [thought];
    if |pushed| > MaxThoughtHistory then pushed[1..] else pushed
  }

  /** The last `n` elements of `s` (all of them when there are fewer). */
  function LastN(s: seq<string>, n: nat): (r: seq<string>)
    ensures |r| == if |s| < n then |s| else n
  {
    if |s| <= n then s else s[|s| - n..]
  }

  /**
   * One push on a history within the bound keeps exactly the newest five
   * thoughts; when the history was full, exactly its oldest entry goes.
   */
  lemma PushBoundedIsWindow(history: seq<string>, thought: string)
    requires |history| <= MaxThoughtHistory
    ensures PushBounded(history, thought) == LastN(history + [thought], MaxThoughtHistory)
    ensures |history| == MaxThoughtHistory ==> PushBounded(history, thought) == history[1..] + [thought]
    ensures |history| < MaxThoughtHistory ==> PushBounded(history, thought) == history + [thought]
  {
    if |history| == MaxThoughtHistory {
      assert (history + [thought])[1..] == history[1..] + [thought];
    }
  }

  /** Pushing each thought of `thoughts` in turn. */
  function PushAll(history: seq<string>, thoughts: seq<string>): seq<string>
  {
    if thoughts == [] then history
    else PushBounded(PushAll(history, thoughts[..|thoughts| - 1]), thoughts[|thoughts| - 1])
  }

  /** However many thoughts are pushed, the history is the newest five of everything seen. */
  lemma {:induction false} PushAllKeepsNewest(history: seq<string>, thoughts: seq<string>)
    requires |history| <= MaxThoughtHistory
    ensures PushAll(history, thoughts) == LastN(history + thoughts, MaxThoughtHistory)
    decreases |thoughts|
  {
    if thoughts != [] {
      var init := thoughts[..|thoughts| - 1];
      var t := thoughts[|thoughts| - 1];
      PushAllKeepsNewest(history, init);
      PushWindowStep(history + init, t);
      assert thoughts == init + [t];
      AppendRegroup(history, init, [t]);
    }
  }

  /** Pushing onto the newest five of `s` gives the newest five of `s` and the thought. */
  lemma PushWindowStep(s: seq<string>, t: string)
    ensures PushBounded(LastN(s, MaxThoughtHistory), t) == LastN(s + [t], MaxThoughtHistory)
  {
    PushBoundedIsWindow(LastN(s, MaxThoughtHistory), t);
    LastNOfPush(s, t, MaxThoughtHistory);
  }

  lemma LastNOfPush(s: seq<string>, x: string, n: nat)
    requires n > 0
    ensures LastN(LastN(s, n) + [x], n) == LastN(s + [x], n)
  {
    var l := LastN(s, n);
    if |s| > n {
      assert l + [x] == (s + [x])[|s| - n..];
      assert LastN(l + [x], n) == (l + [x])[1..];
      assert (s + [x])[|s| + 1 - n..] == (l + [x])[1..];
    }
  }
}
