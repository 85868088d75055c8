/**
 * The undo log of static/script.js as values: `history` is a sequence of
 * snapshots, newest last, capped at MAX_HISTORY entries.
 */
module History {

  /** MAX_HISTORY: the most snapshots the undo log keeps. */
  const MaxHistory := 10

  /** The newest `min(|t|, MaxHistory)` entries of `t`: what a capped log keeps of `t`. */
  function Window<S>(t: seq<S>): (r: seq<S>)
    ensures |r| == if |t| <= MaxHistory then |t| else MaxHistory
    ensures forall i :: 0 <= i < |r| ==> r[i] == t[|t| - |r| + i]
  {
    if |t| <= MaxHistory then t else t[|t| - MaxHistory..]
  }

  /**
   * saveState: push the snapshot, then shift the oldest entry out when the
   * push made the log longer than MaxHistory.
   */
  function Pushed<S>(h: seq<S>, s: S): (r: seq<S>)
    ensures |h| <= MaxHistory ==> 1 <= |r| <= MaxHistory
    ensures |r| >= 1 && r[|r| - 1] == s
    ensures |h| < MaxHistory ==> r == h + [s]
    ensures |h| == MaxHistory ==> r == h[1..] + [s]
  {
    var grown := h + [s];
    if |grown| > MaxHistory then grown[1..] else grown
  }

  /**
   * The history part of the undo handler: below two entries nothing is
   * dropped, otherwise exactly the top entry is popped.
   */
  function Undone<S>(h: seq<S>): (r: seq<S>)
    ensures |h| <= 1 ==> r == h
    ensures |h| > 1 ==> |r| >= 1 && r + [h[|h| - 1]] == h
  {
    if |h| <= 1 then h else h[..|h| - 1]
  }

  /** A run of saveState calls, one per snapshot of `ss`, in order. */
  function PushAll<S>(h: seq<S>, ss: seq<S>): seq<S>
    decreases |ss|
  {
    if ss == [] then h else PushAll(Pushed(h, ss[0]), ss[1..])
  }

  /** Dropping a prefix that the window does not reach leaves the window unchanged. */
  lemma WindowOfSuffix<S>(t: seq<S>, k: nat)
    requires k <= |t|
    requires k == 0 || |t| - k >= MaxHistory
    ensures Window(t[k..]) == Window(t)
  {
    if k > 0 {
      assert t[k..][|t| - k - MaxHistory..] == t[|t| - MaxHistory..];
    }
  }

  /**
   * However many snapshots are pushed onto a log that respects the cap, the
   * log holds exactly the newest MaxHistory of everything pushed so far.
   */
  lemma {:induction false} PushAllKeepsNewest<S>(h: seq<S>, ss: seq<S>)
    requires |h| <= MaxHistory
    ensures PushAll(h, ss) == Window(h + ss)
    decreases |ss|
  {
    if ss == [] {
      assert h + ss == h;
    } else {
      var h' := Pushed(h, ss[0]);
      PushAllKeepsNewest(h', ss[1..]);
      var t := h + ss;
      if |h| < MaxHistory {
        assert h' + ss[1..] == t;
      } else {
        assert h' + ss[1..] == t[1..];
        WindowOfSuffix(t, 1);
      }
    }
  }

  /**
   * From the initial blank snapshot, N further saves leave min(N + 1, MaxHistory)
   * entries, the last of them the newest save, and the log is never empty.
   */
  lemma StrokeHistoryLength<S>(blank: S, ss: seq<S>)
    ensures |PushAll([blank], ss)| == if |ss| + 1 <= MaxHistory then |ss| + 1 else MaxHistory
    ensures |PushAll([blank], ss)| >= 1
    ensures ss != [] ==> PushAll([blank], ss)[|PushAll([blank], ss)| - 1] == ss[|ss| - 1]
  {
    PushAllKeepsNewest([blank], ss);
  }

  /**
   * Undo is the inverse of a save that evicted nothing; after an eviction the
   * oldest snapshot is gone for good.
   */
  lemma UndoAfterPush<S>(h: seq<S>, s: S)
    requires 1 <= |h| <= MaxHistory
    ensures |h| < MaxHistory ==> Undone(Pushed(h, s)) == h
    ensures |h| == MaxHistory ==> Undone(Pushed(h, s)) == h[1..]
  {
    if |h| == MaxHistory {
      assert (h[1..] + [s])[..MaxHistory - 1] == h[1..];
    } else {
      assert (h + [s])[..|h|] == h;
    }
  }
}
