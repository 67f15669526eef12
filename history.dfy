/**
 * The score history of `saveScore`: the newest entry goes to the front and
 * the list is cut to its first ten entries.
 */
module History {

  const MaxHistory: nat := 10

  /** One finished run; the timestamp is the locale date string, opaque here. */
  datatype ScoreEntry = ScoreEntry(score: int, timestamp: string)

  /** The first `n` entries of `s`, or all of them when there are fewer (`slice(0, n)`). */
  function Take<T>(s: seq<T>, n: nat): (r: seq<T>)
    ensures |r| == if |s| < n then |s| else n
    ensures r == s[..|r|]
  {
    if |s| < n then s else s[..n]
  }

  /** The history after `unshift(e)` followed by `slice(0, 10)`. */
  function Saved(history: seq<ScoreEntry>, e: ScoreEntry): (r: seq<ScoreEntry>)
    ensures |r| == if |history| + 1 < MaxHistory then |history| + 1 else MaxHistory
    ensures r[0] == e
    ensures r[1..] == history[..|r| - 1]
  {
    Take([e] + history, MaxHistory)
  }

  function Reversed<T>(s: seq<T>): (r: seq<T>)
    ensures |r| == |s|
    ensures forall k :: 0 <= k < |s| ==> r[k] == s[|s| - 1 - k]
  {
    if s == [] then [] else [s[|s| - 1]] + Reversed(s[..|s| - 1])
  }

  /** Saving the entries `es` one after another, oldest first. */
  function SavedAll(history: seq<ScoreEntry>, es: seq<ScoreEntry>): seq<ScoreEntry>
    decreases |es|
  {
    if es == [] then history else Saved(SavedAll(history, es[..|es| - 1]), es[|es| - 1])
  }

  lemma TakeOfPrepended<T>(x: T, s: seq<T>, n: nat)
    requires n >= 1
    ensures Take([x] + Take(s, n), n) == Take([x] + s, n)
  {
  }

  /**
   * After any series of saves the history holds the most recent entries,
   * newest first, followed by the oldest surviving ones, never more than ten.
   */
  lemma {:induction false} SavedAllMostRecentFirst(history: seq<ScoreEntry>, es: seq<ScoreEntry>)
    requires |history| <= MaxHistory
    ensures SavedAll(history, es) == Take(Reversed(es) + history, MaxHistory)
    decreases |es|
  {
    if es == [] {
      assert Reversed(es) + history == history;
    } else {
      var init, last := es[..|es| - 1], es[|es| - 1];
      SavedAllMostRecentFirst(history, init);
      assert Reversed(es) == [last] + Reversed(init);
      TakeOfPrepended(last, Reversed(init) + history, MaxHistory);
      assert [last] + (Reversed(init) + history) == Reversed(es) + history;
    }
  }
}
