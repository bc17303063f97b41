/** The rolling mood history (App.tsx:203): keep the newest six entries and
    append today's, so the history never holds more than seven. */
module Mood {
  import opened Types

  const HistoryLimit: nat := 7

  /** The newest `n` elements of `s` (all of `s` when it is shorter), which is
      what JavaScript's `s.slice(-n)` returns for n > 0. */
  function Newest<T>(s: seq<T>, n: nat): (r: seq<T>)
    ensures |r| == if |s| < n then |s| else n
    ensures forall i :: 0 <= i < |r| ==> r[i] == s[|s| - |r| + i]
  {
    if |s| <= n then s else s[|s| - n..]
  }

  /** The history after recording `entry`. */
  function RecordMood(history: seq<MoodEntry>, entry: MoodEntry): (h: seq<MoodEntry>)
    ensures 1 <= |h| <= HistoryLimit && h[|h| - 1] == entry
    ensures h == Newest(history + [entry], HistoryLimit)
  {
    var h := Newest(history, HistoryLimit - 1) + [entry];
    assert h == Newest(history + [entry], HistoryLimit);
    h
  }

  /** The history after recording `entries` one by one, oldest first. */
  function RecordAll(history: seq<MoodEntry>, entries: seq<MoodEntry>): seq<MoodEntry>
    decreases |entries|
  {
    if entries == [] then history else RecordAll(RecordMood(history, entries[0]), entries[1..])
  }

  /** Keeping the newest `n` and then appending more loses nothing that
      keeping the newest `n` of the whole would keep. */
  lemma NewestOfNewest<T>(s: seq<T>, t: seq<T>, n: nat)
    ensures Newest(Newest(s, n) + t, n) == Newest(s + t, n)
  {
    var a, b := Newest(Newest(s, n) + t, n), Newest(s + t, n);
    assert |a| == |b|;
    forall i | 0 <= i < |a| ensures a[i] == b[i] {
    }
  }

  /** One recording followed by more entries keeps the same newest seven as
      appending all of them at once. */
  lemma RecordThenAppend(history: seq<MoodEntry>, e: MoodEntry, rest: seq<MoodEntry>)
    ensures Newest(RecordMood(history, e) + rest, HistoryLimit) == Newest(history + ([e] + rest), HistoryLimit)
  {
    NewestOfNewest(history + [e], rest, HistoryLimit);
    assert history + ([e] + rest) == (history + [e]) + rest;
  }

  /** Any non-empty run of recordings leaves exactly the newest seven of
      everything recorded so far, oldest evicted first, newest last. */
  lemma {:induction false} RecordAllKeepsNewest(history: seq<MoodEntry>, entries: seq<MoodEntry>)
    requires entries != []
    ensures RecordAll(history, entries) == Newest(history + entries, HistoryLimit)
    decreases |entries|
  {
    var e0, rest := entries[0], entries[1..];
    assert entries == [e0] + rest;
    var h1 := RecordMood(history, e0);
    assert RecordAll(history, entries) == RecordAll(h1, rest);
    if rest == [] {
      assert history + entries == history + [e0];
    } else {
      RecordAllKeepsNewest(h1, rest);
      RecordThenAppend(history, e0, rest);
    }
  }
}
