/** The bounded, oldest-first-evicted dialogue history. */
module History {
  /** One `{"role": ..., "content": ...}` entry. */
  datatype Entry = Entry(role: string, content: string)

  /** The largest size the history can keep: `history_length`, or 0 when that is negative. */
  function Cap(historyLength: int): nat
  {
    if historyLength < 0 then 0 else historyLength
  }

  /** The history after one `history_management(role, utt)` call adding `e`. */
  function Recorded(history: seq<Entry>, e: Entry, historyLength: int): (r: seq<Entry>)
    // at most the single oldest entry is dropped
    ensures |history| <= |r| <= |history| + 1
    // what is kept is the newest part of the history followed by e
    ensures r == (history + [e])[|history| + 1 - |r|..]
    ensures r != [] ==> r[|r| - 1] == e
    // an entry is evicted exactly when appending would exceed the cap
    ensures |r| == |history| + 1 <==> |history| + 1 <= historyLength
    // a history within the cap stays within it
    ensures |history| <= Cap(historyLength) ==> |r| <= Cap(historyLength)
  {
    var appended := history + [e];
    if |appended| > historyLength then appended[1..] else appended
  }

  /** The history after recording each of `entries` in turn. */
  function RecordAll(history: seq<Entry>, entries: seq<Entry>, historyLength: int): seq<Entry>
    decreases |entries|
  {
    if entries == [] then history
    else RecordAll(Recorded(history, entries[0], historyLength), entries[1..], historyLength)
  }

  /** The last `n` elements of `s` (all of `s` when it is shorter). */
  function Newest(s: seq<Entry>, n: nat): (r: seq<Entry>)
  {
    if |s| <= n then s else s[|s| - n..]
  }

  lemma NewestOfNewest(s: seq<Entry>, t: seq<Entry>, n: nat)
    ensures Newest(Newest(s, n) + t, n) == Newest(s + t, n)
  {
  }

  /** From within the cap, one recording keeps the newest `Cap(historyLength)` entries. */
  lemma RecordedIsNewest(history: seq<Entry>, e: Entry, historyLength: int)
    requires |history| <= Cap(historyLength)
    ensures Recorded(history, e, historyLength) == Newest(history + [e], Cap(historyLength))
  {
  }

  /**
   * Starting from a history within the cap, any number of recordings leave
   * exactly the newest `Cap(historyLength)` entries, in insertion order.
   */
  lemma {:induction false} RecordAllKeepsNewest(history: seq<Entry>, entries: seq<Entry>, historyLength: int)
    requires |history| <= Cap(historyLength)
    ensures RecordAll(history, entries, historyLength) == Newest(history + entries, Cap(historyLength))
    decreases |entries|
  {
    var c := Cap(historyLength);
    if entries == [] {
      assert history + entries == history;
    } else {
      var next := Recorded(history, entries[0], historyLength);
      RecordedIsNewest(history, entries[0], historyLength);
      assert RecordAll(history, entries, historyLength) == RecordAll(next, entries[1..], historyLength);
      RecordAllKeepsNewest(next, entries[1..], historyLength);
      NewestOfNewest(history + [entries[0]], entries[1..], c);
      assert history + [entries[0]] + entries[1..] == history + entries;
    }
  }

  /** Recording a, b, c with a cap of 2 keeps b, c. */
  lemma RecordThreeWithCapTwo(a: Entry, b: Entry, c: Entry)
    ensures RecordAll([], [a, b, c], 2) == [b, c]
  {
    RecordAllKeepsNewest([], [a, b, c], 2);
    assert [] + [a, b, c] == [a, b, c];
  }

  /** The concatenation of the `content` fields, in order (`''.join(...)`). */
  function Transcript(history: seq<Entry>): string
  {
    if history == [] then "" else history[0].content + Transcript(history[1..])
  }
}
