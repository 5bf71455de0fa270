/** The composition editor: a bucket's holdings as a row of chunks, each
    worth `value * quantity`, laid out end to end on a slider whose handles
    sit at the running totals. Dragging a handle re-sizes the chunks on both
    sides of it; the remaining cash is the total minus what the chunks are
    worth. The parent's callbacks are recorded as the sequence of arguments
    they were called with. */
module Composition {
  import opened Common

  /** One holding on the slider: stock id, name, number of shares, share price. */
  datatype Chunk = Chunk(id: string, name: string, quantity: real, value: real)

  /** One search result: stock id, name and latest price (0 when unquoted). */
  datatype Suggestion = Suggestion(id: string, name: string, value: real)

  /** What one chunk is worth. */
  function Worth(c: Chunk): real
  {
    c.value * c.quantity
  }

  // ---------------------------------------------------------------------------
  // Slider positions and available cash

  /** `makeIntervals`: the handle positions, starting at 0, each one further
      right by the worth of the next chunk. */
  function MakeIntervals(chunks: seq<Chunk>): (r: seq<real>)
    ensures |r| == |chunks| + 1 && r[0] == 0.0
    ensures forall i :: 0 <= i < |chunks| ==> r[i + 1] == r[i] + Worth(chunks[i])
  {
    if chunks == [] then [0.0]
    else
      var p := MakeIntervals(chunks[..|chunks| - 1]);
      p + [p[|p| - 1] + Worth(chunks[|chunks| - 1])]
  }

  /** What the chunks are worth together, summed left to right. */
  function Invested(chunks: seq<Chunk>): real
  {
    if chunks == [] then 0.0
    else Invested(chunks[..|chunks| - 1]) + Worth(chunks[|chunks| - 1])
  }

  /** `calculateAvailable`: the cash the chunks leave over, which is the gap
      between the total and the last handle. */
  function Available(total: real, chunks: seq<Chunk>): (r: real)
    ensures r == total - MakeIntervals(chunks)[|chunks|]
  {
    IntervalIsInvestedPrefix(chunks, |chunks|);
    assert chunks[..|chunks|] == chunks;
    total - Invested(chunks)
  }

  /** Handle `i` sits at the worth of the first `i` chunks. */
  lemma {:induction false} IntervalIsInvestedPrefix(chunks: seq<Chunk>, i: nat)
    requires i <= |chunks|
    ensures MakeIntervals(chunks)[i] == Invested(chunks[..i])
  {
    if i > 0 {
      IntervalIsInvestedPrefix(chunks, i - 1);
      assert chunks[..i][..i - 1] == chunks[..i - 1];
    }
  }

  lemma {:induction false} InvestedAppend(chunks: seq<Chunk>, c: Chunk)
    ensures Invested(chunks + [c]) == Invested(chunks) + Worth(c)
  {
    assert (chunks + [c])[..|chunks|] == chunks;
  }

  /** Two chunk lists that agree on their first `k` chunks put their first
      `k + 1` handles in the same places. */
  lemma {:induction false} SharedPrefixSameHandles(a: seq<Chunk>, b: seq<Chunk>, k: nat)
    requires k <= |a| && k <= |b| && a[..k] == b[..k]
    ensures forall j :: 0 <= j <= k ==> MakeIntervals(a)[j] == MakeIntervals(b)[j]
  {
    if k > 0 {
      assert a[..k - 1] == a[..k][..k - 1] && b[..k - 1] == b[..k][..k - 1];
      SharedPrefixSameHandles(a, b, k - 1);
      assert a[k - 1] == a[..k][k - 1] == b[..k][k - 1] == b[k - 1];
    }
  }

  // ---------------------------------------------------------------------------
  // Choosing the stock to add

  /** `selectedStock`: the first suggestion whose name is exactly the search
      text, if any. */
  function SelectedStock(suggestions: seq<Suggestion>, text: string): (r: Option<Suggestion>)
    ensures r.None? <==> forall i :: 0 <= i < |suggestions| ==> suggestions[i].name != text
    ensures r.Some? ==> exists i :: 0 <= i < |suggestions| && suggestions[i] == r.value
                          && r.value.name == text
                          && forall j :: 0 <= j < i ==> suggestions[j].name != text
  {
    if suggestions == [] then None
    else if suggestions[0].name == text then Some(suggestions[0])
    else
      var rest := SelectedStock(suggestions[1..], text);
      if rest.Some? then
        ghost var k :| 0 <= k < |suggestions[1..]| && suggestions[1..][k] == rest.value
                       && rest.value.name == text
                       && forall j :: 0 <= j < k ==> suggestions[1..][j].name != text;
        assert suggestions[k + 1] == rest.value;
        rest
      else rest
  }

  /** The chunk `addStock` appends for suggestion `s`: enough shares to spend
      all the available cash. */
  function NewChunk(total: real, chunks: seq<Chunk>, s: Suggestion): Chunk
    requires s.value != 0.0
  {
    Chunk(s.id, s.name, Available(total, chunks) / s.value, s.value)
  }

  /** Buying `x / v` shares at price `v` costs `x`. */
  lemma SharesTimesPrice(v: real, x: real)
    requires v != 0.0
    ensures v * (x / v) == x
  {
  }

  /** After adding a stock nothing is left over, and the last handle sits at
      the total. */
  lemma {:induction false} AddingSpendsAllCash(total: real, chunks: seq<Chunk>, s: Suggestion)
    requires s.value != 0.0
    ensures Available(total, chunks + [NewChunk(total, chunks, s)]) == 0.0
    ensures MakeIntervals(chunks + [NewChunk(total, chunks, s)])[|chunks| + 1] == total
  {
    var c := NewChunk(total, chunks, s);
    InvestedAppend(chunks, c);
    SharesTimesPrice(s.value, Available(total, chunks));
  }

  // ---------------------------------------------------------------------------
  // Dragging a handle

  /** The first handle the slider reports in a new place, or -1 when every
      handle is where `prev` has it. */
  function FirstDifference(prev: seq<real>, intervals: seq<real>): (d: int)
    requires |intervals| >= |prev|
    ensures -1 <= d < |prev|
    ensures d == -1 <==> forall i :: 0 <= i < |prev| ==> prev[i] == intervals[i]
    ensures d >= 0 ==> prev[d] != intervals[d] && forall i :: 0 <= i < d ==> prev[i] == intervals[i]
  {
    if prev == [] then -1
    else if prev[0] != intervals[0] then 0
    else
      var d := FirstDifference(prev[1..], intervals[1..]);
      if d == -1 then -1 else d + 1
  }

  /** The chunks after handle `d` (not the leftmost) moved: the chunk left
      of it spans from handle `d - 1` to handle `d`, and the chunk right of
      it, when there is one, from handle `d` to handle `d + 1`. */
  function Retuned(chunks: seq<Chunk>, intervals: seq<real>, d: nat): (r: seq<Chunk>)
    requires 0 < d <= |chunks| < |intervals|
    requires chunks[d - 1].value != 0.0
    requires d < |chunks| ==> chunks[d].value != 0.0
    ensures |r| == |chunks|
    ensures Worth(r[d - 1]) == intervals[d] - intervals[d - 1]
    ensures d < |chunks| ==> Worth(r[d]) == intervals[d + 1] - intervals[d]
  {
    var left := chunks[d - 1].(quantity := (intervals[d] - intervals[d - 1]) / chunks[d - 1].value);
    ChunkSpansGap(left, intervals[d] - intervals[d - 1], chunks[d - 1].value);
    var withLeft := chunks[d - 1 := left];
    if d < |chunks| then
      var right := chunks[d].(quantity := (intervals[d + 1] - intervals[d]) / chunks[d].value);
      ChunkSpansGap(right, intervals[d + 1] - intervals[d], chunks[d].value);
      withLeft[d := right]
    else withLeft
  }

  predicate NonZeroValues(chunks: seq<Chunk>)
  {
    forall i :: 0 <= i < |chunks| ==> chunks[i].value != 0.0
  }

  /** Applying handle `d` keeps every chunk's stock and price, and changes
      no chunk but the two beside handle `d`. */
  lemma {:induction false} RetunedKeepsStocks(chunks: seq<Chunk>, intervals: seq<real>, d: nat)
    requires 0 < d <= |chunks| < |intervals| && NonZeroValues(chunks)
    ensures var r := Retuned(chunks, intervals, d);
            && |r| == |chunks|
            && (forall i :: 0 <= i < |r| ==>
                  r[i].id == chunks[i].id && r[i].name == chunks[i].name && r[i].value == chunks[i].value)
            && (forall i :: 0 <= i < |r| && i != d - 1 && i != d ==> r[i] == chunks[i])
  {
  }

  /** When the handles left of `d` did not move, applying handle `d` puts
      the new handles up to `d + 1` where the slider has them. */
  lemma {:induction false} RetunedHandles(chunks: seq<Chunk>, intervals: seq<real>, d: nat)
    requires 0 < d <= |chunks| < |intervals| && NonZeroValues(chunks)
    requires forall j :: 0 <= j < d ==> MakeIntervals(chunks)[j] == intervals[j]
    ensures var n := MakeIntervals(Retuned(chunks, intervals, d));
            && (forall j :: 0 <= j <= d ==> n[j] == intervals[j])
            && (d < |chunks| ==> n[d + 1] == intervals[d + 1])
  {
    var r := Retuned(chunks, intervals, d);
    RetunedKeepsStocks(chunks, intervals, d);
    assert r[..d - 1] == chunks[..d - 1];
    SharedPrefixSameHandles(r, chunks, d - 1);
    var n := MakeIntervals(r);
    assert n[d - 1] == intervals[d - 1];
    ChunkSpansGap(r[d - 1], intervals[d] - intervals[d - 1], chunks[d - 1].value);
    if d < |chunks| {
      ChunkSpansGap(r[d], intervals[d + 1] - intervals[d], chunks[d].value);
    }
  }

  /** A chunk of price `v` holding `gap / v` shares is worth `gap`. */
  lemma {:induction false} ChunkSpansGap(c: Chunk, gap: real, v: real)
    requires v != 0.0 && c.value == v && c.quantity == gap / v
    ensures Worth(c) == gap
  {
    SharesTimesPrice(v, gap);
  }

  /** After the first moved handle `d` is applied, the chunks keep their
      stocks and prices, only the two chunks beside handle `d` change
      quantity, and the new handles up to `d + 1` sit where the slider put
      them. */
  lemma {:induction false} RetunedFollowsSlider(chunks: seq<Chunk>, intervals: seq<real>)
    requires |intervals| >= |chunks| + 1 && NonZeroValues(chunks)
    requires FirstDifference(MakeIntervals(chunks), intervals) > 0
    ensures var d := FirstDifference(MakeIntervals(chunks), intervals);
            var r := Retuned(chunks, intervals, d);
            && |r| == |chunks|
            && (forall i :: 0 <= i < |r| ==>
                  r[i].id == chunks[i].id && r[i].name == chunks[i].name && r[i].value == chunks[i].value)
            && (forall i :: 0 <= i < |r| && i != d - 1 && i != d ==> r[i] == chunks[i])
            && (forall j :: 0 <= j <= d ==> MakeIntervals(r)[j] == intervals[j])
            && (d < |chunks| ==> MakeIntervals(r)[d + 1] == intervals[d + 1])
  {
    var d := FirstDifference(MakeIntervals(chunks), intervals);
    RetunedKeepsStocks(chunks, intervals, d);
    RetunedHandles(chunks, intervals, d);
  }

  /** The editor test's slider move: chunks worth 3 and 4, handles dragged
      to 0, 6 and 18; handle 1 is the first to move, and the chunks become
      2 shares at 3 and 6 shares at 2. */
  lemma {:induction false} SliderExample()
    ensures var cs := [Chunk("1", "Name", 1.0, 3.0), Chunk("2", "Name2", 2.0, 2.0)];
            var moved := [0.0, 6.0, 18.0];
            && FirstDifference(MakeIntervals(cs), moved) == 1
            && Retuned(cs, moved, 1) == [Chunk("1", "Name", 2.0, 3.0), Chunk("2", "Name2", 6.0, 2.0)]
  {
    var cs := [Chunk("1", "Name", 1.0, 3.0), Chunk("2", "Name2", 2.0, 2.0)];
    var moved := [0.0, 6.0, 18.0];
    assert MakeIntervals(cs) == [0.0, 3.0, 7.0];
  }

  // ---------------------------------------------------------------------------
  // Deleting a chunk

  /** The index of the last chunk with stock id `id`, or -1. */
  function LastIndexOf(chunks: seq<Chunk>, id: string): (r: int)
    ensures -1 <= r < |chunks|
    ensures r == -1 <==> forall i :: 0 <= i < |chunks| ==> chunks[i].id != id
    ensures r >= 0 ==> chunks[r].id == id && forall j :: r < j < |chunks| ==> chunks[j].id != id
  {
    if chunks == [] then -1
    else if chunks[|chunks| - 1].id == id then |chunks| - 1
    else LastIndexOf(chunks[..|chunks| - 1], id)
  }

  /** The chunk list without position `k` (unchanged for -1). */
  function Without(chunks: seq<Chunk>, k: int): seq<Chunk>
    requires -1 <= k < |chunks|
  {
    if k < 0 then chunks else chunks[..k] + chunks[k + 1..]
  }

  /** Removing position `k` keeps the chunks before it and shifts those
      after it one place left. */
  lemma {:induction false} WithoutShape(chunks: seq<Chunk>, k: nat)
    requires k < |chunks|
    ensures var r := Without(chunks, k);
            && |r| == |chunks| - 1
            && (forall i :: 0 <= i < k ==> r[i] == chunks[i])
            && (forall i :: k <= i < |r| ==> r[i] == chunks[i + 1])
            && multiset(r) + multiset{chunks[k]} == multiset(chunks)
  {
    assert chunks == chunks[..k] + [chunks[k]] + chunks[k + 1..];
  }

  /** Deleting removes exactly one chunk of that stock when there is one and
      nothing otherwise, keeping the other chunks in order. */
  lemma {:induction false} DeletionRemovesOne(chunks: seq<Chunk>, id: string)
    ensures var k := LastIndexOf(chunks, id);
            var r := Without(chunks, k);
            && (k == -1 ==> r == chunks)
            && (k >= 0 ==> |r| == |chunks| - 1 && multiset(r) + multiset{chunks[k]} == multiset(chunks))
            && (forall c :: c in chunks && c.id != id ==> c in r)
  {
    var k := LastIndexOf(chunks, id);
    if k >= 0 {
      WithoutShape(chunks, k);
      var r := Without(chunks, k);
      forall c | c in chunks && c.id != id
        ensures c in r
      {
        var i :| 0 <= i < |chunks| && chunks[i] == c;
        if i < k { assert r[i] == c; } else { assert r[i - 1] == c; }
      }
    }
  }

  /** With one chunk per stock, as the dialog's rows are keyed, deleting a
      stock leaves no chunk of it. */
  lemma {:induction false} DeletionRemovesStock(chunks: seq<Chunk>, id: string)
    requires UniqueIds(chunks)
    ensures forall c :: c in Without(chunks, LastIndexOf(chunks, id)) ==> c.id != id
  {
    var k := LastIndexOf(chunks, id);
    if k >= 0 {
      WithoutShape(chunks, k);
      var r := Without(chunks, k);
      forall c | c in r
        ensures c.id != id
      {
        var i :| 0 <= i < |r| && r[i] == c;
        if i < k { assert chunks[i] == c; } else { assert chunks[i + 1] == c; }
      }
    }
  }

  predicate UniqueIds(chunks: seq<Chunk>)
  {
    forall i, j :: 0 <= i < j < |chunks| ==> chunks[i].id != chunks[j].id
  }

  // ---------------------------------------------------------------------------
  // The dialog

  class InvestComposition {
    /** The `chunks` prop: the parent's list, which adding a stock and
        dragging a handle change in place. */
    var chunks: seq<Chunk>
    const total: real
    const suggestions: seq<Suggestion>
    var suggestionText: string
    /** The arguments of every `chunkUpdate` call, oldest first. */
    var updates: seq<seq<Chunk>>
    /** The arguments of every `suggestionFieldChange` call, oldest first. */
    var fieldChanges: seq<string>

    constructor (chunks: seq<Chunk>, total: real, suggestions: seq<Suggestion>)
      ensures this.chunks == chunks && this.total == total && this.suggestions == suggestions
      ensures suggestionText == "" && updates == [] && fieldChanges == []
    {
      this.chunks, this.total, this.suggestions := chunks, total, suggestions;
      suggestionText, updates, fieldChanges := "", [], [];
    }

    /** The search field's `onChange` and `onSelect`: the text becomes the
        search text and is passed on for a new search. */
    method EditText(text: string)
      modifies this`suggestionText, this`fieldChanges
      ensures suggestionText == text && fieldChanges == old(fieldChanges) + [text]
    {
      suggestionText := text;
      fieldChanges := fieldChanges + [text];
    }

    /** `addStock`: with a suggestion named like the search text, append a
        chunk of it that spends all available cash, report the new list and
        clear the search; without one, do nothing. */
    method AddStock()
      requires var s := SelectedStock(suggestions, suggestionText); s.Some? ==> s.value.value != 0.0
      modifies this`chunks, this`suggestionText, this`updates, this`fieldChanges
      ensures match old(SelectedStock(suggestions, suggestionText))
              case None =>
                && chunks == old(chunks) && suggestionText == old(suggestionText)
                && updates == old(updates) && fieldChanges == old(fieldChanges)
              case Some(s) =>
                && chunks == old(chunks) + [NewChunk(total, old(chunks), s)]
                && Available(total, chunks) == 0.0
                && updates == old(updates) + [chunks]
                && suggestionText == "" && fieldChanges == old(fieldChanges) + [""]
    {
      var selected := SelectedStock(suggestions, suggestionText);
      if selected.None? {
        return;
      }
      var s := selected.value;
      AddingSpendsAllCash(total, chunks, s);
      chunks := chunks + [NewChunk(total, chunks, s)];
      suggestionText := "";
      fieldChanges := fieldChanges + [""];
      updates := updates + [chunks];
    }

    /** `intervalUpdate`: find the first handle the slider moved; when it is
        not the leftmost one, re-size the chunks beside it and report the list. */
    method IntervalUpdate(intervals: seq<real>)
      requires |intervals| >= |chunks| + 1 && NonZeroValues(chunks)
      modifies this`chunks, this`updates
      ensures var d := FirstDifference(MakeIntervals(old(chunks)), intervals);
              if d > 0 then
                chunks == Retuned(old(chunks), intervals, d) && updates == old(updates) + [chunks]
              else
                chunks == old(chunks) && updates == old(updates)
    {
      var prev := MakeIntervals(chunks);
      var diff := -1;
      var i := 0;
      while i < |prev|
        invariant 0 <= i <= |prev|
        invariant diff == -1
        invariant forall j :: 0 <= j < i ==> prev[j] == intervals[j]
      {
        if prev[i] != intervals[i] {
          diff := i;
          break;
        }
        i := i + 1;
      }
      assert diff == FirstDifference(prev, intervals);
      if diff > 0 && diff < |prev| {
        chunks := Retuned(chunks, intervals, diff);
        updates := updates + [chunks];
      }
    }

    /** `deleteChunk(id)`: report a copy of the list without the last chunk
        of that stock; the list itself is left alone. */
    method DeleteChunk(id: string)
      modifies this`updates
      ensures updates == old(updates) + [Without(chunks, LastIndexOf(chunks, id))]
    {
      var index := -1;
      for k := 0 to |chunks|
        invariant index == LastIndexOf(chunks[..k], id)
      {
        assert chunks[..k + 1][..k] == chunks[..k];
        if chunks[k].id == id {
          index := k;
        }
      }
      assert chunks[..|chunks|] == chunks;
      var copy := chunks;
      if index >= 0 {
        copy := copy[..index] + copy[index + 1..];
      }
      updates := updates + [copy];
    }
  }
}
