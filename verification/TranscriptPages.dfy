/**
 * Which part of the history a window is, and what paging back through it reads
 * (`readTranscriptWindow` in server/src/session-transcript.ts).
 */
module TranscriptPages {
  import opened Options
  import opened JsonlReader
  import opened History
  import opened TranscriptWindow

  /** A handler without a `skip` is handed every line that is not empty. */
  lemma UnskippedLine<S>(h: Handler<S>, line: Line, s: S)
    requires !h.hasSkip
    ensures OneLine(h, line, s) == if line == [] then (s, true) else h.line(s, line)
  {
  }

  /**
   * The window is a stretch of the whole history, of at most `limit` messages, that
   * ends at `before` or at the end of the history, whichever comes first, and is
   * shorter only where the history begins.
   */
  lemma WindowStretches(f: Format, content: Line, limit: int, before: Option<int>)
    ensures var all, w := AllHistory(f, content), Sliced(f, content, limit, before);
            var end := w.offset + |w.messages|;
            && w.totalCount == |all| && end <= |all| && w.messages == all[w.offset..end]
            && (limit <= 0 ==> w.messages == []) && (limit > 0 ==> |w.messages| <= limit)
            && (|w.messages| < limit ==> w.offset == 0 || w.messages == [] == all)
            && (if before.None? || before.value > |all| then end == |all|
                else if before.value < 0 then end == 0
                else end == before.value)
  {
  }

  /** The page of at most `limit` messages that ends at `end`. */
  predicate IsPage(w: Windowed, all: seq<HistoryMessage>, limit: nat, end: nat) {
    && end <= |all| && w.offset == (if limit < end then end - limit else 0)
    && w.messages == all[w.offset..end]
  }

  lemma OnePage(f: Format, file: Line, all: seq<HistoryMessage>, limit: nat, end: nat)
    requires end <= |all| && all[..end] <= AllHistory(f, file)
    ensures IsPage(Sliced(f, file, limit, Some(end)), all, limit, end)
  {
    var here := AllHistory(f, file);
    assert forall k :: 0 <= k < end ==> here[k] == all[..end][k];
  }

  lemma SlicesJoin(all: seq<HistoryMessage>, grown: seq<HistoryMessage>, start: nat, mid: nat, end: nat)
    requires start <= mid <= end <= |all| && all <= grown
    ensures all[..mid] <= grown && all[start..mid] + all[mid..end] == all[start..end]
  {
  }

  lemma PagesMeet(w: Windowed, whole: Windowed, page: Windowed, all: seq<HistoryMessage>, grown: seq<HistoryMessage>,
                  limit: nat, more: nat, end: nat)
    requires IsPage(w, all, limit, end) && IsPage(whole, all, limit + more, end) && all <= grown
    requires IsPage(page, grown, more, w.offset)
    ensures page.messages + w.messages == whole.messages && page.offset == whole.offset
  {
    SlicesJoin(all, grown, page.offset, w.offset, end);
  }

  /** The page before a window, also of a file that grew meanwhile, is what was missing of a larger window. */
  lemma PagesJoin(f: Format, content: Line, grown: Line, limit: nat, more: nat, before: Option<int>)
    requires AllHistory(f, content) <= AllHistory(f, grown)
    ensures var w, whole := Sliced(f, content, limit, before), Sliced(f, content, limit + more, before);
            var page := Sliced(f, grown, more, Some(w.offset));
            page.messages + w.messages == whole.messages && page.offset == whole.offset
  {
    var w, whole := Sliced(f, content, limit, before), Sliced(f, content, limit + more, before);
    var end := if before.None? then |AllHistory(f, content)| else Clamp(before.value, |AllHistory(f, content)|);
    OnePage(f, grown, AllHistory(f, grown), more, w.offset);
    PagesMeet(w, whole, Sliced(f, grown, more, Some(w.offset)), AllHistory(f, content), AllHistory(f, grown),
              limit, more, end);
  }

  /** Where the `k`-th page back ends: at `end`, or where the page before it began. */
  function EndAt(pages: seq<Windowed>, end: nat, k: nat): nat
    requires k <= |pages|
  {
    if k == 0 then end else pages[k - 1].offset
  }

  /** The pages read back are those of the files as they were by then. */
  predicate ReadFrom(f: Format, files: seq<Line>, pages: seq<Windowed>, limit: nat, end: nat, k: nat)
    requires k < |files| == |pages|
  {
    pages[k] == Sliced(f, files[k], limit, Some(EndAt(pages, end, k)))
  }

  /** The messages of the pages, the last page read first. */
  function Collected(pages: seq<Windowed>): seq<HistoryMessage> {
    if pages == [] then [] else Collected(pages[1..]) + pages[0].messages
  }

  lemma FewerPages(pages: nat, limit: nat, end: nat)
    requires pages > 0 && end <= pages * limit
    ensures (if limit < end then end - limit else 0) <= (pages - 1) * limit
  {
    assert (pages - 1) * limit == pages * limit - limit;
  }

  lemma {:induction false} PagesCover(all: seq<HistoryMessage>, pages: seq<Windowed>, limit: nat, end: nat)
    requires end <= |all| && end <= |pages| * limit
    requires forall k :: 0 <= k < |pages| ==> IsPage(pages[k], all, limit, EndAt(pages, end, k))
    ensures Collected(pages) == all[..end]
  {
    if pages == [] {
      assert all[..end] == [];
    } else {
      var first, rest := pages[0], pages[1..];
      assert IsPage(first, all, limit, EndAt(pages, end, 0));
      FewerPages(|pages|, limit, end);
      forall k | 0 <= k < |rest|
        ensures IsPage(rest[k], all, limit, EndAt(rest, first.offset, k))
      {
        assert IsPage(pages[k + 1], all, limit, EndAt(pages, end, k + 1));
      }
      PagesCover(all, rest, limit, first.offset);
      assert all[..end] == all[..first.offset] + all[first.offset..end];
    }
  }

  lemma {:induction false} PageReadIs(f: Format, all: seq<HistoryMessage>, files: seq<Line>, pages: seq<Windowed>,
                                      limit: nat, end: nat, k: nat)
    requires end <= |all| && |files| == |pages| && k < |pages|
    requires forall j :: 0 <= j < |files| ==> ReadFrom(f, files, pages, limit, end, j)
    requires forall j :: 0 <= j < |files| ==> all[..end] <= AllHistory(f, files[j])
    ensures EndAt(pages, end, k) <= end && IsPage(pages[k], all, limit, EndAt(pages, end, k))
  {
    if k > 0 {
      PageReadIs(f, all, files, pages, limit, end, k - 1);
    }
    var at := EndAt(pages, end, k);
    assert ReadFrom(f, files, pages, limit, end, k);
    assert all[..at] <= all[..end] <= AllHistory(f, files[k]);
    OnePage(f, files[k], all, limit, at);
  }

  /**
   * Paging back, with as many pages as it takes, reads every message before `end` once
   * and in order, whatever is appended to the file meanwhile.
   */
  lemma PagesAreAll(f: Format, all: seq<HistoryMessage>, files: seq<Line>, pages: seq<Windowed>, limit: nat, end: nat)
    requires end <= |all| && |files| == |pages| && end <= |pages| * limit
    requires forall k :: 0 <= k < |files| ==> ReadFrom(f, files, pages, limit, end, k)
    requires forall k :: 0 <= k < |files| ==> all[..end] <= AllHistory(f, files[k])
    ensures Collected(pages) == all[..end]
  {
    forall k | 0 <= k < |pages|
      ensures IsPage(pages[k], all, limit, EndAt(pages, end, k))
    {
      PageReadIs(f, all, files, pages, limit, end, k);
    }
    PagesCover(all, pages, limit, end);
  }
}
