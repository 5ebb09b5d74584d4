/** The paging part of ListSnapshots: numeric starting tokens over a list of snapshots. */
module SnapshotPaging {
  import opened Basics
  import opened Decimal

  /** OutOfRange is the index panic of a negative token. */
  datatype Reply<+T> = Page(entries: seq<T>, next: string) | InvalidToken | OutOfRange

  function StartIndex(token: string): Option<int> {
    if token == "" then Some(0) else ParseInt64(token)
  }

  /** One page: at most `max` entries when max is positive, and a token only if more remain. */
  function PageAt<T>(list: seq<T>, start: int, max: int): Reply<T> {
    if start < 0 then OutOfRange
    else if start >= |list| then Page([], "")
    else if max > 0 && start + max < |list| then Page(list[start..start + max], FormatInt(start + max))
    else Page(list[start..], "")
  }

  function ListPage<T>(list: seq<T>, token: string, max: int): Reply<T> {
    match StartIndex(token)
    case None => InvalidToken
    case Some(start) => PageAt(list, start, max)
  }

  method ListSnapshotsPage<T>(list: seq<T>, token: string, max: int) returns (r: Reply<T>)
    ensures r == ListPage(list, token, max)
  {
    var startIdx := 0;
    if token != "" {
      var idx := ParseInt64(token);
      if idx.None? {
        return InvalidToken;
      }
      startIdx := idx.value;
    }
    if startIdx < 0 {
      return OutOfRange;
    }
    var entries: seq<T> := [];
    var i := startIdx;
    while i < |list|
      invariant startIdx <= i
      invariant startIdx <= |list| ==> i <= |list| && entries == list[startIdx..i]
      invariant startIdx > |list| ==> i == startIdx && entries == []
      invariant max > 0 ==> |entries| <= max
    {
      if max > 0 && |entries| >= max {
        return Page(entries, FormatInt(i));
      }
      entries := entries + [list[i]];
      i := i + 1;
    }
    return Page(entries, "");
  }

  /** A token the server emits for this list, or the empty starting token. */
  ghost predicate Emitted<T>(list: seq<T>, token: string) {
    token == "" || exists i: nat :: i < |list| && token == FormatInt(i)
  }

  lemma EmittedStart<T>(list: seq<T>, token: string)
    requires |list| <= MAX_INT64 && Emitted(list, token)
    ensures StartIndex(token).Some? && 0 <= StartIndex(token).value
    ensures token != "" ==> StartIndex(token).value < |list|
  {
    if token != "" {
      var i: nat :| i < |list| && token == FormatInt(i);
      ParseAfterFormat(i);
    }
  }

  /** Each page with a token is exactly full, and its token points just past it. */
  lemma TokenAdvances<T>(list: seq<T>, token: string, max: int)
    requires |list| <= MAX_INT64 && Emitted(list, token) && max > 0
    ensures ListPage(list, token, max).Page?
    ensures var page := ListPage(list, token, max);
            page.next != "" ==>
              && Emitted(list, page.next)
              && |page.entries| == max
              && StartIndex(page.next) == Some(StartIndex(token).value + max)
  {
    EmittedStart(list, token);
    var start := StartIndex(token).value;
    if start + max < |list| {
      ParseAfterFormat(start + max);
      var next: nat := start + max;
      assert FormatInt(next) != "";
    }
  }

  /** The pages a client gets by following NextToken; it terminates because tokens grow. */
  ghost function PagesFrom<T>(list: seq<T>, token: string, max: int): seq<seq<T>>
    requires |list| <= MAX_INT64 && Emitted(list, token) && max > 0
    decreases |list| - (EmittedStart(list, token); StartIndex(token).value)
  {
    TokenAdvances(list, token, max);
    EmittedStart(list, token);
    var page := ListPage(list, token, max);
    if page.next == "" then [page.entries]
    else
      EmittedStart(list, page.next);
      [page.entries] + PagesFrom(list, page.next, max)
  }

  function Concat<T>(pages: seq<seq<T>>): seq<T> {
    if pages == [] then [] else pages[0] + Concat(pages[1..])
  }

  lemma {:induction false} PagesReassemble<T>(list: seq<T>, token: string, max: int)
    requires |list| <= MAX_INT64 && Emitted(list, token) && max > 0
    requires StartIndex(token).Some? && 0 <= StartIndex(token).value <= |list|
    ensures var pages := PagesFrom(list, token, max);
            && Concat(pages) == list[StartIndex(token).value..]
            && |pages| > 0
            && (forall k :: 0 <= k < |pages| - 1 ==> |pages[k]| == max)
            && |pages[|pages| - 1]| <= max
    decreases |list| - StartIndex(token).value
  {
    TokenAdvances(list, token, max);
    EmittedStart(list, token);
    var start := StartIndex(token).value;
    var page := ListPage(list, token, max);
    var pages := PagesFrom(list, token, max);
    if page.next == "" {
      assert pages == [page.entries];
      assert Concat(pages) == page.entries + [];
    } else {
      EmittedStart(list, page.next);
      PagesReassemble(list, page.next, max);
      assert pages[1..] == PagesFrom(list, page.next, max);
      assert list[start..] == list[start..start + max] + list[start + max..];
    }
  }

  /**
   From the start, following the tokens gives back the whole list, without gap or repeat; every page
   but the last is exactly full.
   */
  lemma WholeListReassembles<T>(list: seq<T>, max: int)
    requires |list| <= MAX_INT64 && max > 0
    ensures var pages := PagesFrom(list, "", max);
            && Concat(pages) == list
            && (forall k :: 0 <= k < |pages| - 1 ==> |pages[k]| == max)
            && |pages[|pages| - 1]| <= max
  {
    PagesReassemble(list, "", max);
    assert list[0..] == list;
  }

  /**
   A page for any token: refused if that is not a 64-bit number, a panic if negative, otherwise the
   entries from there on, as many as the maximum if it is positive and all of them if not, with a token
   exactly if some are left.
   */
  lemma PageIs<T>(list: seq<T>, token: string, max: int)
    ensures var start := if token == "" then Some(0) else ParseInt64(token);
            && (ListPage(list, token, max).InvalidToken? <==> start.None?)
            && (ListPage(list, token, max).OutOfRange? <==> start.Some? && start.value < 0)
            && (start.Some? && start.value >= 0 ==>
                  var left := if start.value >= |list| then [] else list[start.value..];
                  var count := if max > 0 && max < |left| then max else |left|;
                  ListPage(list, token, max) == Page(left[..count], if count < |left| then FormatInt(start.value + max) else ""))
  {
    var start := if token == "" then Some(0) else ParseInt64(token);
    if start.Some? && 0 <= start.value < |list| {
      var left := list[start.value..];
      assert max > 0 && start.value + max < |list| ==> list[start.value..start.value + max] == left[..max];
      assert left[..|left|] == left;
    }
  }
}
