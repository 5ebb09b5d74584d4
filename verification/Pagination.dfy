/**
 The IBM provider's paginated listing. The server's answers form a finite page graph: a token
 outside the map is a nil response, and a page call may also fail.
 */
module Pagination {
  import opened Basics

  datatype PageReply<+T> = Page(items: seq<T>, next: string) | NilPage | PageFails

  type Pages<T> = map<string, PageReply<T>>

  datatype ListError = RepeatedToken | NilResponse | PageError

  function ReplyAt<T>(pages: Pages<T>, token: string): PageReply<T> {
    if token in pages then pages[token] else NilPage
  }

  /** What the listing loop returns once it holds `seen` tokens and is about to ask for `start`. */
  function Follow<T>(pages: Pages<T>, seen: set<string>, start: string): Result<seq<T>, ListError>
    decreases pages.Keys - seen
  {
    if start in seen then Err(RepeatedToken)
    else
      match ReplyAt(pages, start)
      case NilPage => Err(NilResponse)
      case PageFails => Err(PageError)
      case Page(items, next) =>
        if next == "" then Ok(items)
        else
          match Follow(pages, seen + {start}, next)
          case Err(e) => Err(e)
          case Ok(rest) => Ok(items + rest)
  }

  function ListAll<T>(pages: Pages<T>): Result<seq<T>, ListError> {
    Follow(pages, {}, "")
  }

  function Prepend<T>(items: seq<T>, r: Result<seq<T>, ListError>): Result<seq<T>, ListError> {
    match r
    case Err(e) => Err(e)
    case Ok(rest) => Ok(items + rest)
  }

  /** listVolumes: the loop over pages with its set of tokens already used. */
  method ListVolumes<T>(pages: Pages<T>) returns (r: Result<seq<T>, ListError>)
    ensures r == ListAll(pages)
  {
    var items: seq<T> := [];
    var seen: set<string> := {};
    var start := "";
    PrependNothing(ListAll(pages));
    while true
      invariant ListAll(pages) == Prepend(items, Follow(pages, seen, start))
      decreases pages.Keys - seen
    {
      if start in seen {
        return Err(RepeatedToken);
      }
      var reply := ReplyAt(pages, start);
      if reply.PageFails? {
        return Err(PageError);
      }
      if reply.NilPage? {
        return Err(NilResponse);
      }
      ghost var before := items;
      var unseen := seen;
      seen := seen + {start};
      items := items + reply.items;
      if reply.next == "" {
        return Ok(items);
      }
      assert Follow(pages, unseen, start) == Prepend(reply.items, Follow(pages, seen, reply.next));
      PrependTwice(before, reply.items, Follow(pages, seen, reply.next));
      start := reply.next;
    }
  }

  lemma PrependTwice<T>(a: seq<T>, b: seq<T>, r: Result<seq<T>, ListError>)
    ensures Prepend(a, Prepend(b, r)) == Prepend(a + b, r)
  {
    if r.Ok? {
      assert a + (b + r.value) == a + b + r.value;
    }
  }

  // ---- The token chain, independently of the loop ----

  ghost predicate Links<T>(pages: Pages<T>, a: string, b: string) {
    ReplyAt(pages, a).Page? && ReplyAt(pages, a).next == b && b != ""
  }

  /** A walk along the token chain from "". */
  ghost predicate IsTrail<T>(pages: Pages<T>, ts: seq<string>) {
    && |ts| > 0
    && ts[0] == ""
    && forall i :: 0 <= i < |ts| - 1 ==> Links(pages, ts[i], ts[i + 1])
  }

  ghost function LastReply<T>(pages: Pages<T>, ts: seq<string>): PageReply<T>
    requires |ts| > 0
  {
    ReplyAt(pages, ts[|ts| - 1])
  }

  ghost predicate Ends<T>(pages: Pages<T>, ts: seq<string>) {
    |ts| > 0 && LastReply(pages, ts).Page? && LastReply(pages, ts).next == ""
  }

  ghost predicate Continues<T>(pages: Pages<T>, ts: seq<string>) {
    |ts| > 0 && LastReply(pages, ts).Page? && LastReply(pages, ts).next != ""
  }

  /** The pages' items in the order the tokens are visited. */
  ghost function Gather<T>(pages: Pages<T>, ts: seq<string>): seq<T> {
    if ts == [] then []
    else Gather(pages, ts[..|ts| - 1]) +
         match LastReply(pages, ts) case Page(items, _) => items case _ => []
  }

  function Elements<T(==)>(s: seq<T>): set<T> {
    set t | t in s
  }

  /** How a listing result shows in the token chain. */
  ghost predicate Explains<T>(pages: Pages<T>, r: Result<seq<T>, ListError>, ts: seq<string>) {
    && IsTrail(pages, ts)
    && match r
       case Ok(items) => Distinct(ts) && Ends(pages, ts) && items == Gather(pages, ts)
       case Err(NilResponse) => LastReply(pages, ts).NilPage?
       case Err(PageError) => LastReply(pages, ts).PageFails?
       case Err(RepeatedToken) => ts[|ts| - 1] in ts[..|ts| - 1]
  }

  lemma {:induction false} FollowExplained<T>(pages: Pages<T>, ts: seq<string>, seen: set<string>)
    returns (us: seq<string>)
    requires IsTrail(pages, ts)
    requires Distinct(ts[..|ts| - 1])
    requires seen == Elements(ts[..|ts| - 1])
    ensures Explains(pages, Prepend(Gather(pages, ts[..|ts| - 1]), Follow(pages, seen, ts[|ts| - 1])), us)
    decreases pages.Keys - seen
  {
    var start := ts[|ts| - 1];
    us := ts;
    if start !in seen {
      match ReplyAt(pages, start)
      case NilPage =>
      case PageFails =>
      case Page(items, next) =>
        if next != "" {
          var longer := ts + [next];
          assert longer[..|longer| - 1] == ts;
          us := FollowExplained(pages, longer, seen + {start});
          PrependTwice(Gather(pages, ts[..|ts| - 1]), items, Follow(pages, seen + {start}, next));
        }
    }
  }

  lemma {:induction false} TrailsAgree<T>(pages: Pages<T>, ts: seq<string>, us: seq<string>, k: nat)
    requires IsTrail(pages, ts) && IsTrail(pages, us)
    requires k < |ts| && k < |us|
    ensures ts[k] == us[k]
  {
    if k > 0 {
      TrailsAgree(pages, ts, us, k - 1);
      assert Links(pages, ts[k - 1], ts[k]) && Links(pages, us[k - 1], us[k]);
    }
  }

  /** Once a token repeats, every walk stays among the tokens already seen. */
  lemma {:induction false} CycleIsClosed<T>(pages: Pages<T>, us: seq<string>, ts: seq<string>, k: nat)
    returns (m: nat)
    requires IsTrail(pages, us) && us[|us| - 1] in us[..|us| - 1]
    requires IsTrail(pages, ts) && k < |ts|
    ensures m < |us| - 1 && ts[k] == us[m] && Links(pages, us[m], us[m + 1])
  {
    if k == 0 {
      m := 0;
    } else {
      var before := CycleIsClosed(pages, us, ts, k - 1);
      assert Links(pages, ts[k - 1], ts[k]);
      m := before + 1;
      if m == |us| - 1 {
        m :| 0 <= m < |us| - 1 && us[m] == us[|us| - 1];
      }
    }
  }

  /**
   Total and exact: a finite page graph always gives an answer. A complete answer is the
   concatenation of the pages along the token chain, each token visited once; a repeated token is
   reported only if no walk along the chain ever meets an empty Next.
   */
  lemma ListIsExact<T>(pages: Pages<T>)
    ensures exists ts :: Explains(pages, ListAll(pages), ts)
    ensures ListAll(pages) == Err(RepeatedToken) ==>
              forall ts :: IsTrail(pages, ts) ==> Continues(pages, ts)
  {
    assert [""][..|[""]| - 1] == [];
    var us := FollowExplained(pages, [""], {});
    PrependNothing(ListAll(pages));
    if ListAll(pages) == Err(RepeatedToken) {
      forall ts | IsTrail(pages, ts)
        ensures Continues(pages, ts)
      {
        var m := CycleIsClosed(pages, us, ts, |ts| - 1);
      }
    }
  }

  lemma PrependNothing<T>(r: Result<seq<T>, ListError>)
    ensures Prepend([], r) == r
  {
    if r.Ok? {
      assert [] + r.value == r.value;
    }
  }

  lemma LongerWalkContinues<T>(pages: Pages<T>, ts: seq<string>, us: seq<string>)
    requires IsTrail(pages, ts) && IsTrail(pages, us) && |ts| < |us|
    ensures Continues(pages, ts)
  {
    TrailsAgree(pages, ts, us, |ts| - 1);
    assert Links(pages, us[|ts| - 1], us[|ts|]);
  }

  /** Walks that cannot be continued are one and the same. */
  lemma FinalTrailsAgree<T>(pages: Pages<T>, ts: seq<string>, us: seq<string>)
    requires IsTrail(pages, ts) && !Continues(pages, ts)
    requires IsTrail(pages, us) && !Continues(pages, us)
    ensures ts == us
  {
    if |ts| < |us| {
      LongerWalkContinues(pages, ts, us);
    } else if |us| < |ts| {
      LongerWalkContinues(pages, us, ts);
    } else {
      forall k | 0 <= k < |ts| ensures ts[k] == us[k] {
        TrailsAgree(pages, ts, us, k);
      }
    }
  }

  /** The converse: wherever the chain stops, the listing reports it. */
  lemma ChainDecidesListing<T>(pages: Pages<T>, ts: seq<string>)
    requires IsTrail(pages, ts)
    ensures Ends(pages, ts) ==> ListAll(pages) == Ok(Gather(pages, ts))
    ensures LastReply(pages, ts).NilPage? ==> ListAll(pages) == Err(NilResponse)
    ensures LastReply(pages, ts).PageFails? ==> ListAll(pages) == Err(PageError)
  {
    ListIsExact(pages);
    if !Continues(pages, ts) {
      var us :| Explains(pages, ListAll(pages), us);
      FinalTrailsAgree(pages, ts, us);
    }
  }

  /** A walk that comes back to a token it has used makes the listing report the repetition. */
  lemma CycleIsReported<T>(pages: Pages<T>, ts: seq<string>)
    requires IsTrail(pages, ts) && ts[|ts| - 1] in ts[..|ts| - 1]
    ensures ListAll(pages) == Err(RepeatedToken)
  {
    ListIsExact(pages);
    var us :| Explains(pages, ListAll(pages), us);
    var m := CycleIsClosed(pages, ts, us, |us| - 1);
  }
}
