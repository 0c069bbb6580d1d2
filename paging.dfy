/**
 * The specification of `uiUtils.listAll`: flattening a cursor-paginated
 * listing into one ordered sequence.
 *
 * The management API is an oracle whose answers are fixed in advance:
 * `replies[0]` settles the promise of the first page and `replies[i + 1]`
 * settles the i-th `listNext` call. A reply either delivers a page (its
 * items and an optional `nextLink`) or rejects.
 */
module Paging {
  import opened Results

  datatype Page<T> = Page(items: seq<T>, nextLink: Option<string>)

  datatype Reply<T> = Delivered(page: Page<T>) | Rejected(reason: string)

  /** `while (list.nextLink)`: a link is followed only when it is a non-empty string. */
  predicate HasNext<T>(p: Page<T>) {
    IsNonEmpty(p.nextLink)
  }

  /** A reply after which the lister requests nothing more. */
  predicate Final<T>(r: Reply<T>) {
    r.Rejected? || !HasNext(r.page)
  }

  /** The chain of replies ends: the lister's loop terminates on this oracle. */
  predicate Terminates<T>(replies: seq<Reply<T>>) {
    exists k :: 0 <= k < |replies| && Final(replies[k])
  }

  lemma TerminatesTail<T>(replies: seq<Reply<T>>)
    requires Terminates(replies) && !Final(replies[0])
    ensures Terminates(replies[1..])
  {
    var k :| 0 <= k < |replies| && Final(replies[k]);
    assert replies[1..][k - 1] == replies[k];
  }

  /** The index of the reply that ends the listing: the first final one. */
  function StopIndex<T>(replies: seq<Reply<T>>): (k: nat)
    requires Terminates(replies)
    ensures k < |replies| && Final(replies[k])
    ensures forall j :: 0 <= j < k ==> !Final(replies[j])
  {
    if Final(replies[0]) then 0
    else
      TerminatesTail(replies);
      1 + StopIndex(replies[1..])
  }

  /** The items of the delivered replies, in arrival order (`all.push(...list)` per page). */
  function Flatten<T>(replies: seq<Reply<T>>): seq<T>
  {
    if replies == [] then []
    else
      var last := replies[|replies| - 1];
      Flatten(replies[..|replies| - 1]) + (if last.Delivered? then last.page.items else [])
  }

  /** The number of items the delivered replies carry together. */
  function TotalLength<T>(replies: seq<Reply<T>>): nat
  {
    if replies == [] then 0
    else (if replies[0].Delivered? then |replies[0].page.items| else 0) + TotalLength(replies[1..])
  }

  /**
   * What `listAll` settles to: a rejection of the reply that ends the
   * chain, with its reason, or every page up to and including the first one
   * without a next link, concatenated in order.
   */
  function Listing<T>(replies: seq<Reply<T>>): Result<seq<T>>
    requires Terminates(replies)
  {
    var k := StopIndex(replies);
    if replies[k].Rejected? then Failure(FetchFailed(replies[k].reason))
    else Success(Flatten(replies[..k + 1]))
  }

  lemma {:induction false} FlattenPrefixLength<T>(replies: seq<Reply<T>>)
    ensures |Flatten(replies)| == TotalLength(replies)
  {
    if replies != [] {
      var n := |replies|;
      FlattenPrefixLength(replies[..n - 1]);
      TotalLengthSnoc(replies[..n - 1], replies[n - 1]);
      assert replies[..n - 1] + [replies[n - 1]] == replies;
    }
  }

  lemma {:induction false} TotalLengthSnoc<T>(replies: seq<Reply<T>>, r: Reply<T>)
    ensures TotalLength(replies + [r]) == TotalLength(replies) + (if r.Delivered? then |r.page.items| else 0)
  {
    if replies != [] {
      assert (replies + [r])[1..] == replies[1..] + [r];
      TotalLengthSnoc(replies[1..], r);
    }
  }

  /** A successful listing holds exactly as many items as the pages it consumed. */
  lemma ListingLength<T>(replies: seq<Reply<T>>)
    requires Terminates(replies)
    ensures Listing(replies).Success? ==>
              |Listing(replies).value| == TotalLength(replies[..StopIndex(replies) + 1])
  {
    FlattenPrefixLength(replies[..StopIndex(replies) + 1]);
  }

  /** Where the items of reply `j` begin in the flattened sequence. */
  function Offset<T>(replies: seq<Reply<T>>, j: nat): nat
    requires j <= |replies|
  {
    |Flatten(replies[..j])|
  }

  /**
   * Arrival order: the items of every delivered page occupy one contiguous
   * block of the flattened sequence, placed after the items of all earlier
   * pages.
   */
  lemma {:induction false} PageInPlace<T>(replies: seq<Reply<T>>, j: nat)
    requires j < |replies| && replies[j].Delivered?
    ensures Offset(replies, j) + |replies[j].page.items| <= |Flatten(replies)|
    ensures Flatten(replies)[Offset(replies, j)..Offset(replies, j) + |replies[j].page.items|]
            == replies[j].page.items
  {
    var n := |replies|;
    var init := replies[..n - 1];
    if j == n - 1 {
      assert replies[..j] == init;
    } else {
      assert init[..j] == replies[..j];
      assert init[j] == replies[j];
      PageInPlace(init, j);
      var tail := if replies[n - 1].Delivered? then replies[n - 1].page.items else [];
      assert Flatten(replies) == Flatten(init) + tail;
    }
  }

  /**
   * An empty first page without a next link (absent or the empty string)
   * settles to an empty list, not to an error.
   */
  lemma EmptyFirstPage<T>(replies: seq<Reply<T>>)
    requires |replies| > 0 && replies[0].Delivered? && replies[0].page.items == [] && !HasNext(replies[0].page)
    ensures Terminates(replies) && StopIndex(replies) == 0
    ensures Listing(replies) == Success([])
  {
    assert Final(replies[0]);
    assert replies[..1][..0] == [];
    assert Flatten(replies[..1]) == Flatten(replies[..1][..0]) + [];
  }

  /**
   * A rejection anywhere before the chain ends rejects the whole listing
   * with the same reason; the items already received are discarded.
   */
  lemma RejectionPropagates<T>(replies: seq<Reply<T>>, k: nat)
    requires k < |replies| && replies[k].Rejected?
    requires forall j :: 0 <= j < k ==> !Final(replies[j])
    ensures Terminates(replies) && StopIndex(replies) == k
    ensures Listing(replies) == Failure(FetchFailed(replies[k].reason))
  {
    assert Final(replies[k]);
  }

  /** The listing fails exactly when the reply that ends it is a rejection. */
  lemma ListingFailsIffRejected<T>(replies: seq<Reply<T>>)
    requires Terminates(replies)
    ensures Listing(replies).Failure? <==> exists k :: 0 <= k < |replies| && replies[k].Rejected? &&
                                                      forall j :: 0 <= j < k ==> !Final(replies[j])
  {
    var s := StopIndex(replies);
    if Listing(replies).Failure? {
      assert replies[s].Rejected?;
    } else {
      forall k | 0 <= k < |replies| && replies[k].Rejected?
        ensures exists j :: 0 <= j < k && Final(replies[j])
      {
        assert Final(replies[k]);
        assert k != s;
        assert s < k;
      }
    }
  }
}
