/** Asset readiness: each image's load handler calls checkStart(), and the
    frame loop is scheduled when the last of the three images has arrived. */
module Loading {

  /** walk sheet, idle sheet and grass tile. */
  const AssetCount: nat := 3

  /** The number of times the first n calls of checkStart(), made with the
      counter starting at 0, schedule the frame loop. */
  function Requests(n: nat): nat
  {
    if n == 0 then 0 else Requests(n - 1) + (if n == AssetCount then 1 else 0)
  }

  /** The loop is scheduled exactly once, on the third load, and never before. */
  lemma {:induction false} RequestedOnce(n: nat)
    ensures Requests(n) == if n >= AssetCount then 1 else 0
  {
    if n > 0 {
      RequestedOnce(n - 1);
    }
  }

  /** The `loaded` counter and the requestAnimationFrame(loop) calls checkStart
      has made so far (the loop's own rescheduling is not counted). */
  class Loader {
    var loaded: int
    var frameRequests: nat

    ghost predicate Valid()
      reads this
    {
      loaded >= 0 && frameRequests == Requests(loaded)
    }

    constructor ()
      ensures Valid() && loaded == 0 && frameRequests == 0
    {
      loaded := 0;
      frameRequests := 0;
    }

    /** checkStart(): count one more loaded image and, when it is the last of
        the three, schedule the frame loop. */
    method CheckStart() returns (start: bool)
      modifies this
      ensures loaded == old(loaded) + 1
      ensures start <==> loaded == AssetCount
      ensures frameRequests == old(frameRequests) + (if start then 1 else 0)
      ensures old(Valid()) ==> Valid() && frameRequests == (if loaded >= AssetCount then 1 else 0)
    {
      loaded := loaded + 1;
      start := loaded == AssetCount;
      if start {
        frameRequests := frameRequests + 1;
      }
      if loaded >= 0 {
        RequestedOnce(loaded);
      }
    }
  }
}
