/** The completion that a write request's fragments meet at: `AioCompletionImp` with the 8-bit
    count that `DataStoreRequest` gives it. */
module Barrier {

  /** The counter, the number of calls so far, and at which calls the callback ran. */
  datatype Gate = Gate(count: int, calls: nat, fires: seq<nat>)

  /** The count passes through an 8-bit parameter. */
  function Opened(fragments: nat): Gate {
    Gate(fragments % 256, 0, [])
  }

  /** `complete`: the callback runs when the count reaches zero, and at every call while the
      count is -1. */
  function Completed(g: Gate): Gate {
    var k := g.calls + 1;
    if g.count == -1 then Gate(-1, k, g.fires + [k])
    else Gate(g.count - 1, k, if g.count == 1 then g.fires + [k] else g.fires)
  }

  function After(g: Gate, k: nat): Gate {
    if k == 0 then g else Completed(After(g, k - 1))
  }

  /** Up to the count, nothing fires before the last call. */
  lemma {:induction false} CountsDown(c: nat, k: nat)
    requires k <= c
    ensures After(Gate(c, 0, []), k) == Gate(c - k, k, if 0 < k == c then [k] else [])
  {
    if k > 0 {
      CountsDown(c, k - 1);
    }
  }

  lemma {:induction false} FiresStay(g: Gate, j: nat, k: nat)
    requires j <= k
    ensures After(g, j).fires <= After(g, k).fires
  {
    if j < k {
      FiresStay(g, j, k - 1);
    }
  }

  /** After all fragments have arrived the callback has run exactly once, at the last one, and
      waiters may pass, if and only if there are 1 to 255 fragments. */
  lemma FiresAtLastIff(n: nat)
    ensures After(Opened(n), n).fires == [n] && After(Opened(n), n).count == 0 <==> 1 <= n <= 255
  {
    var c := n % 256;
    var g := Opened(n);
    if n <= 255 {
      CountsDown(n, n);
    } else if c > 0 {
      CountsDown(c, c);
      FiresStay(g, c, n);
      assert After(g, n).fires[0] == c < n;
    } else {
      assert After(g, 1) == Gate(-1, 1, []);
      assert After(g, 2).fires == [2];
      FiresStay(g, 2, n);
      assert After(g, n).fires[0] == 2 < n;
    }
  }

  /** With 1 to 255 fragments, waiters may pass after `k` arrivals exactly when all have come. */
  lemma PassesIffAll(n: nat, k: nat)
    requires 1 <= n <= 255 && k <= n
    ensures After(Opened(n), k).count == 0 <==> k == n
    ensures k < n ==> After(Opened(n), k).fires == []
  {
    CountsDown(n, k);
  }

  /** A request of 256 fragments is submitted from the second arrival on, at every arrival, and
      its waiters never pass. */
  lemma {:induction false} TwoHundredFiftySix(k: nat)
    requires k >= 1
    ensures After(Opened(256), k).count == -1
    ensures |After(Opened(256), k).fires| == k - 1
  {
    if k > 1 {
      TwoHundredFiftySix(k - 1);
    }
  }
}
