/**
 * `LoadingService`: a global count of requests in flight; the application shows
 * its loading overlay while the count is positive.
 */
module Loading {

  class LoadingService {
    var loadingCount: nat

    /** `loading$`: some request is in flight. */
    predicate Loading()
      reads this
    {
      loadingCount > 0
    }

    constructor ()
      ensures loadingCount == 0 && !Loading()
    {
      loadingCount := 0;
    }

    method Show()
      modifies this
      ensures loadingCount == old(loadingCount) + 1
      ensures Loading()
    {
      loadingCount := loadingCount + 1;
    }

    /** `Math.max(0, count - 1)`: never below zero. */
    method Hide()
      modifies this
      ensures loadingCount == if old(loadingCount) == 0 then 0 else old(loadingCount) - 1
      ensures Loading() <==> old(loadingCount) > 1
    {
      loadingCount := if loadingCount == 0 then 0 else loadingCount - 1;
    }
  }

  /**
   * A fresh service sees `n` calls of `show` and then `k` calls of `hide`: it is
   * still loading exactly when fewer hides than shows were made, and surplus
   * hides leave the count at zero.
   */
  method ShowThenHide(n: nat, k: nat) returns (loading: bool, remaining: nat)
    ensures loading <==> k < n
    ensures remaining == if k < n then n - k else 0
  {
    var service := new LoadingService();
    var i := 0;
    while i < n
      invariant 0 <= i <= n
      invariant service.loadingCount == i
    {
      service.Show();
      i := i + 1;
    }
    var j := 0;
    while j < k
      invariant 0 <= j <= k
      invariant service.loadingCount == if j < n then n - j else 0
    {
      service.Hide();
      j := j + 1;
    }
    loading := service.Loading();
    remaining := service.loadingCount;
  }
}
