/** Which provider failures are worth a retry: a walk along the exception's cause chain. */
module Transience {
  import opened Common

  /** An exception object; `next` is its `original_exception` or else its `__cause__`. */
  datatype Exc = Exc(name: string, status: Option<int>, fromWatchdog: bool, next: Option<nat>)

  /** Exceptions by identity; links stay inside, but may form a cycle. */
  type Heap = h: map<nat, Exc> | Closed(h) witness map[]

  ghost predicate Closed(h: map<nat, Exc>) {
    forall x :: x in h && h[x].next.Some? ==> h[x].next.value in h
  }

  const TRANSIENT_NAMES := {
    "Timeout", "APITimeoutError", "APIConnectionError", "APIError",
    "RateLimitError", "ServiceUnavailableError", "InternalServerError"
  }

  /** `_is_transient_single` */
  predicate Single(e: Exc) {
    if e.fromWatchdog then true
    else if e.name == "APIError" && e.status.Some? && 400 <= e.status.value < 500 && e.status.value != 429 then false
    else if e.name in TRANSIENT_NAMES then true
    else e.status.Some? && (e.status.value == 429 || e.status.value >= 500)
  }

  /**
   * An exception is transient by itself when the watchdog raised it, when its status says so, and by its name
   * unless it is an API error blamed on the request.
   */
  lemma SingleMeans(e: Exc)
    ensures var busy := e.status.Some? && (e.status.value == 429 || e.status.value >= 500);
            var blamed := e.status.Some? && 400 <= e.status.value <= 499 && e.status.value != 429;
            Single(e) <==>
              || e.fromWatchdog || busy
              || (e.name == "APIError" && !blamed)
              || e.name in {"Timeout", "APITimeoutError", "APIConnectionError", "RateLimitError",
                            "ServiceUnavailableError", "InternalServerError"}
  {
    assert e.name == "APIError" ==>
      e.name !in {"Timeout", "APITimeoutError", "APIConnectionError", "RateLimitError",
                  "ServiceUnavailableError", "InternalServerError"};
  }

  /** The `k`-th exception of the chain that starts at `x`. */
  ghost function Link(h: Heap, x: nat, k: nat): (y: Option<nat>)
    requires x in h
    ensures y.Some? ==> y.value in h
  {
    if k == 0 then Some(x)
    else
      var prev := Link(h, x, k - 1);
      if prev.None? then None else h[prev.value].next
  }

  ghost predicate TransientAt(h: Heap, x: nat, k: nat)
    requires x in h
  {
    Link(h, x, k).Some? && Single(h[Link(h, x, k).value])
  }

  lemma {:induction false} ClosedSetHoldsChain(h: Heap, x: nat, seen: set<nat>, k: nat)
    requires x in h && x in seen && seen <= h.Keys
    requires forall y :: y in seen && h[y].next.Some? ==> h[y].next.value in seen
    ensures Link(h, x, k).Some? ==> Link(h, x, k).value in seen
  {
    if k > 0 { ClosedSetHoldsChain(h, x, seen, k - 1); }
  }

  /**
   * `is_transient`: terminates even on a cyclic chain, and says yes exactly when some exception
   * on the chain is transient by itself.
   */
  method IsTransient(h: Heap, exc: nat) returns (b: bool)
    requires exc in h
    ensures b <==> exists k: nat :: TransientAt(h, exc, k)
  {
    var seen: set<nat> := {};
    var cur := Some(exc);
    ghost var k: nat := 0;
    while cur.Some? && cur.value !in seen
      invariant cur == Link(h, exc, k)
      invariant seen <= h.Keys && (k > 0 ==> exc in seen)
      invariant forall y :: y in seen ==> !Single(h[y])
      invariant forall y :: y in seen && h[y].next.Some? ==> h[y].next.value in seen || h[y].next == cur
      decreases h.Keys - seen
    {
      seen := seen + {cur.value};
      if Single(h[cur.value]) {
        assert TransientAt(h, exc, k);
        return true;
      }
      cur := h[cur.value].next;
      k := k + 1;
    }
    forall j: nat ensures !TransientAt(h, exc, j) {
      ClosedSetHoldsChain(h, exc, seen, j);
    }
    b := false;
  }
}
