// The retry loop inside one iteration of WorkspaceStore.refreshLoop (apps/vscode/src/state.ts):
// every wait is measured against one deadline anchored where the iteration began.
module RetryBudgets {

  const RETRY_DELAYS_MS: seq<int> := [400, 1_000, 2_500]
  const RETRY_BUDGET_MS: int := 3_900

  // History: what the waits asked for so far, the last of them, and when it ends.
  datatype Retry = Retry(attempt: nat, startedAt: int, scheduled: int, slept: int, wait: int, wakeAt: int)

  function Start(now: int): Retry {
    Retry(0, now, 0, 0, 0, now)
  }

  predicate MayRetry(r: Retry) {
    r.attempt < |RETRY_DELAYS_MS|
  }

  function Backoff(r: Retry, now: int): Retry
    requires MayRetry(r)
  {
    var scheduled := r.scheduled + RETRY_DELAYS_MS[r.attempt];
    var remaining := if r.startedAt + scheduled - now > 0 then r.startedAt + scheduled - now else 0;
    r.(scheduled := scheduled, slept := r.slept + remaining, wait := remaining, wakeAt := now + remaining)
  }

  function Woken(r: Retry): Retry {
    r.(attempt := r.attempt + 1)
  }

  // The delays scheduled before attempt `n` starts.
  function Scheduled(n: nat): int {
    if n == 0 then 0 else if n == 1 then 400 else if n == 2 then 1_400 else RETRY_BUDGET_MS
  }

  // `waiting` tells a wait from a running attempt.
  ghost predicate WithinBudget(r: Retry, waiting: bool) {
    && r.attempt <= |RETRY_DELAYS_MS| && (waiting ==> MayRetry(r))
    && r.scheduled == Scheduled(if waiting then r.attempt + 1 else r.attempt)
    && 0 <= r.slept <= r.scheduled
    && r.startedAt + r.slept <= r.wakeAt
    && 0 <= r.wait && (0 < r.wait ==> r.wakeAt <= r.startedAt + r.scheduled)
  }

  // However long the attempt took, the wait after it stays within the anchored deadline.
  lemma BackoffStaysWithin(r: Retry, now: int)
    requires WithinBudget(r, false) && MayRetry(r) && r.wakeAt <= now
    ensures WithinBudget(Backoff(r, now), true)
  {}

  lemma WithinIsTheBudget(r: Retry, waiting: bool)
    requires WithinBudget(r, waiting)
    ensures r.slept <= RETRY_BUDGET_MS && r.attempt + 1 <= 4
    ensures 0 < r.wait ==> r.wakeAt <= r.startedAt + RETRY_BUDGET_MS
  {}
}
