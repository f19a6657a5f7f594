/** internal/adapter: what every input reports about records it could not use,
    and when skipping stops being acceptable. */
module Adapters {

  const MIN_RECORDS: nat := 10
  const FRACTION: real := 0.5

  datatype Skipped = Skipped(adapter: string, id: string, reason: string)

  function SyntheticId(adapter: string, locator: string): string {
    adapter + ":" + locator
  }

  predicate SkipCeilingExceeded(seen: nat, skipped: nat) {
    seen >= MIN_RECORDS && skipped as real > FRACTION * (seen as real)
  }

  /** The threshold in whole records. Below ten nothing trips it; from ten on, a
      poll is refused exactly when it skipped more records than it kept. */
  lemma CeilingInRecords(seen: nat, kept: nat, skipped: nat)
    requires seen == kept + skipped
    ensures SkipCeilingExceeded(seen, skipped) <==> seen >= 10 && skipped > kept
  {
    assert skipped as real > FRACTION * (seen as real) <==> 2.0 * (skipped as real) > seen as real;
    assert 2.0 * (skipped as real) == (2 * skipped) as real;
  }
}
