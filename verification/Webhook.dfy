/** internal/output/webhook: which responses are worth another attempt, and how
    long a destination may ask the pipeline to wait. */
module Webhook {
  import opened Basics
  import opened Durations

  /** What one Send comes to: nil, an ErrPermanent, or any other error. */
  datatype SendResult = Sent | Permanent | Temporary(retryAfter: Option<int>)

  /** The Retry-After header, trimmed: absent, an integer (which Atoi holds to 64
      bits), an HTTP date (in nanoseconds), or something that is neither. */
  datatype Header = NoHeader | Seconds(n: int) | Date(t: int) | Unreadable

  /** The delay the destination asked for, in true arithmetic. */
  function Asked(h: Header, now: int): int
    requires h.Seconds? || h.Date?
  {
    if h.Seconds? then h.n * SECOND else h.t - now
  }

  /** The documented answer: what was asked for, never negative, at most the cap. */
  function Capped(asked: int, cap: int): int {
    Min(Max(asked, 0), cap)
  }

  /** The answer computed in 64 bits: the product wraps, the difference saturates. */
  function Honoured(h: Header, now: int, cap: int): Option<int> {
    match h
    case NoHeader => None
    case Unreadable => None
    case Seconds(n) => Some(Capped(Wrap(n * SECOND), cap))
    case Date(t) => Some(Capped(Sub(t, now), cap))
  }

  method RetryAfter(h: Header, now: int, cap: int) returns (r: Option<int>)
    requires 0 < cap <= MAX_DURATION
    ensures r == Honoured(h, now, cap)
    ensures r.Some? <==> h.Seconds? || h.Date?
    ensures r.Some? ==> 0 <= r.value <= cap
  {
    var d: int;
    match h {
      case NoHeader => return None;
      case Seconds(n) => d := Wrap(n * SECOND);
      case Date(t) => d := Sub(t, now);
      case Unreadable => return None;
    }
    if d < 0 {
      d := 0;
    }
    return Some(Min(d, cap));
  }

  /** Modulo 2^64 the product falls where clamping gives the documented answer. */
  predicate LandsRight(n: int, cap: int) {
    var residue := n * SECOND % TWO_64;
    if n > 0 then cap <= residue <= MAX_DURATION else residue == 0 || residue > MAX_DURATION
  }

  /** The delay honoured is the documented one exactly when the date form is used,
      the seconds fit a Duration, or their product wraps to the right side. */
  lemma RetryAfterExactly(h: Header, now: int, cap: int)
    requires 0 < cap <= MAX_DURATION && (h.Seconds? || h.Date?)
    ensures Honoured(h, now, cap) == Some(Capped(Asked(h, now), cap))
      <==> h.Date? || IsDuration(h.n * SECOND) || LandsRight(h.n, cap)
  {
  }

  /** Asking for 9223372037 seconds, some 292 years, is answered with no delay at all. */
  lemma HugeRetryAfterIsIgnored(now: int, cap: int)
    requires 0 < cap <= MAX_DURATION
    ensures Honoured(Seconds(9223372037), now, cap) == Some(0)
    ensures Capped(Asked(Seconds(9223372037), now), cap) == cap
  {
    assert 9223372037 * SECOND % TWO_64 == 9223372037 * SECOND;
  }

  /** Send after a response arrived: the status decides, and only 429 and 503 read
      the header. */
  function Classify(status: int, h: Header, now: int, cap: int): SendResult {
    if status / 100 == 2 then Sent
    else if status / 100 == 3 then Permanent
    else if status == 429 || status == 503 then Temporary(Honoured(h, now, cap))
    else if status == 408 || status / 100 == 5 then Temporary(None)
    else Permanent
  }

  /** Another attempt is worth making exactly on 408, 429 and 5xx, and a delay is
      honoured only where it was asked for and is in range. */
  lemma RetriedStatuses(status: int, h: Header, now: int, cap: int)
    requires 100 <= status < 600 && 0 < cap <= MAX_DURATION
    ensures
      var r := Classify(status, h, now, cap);
      && (r.Temporary? <==> status == 408 || status == 429 || 500 <= status)
      && (r.Sent? <==> 200 <= status < 300)
      && (r.Temporary? && r.retryAfter.Some? <==> (status == 429 || status == 503) && (h.Seconds? || h.Date?))
      && (r.Temporary? && r.retryAfter.Some? ==> 0 <= r.retryAfter.value <= cap)
      && (status == 429 || status == 503 ==> r == Temporary(Honoured(h, now, cap)))
  {
  }
}
