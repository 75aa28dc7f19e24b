/** What to do with a failed delivery, and how often it has been tried. */
module Retry {
  import opened Types

  /** An error chain: wrapped by a later caller, or marked as one no retry can cure. */
  datatype Failure = Plain | Wrapped(cause: Failure) | Marked(cause: Failure)

  function Permanent(err: Option<Failure>): Option<Failure> {
    if err.None? then None else Some(Marked(err.value))
  }

  /** The error, or anything it wraps, was marked. */
  predicate IsPermanent(err: Failure) {
    match err
    case Plain => false
    case Wrapped(cause) => IsPermanent(cause)
    case Marked(_) => true
  }

  datatype Decision = RetryLater | DeadLetter

  function Decide(err: Failure, retryCount: int, maxRetries: int): Decision {
    if IsPermanent(err) || retryCount >= maxRetries then DeadLetter else RetryLater
  }

  // ----- the retry counter in the message headers -----

  datatype Header = Int32(n: int) | Int64(n: int) | Int(n: int) | Text(s: string)

  type Table = map<string, Header>

  const CounterHeader := "x-retry-count"

  const MaxInt32 := 0x7fff_ffff

  /** Conversion to a 32-bit integer keeps the low 32 bits. */
  function ToInt32(n: int): int {
    (n + 0x8000_0000) % 0x1_0000_0000 - 0x8000_0000
  }

  /** An absent or malformed counter reads as zero. */
  function RetryCount(headers: Table): int {
    if CounterHeader !in headers then 0
    else
      match headers[CounterHeader]
      case Int32(n) => n
      case Int64(n) => n
      case Int(n) => n
      case Text(_) => 0
  }

  function Counted(headers: Table): Table {
    headers[CounterHeader := Int32(ToInt32(RetryCount(headers) + 1))]
  }

  /** Each conversion is congruent to its argument and fits; it is the identity exactly on what fits. */
  lemma ToInt32Is(n: int)
    ensures -0x8000_0000 <= ToInt32(n) <= MaxInt32
    ensures (n - ToInt32(n)) % 0x1_0000_0000 == 0
    ensures ToInt32(n) == n <==> -0x8000_0000 <= n <= MaxInt32
  {
    var q := (n + 0x8000_0000) / 0x1_0000_0000;
    assert n - ToInt32(n) == q * 0x1_0000_0000;
  }

  lemma ToInt32AtMost(n: int)
    requires n >= -0x8000_0000
    ensures ToInt32(n) <= n
  {}

  /** However many callers wrap an error, it is permanent exactly if it was; so a marked one always is. */
  lemma {:induction false} MarkSurvivesWrapping(err: Failure, outer: Failure)
    requires Wraps(outer, err)
    ensures IsPermanent(outer) <==> IsPermanent(err)
    ensures (exists cause :: Some(err) == Permanent(Some(cause))) ==> IsPermanent(outer)
  {
    if outer != err { MarkSurvivesWrapping(err, outer.cause); }
  }

  predicate Wraps(outer: Failure, err: Failure) {
    outer == err || (outer.Wrapped? && Wraps(outer.cause, err))
  }

  /** An error is permanent exactly when something in its chain was marked. */
  ghost predicate MarkedInside(err: Failure) {
    exists inner :: InChain(inner, err) && inner.Marked?
  }

  predicate InChain(inner: Failure, err: Failure) {
    inner == err || (!err.Plain? && InChain(inner, err.cause))
  }

  lemma {:induction false} PermanentIff(err: Failure)
    ensures IsPermanent(err) <==> MarkedInside(err)
  {
    match err {
      case Plain =>
      case Marked(_) => assert InChain(err, err);
      case Wrapped(cause) =>
        PermanentIff(cause);
        if inner: Failure :| InChain(inner, err) && inner.Marked? { assert InChain(inner, cause); }
        if inner: Failure :| InChain(inner, cause) && inner.Marked? { assert InChain(inner, err); }
    }
  }

  lemma RetriesIff(err: Failure, retryCount: int, maxRetries: int)
    ensures Decide(err, retryCount, maxRetries).RetryLater? <==> !MarkedInside(err) && retryCount < maxRetries
  {
    PermanentIff(err);
  }

  /** A counter of any integer type reads as its number, and everything else as no retry yet. */
  lemma CounterReads(headers: Table, n: int)
    ensures forall h: Header :: !h.Text? && h.n == n ==> RetryCount(headers[CounterHeader := h]) == n
    ensures forall s :: RetryCount(headers[CounterHeader := Text(s)]) == 0
    ensures RetryCount(headers - {CounterHeader}) == 0
  {}

  /** Every count a retry can write reads back as written exactly when the limit fits a 32-bit integer. */
  lemma WrittenCountsReadBackIff(maxRetries: int)
    ensures (forall h: Table :: 0 <= RetryCount(h) < maxRetries ==> RetryCount(Counted(h)) == RetryCount(h) + 1)
            <==> maxRetries <= MaxInt32
  {
    forall h: Table | 0 <= RetryCount(h) < maxRetries && maxRetries <= MaxInt32
      ensures RetryCount(Counted(h)) == RetryCount(h) + 1
    {
      ToInt32Is(RetryCount(h) + 1);
    }
    if maxRetries > MaxInt32 {
      var h: Table := map[CounterHeader := Int32(MaxInt32)];
      assert RetryCount(h) == MaxInt32;
      assert RetryCount(Counted(h)) == -0x8000_0000;
    }
  }
}
