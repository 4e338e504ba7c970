/** The heartbeat's exponential backoff, in Go's wrapping int64 durations. */
module Backoff {
  import opened Integers

  /** The wait after one of b. */
  function Next(b: int, max: int): int {
    var doubled := Wrap64(2 * b);
    if doubled > max then max else doubled
  }

  function Wait(initial: int, max: int, i: nat): int {
    if i == 0 then initial else Next(Wait(initial, max, i - 1), max)
  }

  /** initial * 2^i. */
  function Scaled(initial: int, i: nat): int {
    if i == 0 then initial else 2 * Scaled(initial, i - 1)
  }

  function Min(a: int, b: int): int {
    if a < b then a else b
  }

  lemma {:induction false} ScaledGrows(initial: int, i: nat, j: nat)
    requires 0 < initial && i <= j
    ensures 0 < Scaled(initial, i) <= Scaled(initial, j)
  {
    if i < j {
      ScaledGrows(initial, i, j - 1);
    } else if i > 0 {
      ScaledGrows(initial, i - 1, i - 1);
    }
  }

  /** The least k with initial * 2^k >= max. */
  function Doublings(initial: int, max: int): (k: nat)
    requires 0 < initial
    ensures Scaled(initial, k) >= max
    ensures k > 0 ==> Scaled(initial, k - 1) < max
  {
    DoublingsFrom(initial, max, 0)
  }

  function DoublingsFrom(initial: int, max: int, i: nat): (k: nat)
    requires 0 < initial && (i > 0 ==> Scaled(initial, i - 1) < max)
    ensures Scaled(initial, k) >= max
    ensures k > 0 ==> Scaled(initial, k - 1) < max
    decreases max - Scaled(initial, i)
  {
    ScaledGrows(initial, i, i);
    if Scaled(initial, i) >= max then i else DoublingsFrom(initial, max, i + 1)
  }

  lemma {:induction false} ScheduleBeforeWrap(initial: int, max: int, i: nat)
    requires 0 < initial <= max <= MAX_INT64 && i <= Doublings(initial, max)
    requires Scaled(initial, i) <= MAX_INT64
    ensures Wait(initial, max, i) == Min(Scaled(initial, i), max)
  {
    if i > 0 {
      ScaledGrows(initial, i - 1, i);
      ScheduleBeforeWrap(initial, max, i - 1);
      ScaledGrows(initial, i - 1, Doublings(initial, max) - 1);
    }
  }

  /** The waits follow min(initial * 2^i, max) up to the cap exactly when the last doubling does not
      overflow int64; otherwise that doubling turns the duration negative. */
  lemma ScheduleIff(initial: int, max: int)
    requires 0 < initial <= max <= MAX_INT64
    ensures var k := Doublings(initial, max);
            (forall i: nat :: i <= k ==> Wait(initial, max, i) == Min(Scaled(initial, i), max)) <==>
            Scaled(initial, k) <= MAX_INT64
  {
    var k := Doublings(initial, max);
    if Scaled(initial, k) <= MAX_INT64 {
      forall i: nat | i <= k
        ensures Wait(initial, max, i) == Min(Scaled(initial, i), max)
      {
        ScaledGrows(initial, i, k);
        ScheduleBeforeWrap(initial, max, i);
      }
    } else {
      ScaledGrows(initial, k - 1, k);
      ScheduleBeforeWrap(initial, max, k - 1);
      assert Wait(initial, max, k) < 0;
    }
  }

  // ---------- the loop ----------

  /** One attempt: a token, a failure, or a failure during whose wait the daemon is stopped. */
  datatype Attempt = Token(token: nat) | Failed | Stopped

  datatype Ending = Answered(token: nat) | GaveUp | Cancelled | Waiting

  datatype Beat = Beat(waits: seq<int>, ending: Ending)

  /** The run of attempts from a current backoff of b; Waiting if they run out first. */
  function BeatFrom(b: int, max: int, attempts: seq<Attempt>): Beat
    decreases |attempts|
  {
    if |attempts| == 0 then Beat([], Waiting)
    else
      match attempts[0]
      case Token(t) => Beat([], Answered(t))
      case Stopped => Beat([b], Cancelled)
      case Failed =>
        if b >= max then Beat([b], GaveUp)
        else
          var rest := BeatFrom(Next(b, max), max, attempts[1..]);
          Beat([b] + rest.waits, rest.ending)
  }

  /** A first attempt that succeeds or is stopped ends the beat there and then. */
  lemma EndsAtOnce(b: int, max: int, attempts: seq<Attempt>)
    requires |attempts| > 0
    ensures attempts[0].Token? ==> BeatFrom(b, max, attempts) == Beat([], Answered(attempts[0].token))
    ensures attempts[0].Stopped? ==> BeatFrom(b, max, attempts) == Beat([b], Cancelled)
  {
  }

  method RunBeat(initial: int, max: int, attempts: seq<Attempt>) returns (beat: Beat)
    ensures beat == BeatFrom(initial, max, attempts)
  {
    var backoff, waits := initial, [];
    for i := 0 to |attempts|
      invariant var rest := BeatFrom(backoff, max, attempts[i..]);
                BeatFrom(initial, max, attempts) == Beat(waits + rest.waits, rest.ending)
    {
      if attempts[i].Token? {
        return Beat(waits, Answered(attempts[i].token));
      }
      waits := waits + [backoff];
      if attempts[i].Stopped? {
        return Beat(waits, Cancelled);
      }
      if backoff >= max {
        return Beat(waits, GaveUp);
      }
      assert attempts[i..][1..] == attempts[i + 1..];
      backoff := Wrap64(2 * backoff);
      if backoff > max {
        backoff := max;
      }
    }
    beat := Beat(waits, Waiting);
  }

  /** How many attempts a beat made. */
  function Tried(beat: Beat): nat {
    |beat.waits| + if beat.ending.Answered? then 1 else 0
  }

  /** A beat makes at most the attempts there are, and the token it ends with is its last attempt's. */
  lemma {:induction false} TriesWithinAttempts(b: int, max: int, attempts: seq<Attempt>)
    ensures var beat := BeatFrom(b, max, attempts);
            && Tried(beat) <= |attempts|
            && (beat.ending.Answered? ==> attempts[Tried(beat) - 1] == Token(beat.ending.token))
    decreases |attempts|
  {
    if |attempts| > 0 && attempts[0].Failed? {
      TriesWithinAttempts(Next(b, max), max, attempts[1..]);
    }
  }

  function Sum(s: seq<int>): int {
    if |s| == 0 then 0 else s[0] + Sum(s[1..])
  }

  function Waits(initial: int, max: int, n: nat): (w: seq<int>)
    ensures |w| == n && forall i :: 0 <= i < n ==> w[i] == Wait(initial, max, i)
  {
    if n == 0 then [] else Waits(initial, max, n - 1) + [Wait(initial, max, n - 1)]
  }

  predicate NoOverflow(initial: int, max: int) {
    0 < initial <= max <= MAX_INT64 && Scaled(initial, Doublings(initial, max)) <= MAX_INT64
  }

  /** Below the cap the backoff is exactly initial * 2^i. */
  lemma WaitBelowCap(initial: int, max: int, i: nat)
    requires NoOverflow(initial, max) && i < Doublings(initial, max)
    ensures Wait(initial, max, i) == Scaled(initial, i) < max
  {
    var k := Doublings(initial, max);
    ScaledGrows(initial, i, k);
    ScaledGrows(initial, i, k - 1);
    ScheduleBeforeWrap(initial, max, i);
  }

  /** n failures below the cap, and how the beat goes on from there. */
  lemma {:induction false} BeatUnrolled(initial: int, max: int, attempts: seq<Attempt>, n: nat)
    requires NoOverflow(initial, max) && n <= |attempts| && n <= Doublings(initial, max)
    requires forall i :: 0 <= i < n ==> attempts[i].Failed?
    ensures var rest := BeatFrom(Wait(initial, max, n), max, attempts[n..]);
            BeatFrom(initial, max, attempts) == Beat(Waits(initial, max, n) + rest.waits, rest.ending)
  {
    if n == 0 {
      assert attempts[0..] == attempts;
    } else {
      BeatUnrolled(initial, max, attempts, n - 1);
      WaitBelowCap(initial, max, n - 1);
      BeatOnce(initial, max, attempts, n - 1);
      Reassociate(Waits(initial, max, n - 1), Wait(initial, max, n - 1),
                  BeatFrom(Wait(initial, max, n), max, attempts[n..]).waits);
    }
  }

  lemma Reassociate(s: seq<int>, x: int, t: seq<int>)
    ensures s + ([x] + t) == s + [x] + t
  {
  }

  lemma BeatOnce(initial: int, max: int, attempts: seq<Attempt>, n: nat)
    requires Wait(initial, max, n) < max && n < |attempts| && attempts[n].Failed?
    ensures var rest := BeatFrom(Wait(initial, max, n + 1), max, attempts[n + 1..]);
            BeatFrom(Wait(initial, max, n), max, attempts[n..]) ==
            Beat([Wait(initial, max, n)] + rest.waits, rest.ending)
  {
    assert attempts[n..][1..] == attempts[n + 1..];
  }

  lemma {:induction false} WaitsSum(initial: int, max: int, n: nat)
    requires NoOverflow(initial, max) && n <= Doublings(initial, max)
    ensures Sum(Waits(initial, max, n)) == Scaled(initial, n) - initial
  {
    if n > 0 {
      WaitsSum(initial, max, n - 1);
      WaitBelowCap(initial, max, n - 1);
      SumAppend(Waits(initial, max, n - 1), Wait(initial, max, n - 1));
    }
  }

  lemma {:induction false} SumAppend(s: seq<int>, x: int)
    ensures Sum(s + [x]) == Sum(s) + x
  {
    if |s| > 0 {
      SumAppend(s[1..], x);
      assert (s + [x])[1..] == s[1..] + [x];
    }
  }

  /** The heartbeat gives up exactly when k + 1 attempts in a row fail uncancelled. */
  lemma GivesUpIff(initial: int, max: int, attempts: seq<Attempt>)
    requires NoOverflow(initial, max)
    ensures var k := Doublings(initial, max);
            BeatFrom(initial, max, attempts).ending == GaveUp <==>
            |attempts| > k && forall i :: 0 <= i <= k ==> attempts[i].Failed?
  {
    var k := Doublings(initial, max);
    var n := FirstNonFailure(attempts);
    ScheduleIff(initial, max);
    if n >= k {
      BeatUnrolled(initial, max, attempts, k);
    } else {
      BeatUnrolled(initial, max, attempts, n);
    }
  }

  function FirstNonFailure(attempts: seq<Attempt>): (n: nat)
    ensures n <= |attempts| && (n < |attempts| ==> !attempts[n].Failed?)
    ensures forall i :: 0 <= i < n ==> attempts[i].Failed?
  {
    if |attempts| == 0 || !attempts[0].Failed? then 0 else 1 + FirstNonFailure(attempts[1..])
  }

  /** What every beat comes to: failures each cost their wait, until a token or a stop ends it, or the
      failure at the cap does, or the attempts run out. */
  lemma BeatIs(initial: int, max: int, attempts: seq<Attempt>)
    requires NoOverflow(initial, max)
    ensures var n, k := FirstNonFailure(attempts), Doublings(initial, max);
            BeatFrom(initial, max, attempts) ==
            if n > k then Beat(Waits(initial, max, k + 1), GaveUp)
            else if n == |attempts| then Beat(Waits(initial, max, n), Waiting)
            else if attempts[n].Token? then Beat(Waits(initial, max, n), Answered(attempts[n].token))
            else Beat(Waits(initial, max, n + 1), Cancelled)
  {
    var n, k := FirstNonFailure(attempts), Doublings(initial, max);
    var m := if n > k then k else n;
    BeatUnrolled(initial, max, attempts, m);
    var rest := BeatFrom(Wait(initial, max, m), max, attempts[m..]);
    if n > k {
      ScheduleIff(initial, max);
      assert attempts[k..][0] == attempts[k];
      assert rest == Beat([Wait(initial, max, k)], GaveUp);
    } else if n < |attempts| {
      assert attempts[n..][0] == attempts[n];
    }
  }

  /** Attempt i is reached, that is, the failures before it are too few to give up after. */
  predicate Reaches(initial: int, max: int, attempts: seq<Attempt>, i: nat)
    requires 0 < initial
  {
    i < |attempts| && i <= Doublings(initial, max) && forall j :: 0 <= j < i ==> attempts[j].Failed?
  }

  /** A beat is answered exactly by the token of an attempt it reaches. */
  lemma AnswersIff(initial: int, max: int, attempts: seq<Attempt>, token: nat)
    requires NoOverflow(initial, max)
    ensures BeatFrom(initial, max, attempts).ending == Answered(token) <==>
            exists i: nat :: Reaches(initial, max, attempts, i) && attempts[i] == Token(token)
  {
    BeatIs(initial, max, attempts);
    var n := FirstNonFailure(attempts);
    forall i: nat | Reaches(initial, max, attempts, i) && attempts[i].Token?
      ensures i == n
    {
    }
    if BeatFrom(initial, max, attempts).ending == Answered(token) {
      assert Reaches(initial, max, attempts, n) && attempts[n] == Token(token);
    }
  }

  /** And cancelled exactly by a stop during the wait after an attempt it reaches. */
  lemma CancelledIff(initial: int, max: int, attempts: seq<Attempt>)
    requires NoOverflow(initial, max)
    ensures BeatFrom(initial, max, attempts).ending == Cancelled <==>
            exists i: nat :: Reaches(initial, max, attempts, i) && attempts[i] == Stopped
  {
    BeatIs(initial, max, attempts);
    var n := FirstNonFailure(attempts);
    forall i: nat | Reaches(initial, max, attempts, i) && attempts[i].Stopped?
      ensures i == n
    {
    }
    if BeatFrom(initial, max, attempts).ending == Cancelled {
      assert Reaches(initial, max, attempts, n) && attempts[n] == Stopped;
    }
  }

  /** Every attempt up to and including the one at the cap fails. */
  predicate FailsThrough(initial: int, max: int, attempts: seq<Attempt>)
    requires 0 < initial
  {
    |attempts| > Doublings(initial, max) && forall i :: 0 <= i <= Doublings(initial, max) ==> attempts[i].Failed?
  }

  /** How a beat ends, read off its attempts alone. */
  lemma EndingIs(initial: int, max: int, attempts: seq<Attempt>)
    requires NoOverflow(initial, max)
    ensures var ending := BeatFrom(initial, max, attempts).ending;
            && (forall i: nat :: Reaches(initial, max, attempts, i) && attempts[i].Token? ==>
                  ending == Answered(attempts[i].token))
            && (ending.Answered? ==> exists i: nat :: Reaches(initial, max, attempts, i) && attempts[i].Token?)
            && (ending.GaveUp? <==> FailsThrough(initial, max, attempts))
  {
    var ending := BeatFrom(initial, max, attempts).ending;
    forall i: nat | Reaches(initial, max, attempts, i) && attempts[i].Token?
      ensures ending == Answered(attempts[i].token)
    {
      AnswersIff(initial, max, attempts, attempts[i].token);
    }
    if ending.Answered? {
      AnswersIff(initial, max, attempts, ending.token);
    }
    GivesUpIff(initial, max, attempts);
  }

  /** When it gives up it has waited min(initial * 2^i, max) for i = 0..k, in all
      initial * (2^k - 1) + max, which is less than three times the cap. */
  lemma GiveUpCost(initial: int, max: int, attempts: seq<Attempt>)
    requires NoOverflow(initial, max) && BeatFrom(initial, max, attempts).ending == GaveUp
    ensures var k := Doublings(initial, max);
            var waits := BeatFrom(initial, max, attempts).waits;
            && |waits| == k + 1
            && (forall i :: 0 <= i <= k ==> waits[i] == Min(Scaled(initial, i), max))
            && Sum(waits) == Scaled(initial, k) - initial + max < 3 * max
  {
    GivesUpIff(initial, max, attempts);
    ScheduleIff(initial, max);
    var k := Doublings(initial, max);
    BeatUnrolled(initial, max, attempts, k);
    WaitsSum(initial, max, k);
    SumAppend(Waits(initial, max, k), Wait(initial, max, k));
    assert attempts[k..][0] == attempts[k];
  }

  const DEFAULT_INITIAL: int := 1_000_000_000
  const DEFAULT_MAX: int := 128_000_000_000

  /** The defaults are the only settings the daemon uses; their schedule does not overflow. */
  lemma DefaultsDoNotOverflow()
    ensures NoOverflow(DEFAULT_INITIAL, DEFAULT_MAX) && Doublings(DEFAULT_INITIAL, DEFAULT_MAX) == 7
  {
    assert Scaled(DEFAULT_INITIAL, 3) == 8_000_000_000;
    assert Scaled(DEFAULT_INITIAL, 6) == 64_000_000_000;
  }

  /** With the defaults: eight failures, 255 seconds. */
  lemma DefaultsGiveUpAfter255Seconds(attempts: seq<Attempt>)
    requires BeatFrom(DEFAULT_INITIAL, DEFAULT_MAX, attempts).ending == GaveUp
    ensures |BeatFrom(DEFAULT_INITIAL, DEFAULT_MAX, attempts).waits| == 8
    ensures Sum(BeatFrom(DEFAULT_INITIAL, DEFAULT_MAX, attempts).waits) == 255_000_000_000
  {
    DefaultsDoNotOverflow();
    GiveUpCost(DEFAULT_INITIAL, DEFAULT_MAX, attempts);
  }
}
