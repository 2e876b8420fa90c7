/** The windowed limiter of src/cueflow/auth.py: one bucket per key, with doubling cooldowns. */
module RateLimit {
  import opened Outcomes

  datatype Bucket = Bucket(windowStart: int, attempts: int, cooldownUntil: int)

  /** The bucket after an attempt, and the seconds to wait; 0 means that the attempt is admitted. */
  datatype Verdict = Verdict(bucket: Bucket, retry: int)

  function Pow2(n: nat): (r: nat)
    ensures r >= 1
  {
    if n == 0 then 1 else 2 * Pow2(n - 1)
  }

  /** `max(1, math.ceil(ms / 1000))` */
  function Seconds(ms: int): int {
    Max(1, (ms + 999) / 1000)
  }

  predicate Elapsed(b: Bucket, window: int, now: int) {
    now - b.windowStart >= window
  }

  function CooldownSeconds(attempts: int, limit: int): int
    requires attempts > limit
  {
    Min(30 * Pow2(attempts - limit - 1), 15 * 60)
  }

  /** _consume_rate_limit_tx */
  function Consume(row: Option<Bucket>, limit: int, window: int, now: int): (v: Verdict)
    ensures v.retry >= 0
  {
    if row.None? || Elapsed(row.value, window, now) then Verdict(Bucket(now, 1, 0), 0)
    else
      var b := row.value;
      if now < b.cooldownUntil then Verdict(b, Seconds(b.cooldownUntil - now))
      else
        var attempts := b.attempts + 1;
        var cooldownUntil := if attempts > limit then now + CooldownSeconds(attempts, limit) * 1000 else 0;
        Verdict(b.(attempts := attempts, cooldownUntil := cooldownUntil),
                if cooldownUntil != 0 then Seconds(cooldownUntil - now) else 0)
  }

  /** _check_rate_limit_tx: the seconds to wait, without counting the attempt. */
  function Check(row: Option<Bucket>, limit: int, window: int, now: int): int {
    if row.None? then 0
    else if now < row.value.cooldownUntil then Seconds(row.value.cooldownUntil - now)
    else if !Elapsed(row.value, window, now) && row.value.attempts >= limit then 30
    else 0
  }

  // ----- one bucket over a run of attempts -----

  /** Epoch milliseconds of attempts, in order. */
  predicate Clock(times: seq<int>) {
    && (forall i :: 0 <= i < |times| ==> 0 <= times[i])
    && (forall i, j :: 0 <= i < j < |times| ==> times[i] <= times[j])
  }

  /** The row after the attempts at `times`; before the first there is none. */
  function Played(limit: int, window: int, times: seq<int>): (row: Option<Bucket>)
    ensures row.None? <==> times == []
  {
    if times == [] then None
    else
      var n := |times| - 1;
      Some(Consume(Played(limit, window, times[..n]), limit, window, times[n]).bucket)
  }

  /** What the last attempt was told. */
  function LastRetry(limit: int, window: int, times: seq<int>): int
    requires times != []
  {
    var n := |times| - 1;
    Consume(Played(limit, window, times[..n]), limit, window, times[n]).retry
  }

  /** Admitted attempts at instants in the half-open span. */
  function Admitted(limit: int, window: int, times: seq<int>, from: int, to: int): nat {
    if times == [] then 0
    else
      var n := |times| - 1;
      Admitted(limit, window, times[..n], from, to)
      + if LastRetry(limit, window, times) == 0 && from <= times[n] < to then 1 else 0
  }

  /** Admitted attempts that were counted in the window that starts at `start`. */
  function AdmittedInWindow(limit: int, window: int, times: seq<int>, start: int): nat {
    if times == [] then 0
    else
      AdmittedInWindow(limit, window, times[..|times| - 1], start)
      + if LastRetry(limit, window, times) == 0 && Played(limit, window, times).value.windowStart == start then 1 else 0
  }

  /** A row that attempts up to `last` can leave behind. */
  predicate Plausible(b: Bucket, limit: int, last: int) {
    && 0 <= b.windowStart <= last
    && b.attempts >= 1
    && b.cooldownUntil <= last + 900 * 1000
    && (b.cooldownUntil > 0 ==> b.attempts > limit)
  }

  lemma {:induction false} PlayedIsPlausible(limit: int, window: int, times: seq<int>)
    requires limit >= 1 && Clock(times) && times != []
    ensures Plausible(Played(limit, window, times).value, limit, times[|times| - 1])
    decreases |times|
  {
    var n := |times| - 1;
    if n > 0 {
      PlayedIsPlausible(limit, window, times[..n]);
    }
  }

  /** Every wait is at least one second and at most fifteen minutes. */
  lemma {:induction false} WaitsAreBounded(limit: int, window: int, times: seq<int>)
    requires limit >= 1 && Clock(times) && times != []
    ensures LastRetry(limit, window, times) == 0 || 1 <= LastRetry(limit, window, times) <= 900
    ensures var row := Played(limit, window, times[..|times| - 1]);
            var wait := Check(row, limit, window, times[|times| - 1]);
            wait == 0 || 1 <= wait <= 900
  {
    var n := |times| - 1;
    if n > 0 {
      PlayedIsPlausible(limit, window, times[..n]);
    }
  }

  // ----- admissions per window and per span -----

  /** A window admits exactly its first `limit` counted attempts. */
  lemma {:induction false} WindowBound(limit: int, window: int, times: seq<int>, start: int)
    requires limit >= 1 && window >= 1 && Clock(times)
    ensures AdmittedInWindow(limit, window, times, start) <= limit
    ensures times != [] ==>
              var b := Played(limit, window, times).value;
              && (b.windowStart == start ==> AdmittedInWindow(limit, window, times, start) == Min(b.attempts, limit))
              && (b.windowStart < start ==> AdmittedInWindow(limit, window, times, start) == 0)
    decreases |times|
  {
    if times != [] {
      var n := |times| - 1;
      WindowBound(limit, window, times[..n], start);
      if n > 0 {
        PlayedIsPlausible(limit, window, times[..n]);
      }
    }
  }

  /** What the current window still leaves of a span that starts at `from` and is one window long. */
  ghost predicate SpanRoom(b: Bucket, admitted: nat, last: int, limit: int, window: int, from: int) {
    && (last < from ==> admitted == 0)
    && (if b.windowStart < from then admitted <= Min(b.attempts, limit) - 1
        else if b.windowStart < from + window then admitted <= limit - 1 + Min(b.attempts, limit)
        else admitted <= 2 * limit - 1)
  }

  lemma {:induction false} SpanStep(
    row: Option<Bucket>, admitted: nat, last: int, limit: int, window: int, from: int, now: int)
    requires limit >= 1 && window >= 1 && 0 <= now
    requires row.None? ==> admitted == 0
    requires row.Some? ==> last <= now && Plausible(row.value, limit, last)
    requires row.Some? ==> SpanRoom(row.value, admitted, last, limit, window, from)
    ensures var v := Consume(row, limit, window, now);
            SpanRoom(v.bucket, admitted + (if v.retry == 0 && from <= now < from + window then 1 else 0),
                     now, limit, window, from)
  {
  }

  lemma {:induction false} SpanRoomOf(limit: int, window: int, times: seq<int>, from: int)
    requires limit >= 1 && window >= 1 && Clock(times) && times != []
    ensures SpanRoom(Played(limit, window, times).value, Admitted(limit, window, times, from, from + window),
                     times[|times| - 1], limit, window, from)
    decreases |times|
  {
    var n := |times| - 1;
    if n > 0 {
      SpanRoomOf(limit, window, times[..n], from);
      PlayedIsPlausible(limit, window, times[..n]);
    }
    SpanStep(Played(limit, window, times[..n]), Admitted(limit, window, times[..n], from, from + window),
             if n > 0 then times[n - 1] else 0, limit, window, from, times[n]);
  }

  /** A span of one window length admits at most 2 * limit - 1 attempts: one fewer than two full windows. */
  lemma {:induction false} SpanBound(limit: int, window: int, times: seq<int>, from: int)
    requires limit >= 1 && window >= 1 && Clock(times)
    ensures Admitted(limit, window, times, from, from + window) <= 2 * limit - 1
  {
    if times != [] {
      SpanRoomOf(limit, window, times, from);
    }
  }

  // ----- the bound is reached -----

  function Times(n: nat, at: int): seq<int> {
    seq(n, _ => at)
  }

  lemma {:induction false} OneMore(limit: int, window: int, times: seq<int>, now: int, from: int, to: int)
    ensures var v := Consume(Played(limit, window, times), limit, window, now);
            && Played(limit, window, times + [now]) == Some(v.bucket)
            && Admitted(limit, window, times + [now], from, to)
               == Admitted(limit, window, times, from, to) + (if v.retry == 0 && from <= now < to then 1 else 0)
  {
    assert (times + [now])[..|times|] == times;
  }

  lemma {:induction false} BurstInWindow(limit: int, window: int, times: seq<int>, n: nat, at: int, from: int)
    requires limit >= 1 && times != []
    requires var b := Played(limit, window, times).value;
             !Elapsed(b, window, at) && b.cooldownUntil == 0 && b.attempts + n <= limit
    requires 0 <= from <= at < from + window
    ensures var b := Played(limit, window, times).value;
            Played(limit, window, times + Times(n, at)) == Some(b.(attempts := b.attempts + n))
    ensures Admitted(limit, window, times + Times(n, at), from, from + window)
         == Admitted(limit, window, times, from, from + window) + n
    decreases n
  {
    hide Played, Admitted;
    if n == 0 {
      assert times + Times(0, at) == times;
    } else {
      var fewer := times + Times(n - 1, at);
      BurstInWindow(limit, window, times, n - 1, at, from);
      OneMore(limit, window, fewer, at, from, from + window);
      assert times + Times(n, at) == fewer + [at];
    }
  }

  /** The end of one window and the start of the next. */
  function FullSpan(limit: int, window: int): seq<int>
    requires limit >= 1
  {
    [0] + Times(limit - 1, window - 1) + [window] + Times(limit - 1, window)
  }

  lemma {:induction false} FirstWindowFills(limit: int, window: int)
    requires limit >= 1 && window >= 2
    ensures var times := [0] + Times(limit - 1, window - 1);
            && Played(limit, window, times) == Some(Bucket(0, limit, 0))
            && Admitted(limit, window, times, window - 1, window - 1 + window) == limit - 1
  {
    assert Played(limit, window, []) == None;
    OneMore(limit, window, [], 0, window - 1, window - 1 + window);
    assert [] + [0] == [0];
    BurstInWindow(limit, window, [0], limit - 1, window - 1, window - 1);
  }

  lemma {:induction false} FullSpanIsClocked(limit: int, window: int)
    requires limit >= 1 && window >= 2
    ensures Clock(FullSpan(limit, window))
  {
    var times := FullSpan(limit, window);
    forall i | 0 <= i < |times|
      ensures times[i] == if i == 0 then 0 else if i < limit then window - 1 else window
    {
    }
  }

  lemma {:induction false} SecondWindowFills(limit: int, window: int)
    requires limit >= 1 && window >= 2
    ensures var times := [0] + Times(limit - 1, window - 1) + [window];
            && Played(limit, window, times) == Some(Bucket(window, 1, 0))
            && Admitted(limit, window, times, window - 1, window - 1 + window) == limit
  {
    FirstWindowFills(limit, window);
    OneMore(limit, window, [0] + Times(limit - 1, window - 1), window, window - 1, window - 1 + window);
  }

  /** For every limit there are attempts that fill a span up to the bound. */
  lemma {:induction false} SpanBoundIsReached(limit: int, window: int)
    requires limit >= 1 && window >= 2
    ensures Clock(FullSpan(limit, window))
    ensures Admitted(limit, window, FullSpan(limit, window), window - 1, window - 1 + window) == 2 * limit - 1
  {
    FullSpanIsClocked(limit, window);
    SecondWindowFills(limit, window);
    BurstInWindow(limit, window, [0] + Times(limit - 1, window - 1) + [window], limit - 1, window, window - 1);
  }

  // ----- cooldowns -----

  /** Whole seconds: after this wait the instant is reached, and after one second less it is not. */
  ghost predicate WaitIsExact(wait: int, now: int, until: int) {
    until <= now + wait * 1000 && (wait == 1 || now + (wait - 1) * 1000 < until)
  }

  /** The n-th refusal of a window waits 30 seconds doubled n times, up to fifteen minutes. */
  lemma {:induction false} CooldownsDouble(b: Bucket, limit: int, window: int, now: int, later: int)
    requires b.attempts >= limit >= 1 && b.cooldownUntil <= now && 0 <= now <= later
    requires !Elapsed(b, window, later)
    ensures var first := Consume(Some(b), limit, window, now);
            var second := Consume(Some(first.bucket), limit, window, later);
            && first.retry == Min(30 * Pow2(b.attempts - limit), 900)
            && (later < first.bucket.cooldownUntil ==>
                second.bucket == first.bucket && 1 <= second.retry <= first.retry
                && WaitIsExact(second.retry, later, first.bucket.cooldownUntil))
            && (first.bucket.cooldownUntil <= later ==> second.retry == Min(2 * first.retry, 900))
  {
    assert Pow2(b.attempts + 1 - limit) == 2 * Pow2(b.attempts - limit);
  }

  /** The check before a password attempt lets pass what would be admitted, unless a cooldown outlives its window. */
  lemma {:induction false} CheckAgrees(limit: int, window: int, times: seq<int>, now: int)
    requires limit >= 1 && Clock(times + [now]) && times != []
    ensures var row := Played(limit, window, times);
            Check(row, limit, window, now) == 0 <==>
            Consume(row, limit, window, now).retry == 0
            && !(Elapsed(row.value, window, now) && now < row.value.cooldownUntil)
    ensures var row := Played(limit, window, times);
            var wait := Check(row, limit, window, now);
            wait != 0 ==> if now < row.value.cooldownUntil then WaitIsExact(wait, now, row.value.cooldownUntil)
                          else wait == 30
  {
    assert forall i :: 0 <= i < |times| ==> times[i] == (times + [now])[i];
    assert (times + [now])[|times|] == now;
    PlayedIsPlausible(limit, window, times);
  }

  // ----- all the buckets -----

  datatype Kind = Phone | Client | Ip

  datatype SmsPurpose = PhoneContinue | PasswordReset | PhoneChange | AccountErasure | PhoneAppeal

  /** `sms:` and the purpose of the code, or the name of another kind of attempt. */
  datatype Purpose = Sms(purpose: SmsPurpose) | Other(name: string)

  /** Bucket kind and purpose; `digest` stands for the key id together with the keyed digest under it. */
  datatype Key = Key(kind: Kind, digest: string, purpose: Purpose)

  datatype Policy = Policy(phoneLimit: int, clientLimit: int, ipLimit: int, window: int) {
    function Limit(kind: Kind): int {
      match kind
      case Phone => phoneLimit
      case Client => clientLimit
      case Ip => ipLimit
    }

    predicate Ok() {
      phoneLimit >= 1 && clientLimit >= 1 && ipLimit >= 1 && window >= 1
    }
  }

  datatype CodeRequest = CodeRequest(phone: string, client: string, ip: string, purpose: SmsPurpose, now: int) {
    function Keys(): seq<Key> {
      [Key(Phone, phone, Sms(purpose)), Key(Client, client, Sms(purpose)), Key(Ip, ip, Sms(purpose))]
    }

    function Digest(kind: Kind): string {
      match kind
      case Phone => phone
      case Client => client
      case Ip => ip
    }
  }

  type Buckets = map<Key, Bucket>

  function RowOf(buckets: Buckets, key: Key): Option<Bucket> {
    if key in buckets then Some(buckets[key]) else None
  }

  function ConsumeAt(buckets: Buckets, policy: Policy, key: Key, now: int): Verdict {
    Consume(RowOf(buckets, key), policy.Limit(key.kind), policy.window, now)
  }

  /** The three consumptions of one code request; it is admitted when all three are. */
  function RequestCode(buckets: Buckets, policy: Policy, r: CodeRequest): (Buckets, int) {
    var keys := r.Keys();
    var p := ConsumeAt(buckets, policy, keys[0], r.now);
    var c := ConsumeAt(buckets, policy, keys[1], r.now);
    var i := ConsumeAt(buckets, policy, keys[2], r.now);
    (buckets[keys[0] := p.bucket][keys[1] := c.bucket][keys[2] := i.bucket], Max(Max(p.retry, c.retry), i.retry))
  }

  function BucketsAfter(policy: Policy, requests: seq<CodeRequest>): Buckets {
    if requests == [] then map[]
    else
      var n := |requests| - 1;
      RequestCode(BucketsAfter(policy, requests[..n]), policy, requests[n]).0
  }

  function LastAnswer(policy: Policy, requests: seq<CodeRequest>): int
    requires requests != []
  {
    var n := |requests| - 1;
    RequestCode(BucketsAfter(policy, requests[..n]), policy, requests[n]).1
  }

  /** Code requests under `key` that were admitted in the span. */
  function AdmittedRequests(policy: Policy, requests: seq<CodeRequest>, key: Key, from: int, to: int): nat {
    if requests == [] then 0
    else
      var n := |requests| - 1;
      AdmittedRequests(policy, requests[..n], key, from, to)
      + if LastAnswer(policy, requests) == 0 && key in requests[n].Keys() && from <= requests[n].now < to then 1
        else 0
  }

  function TimesUnder(requests: seq<CodeRequest>, key: Key): seq<int> {
    if requests == [] then []
    else
      var n := |requests| - 1;
      TimesUnder(requests[..n], key) + if key in requests[n].Keys() then [requests[n].now] else []
  }

  predicate RequestClock(requests: seq<CodeRequest>) {
    && (forall i :: 0 <= i < |requests| ==> 0 <= requests[i].now)
    && (forall i, j :: 0 <= i < j < |requests| ==> requests[i].now <= requests[j].now)
  }

  lemma {:induction false} TimesAreClocked(requests: seq<CodeRequest>, key: Key)
    requires RequestClock(requests)
    ensures Clock(TimesUnder(requests, key))
    ensures forall i :: 0 <= i < |TimesUnder(requests, key)| ==>
              TimesUnder(requests, key)[i] <= requests[|requests| - 1].now
    decreases |requests|
  {
    if requests != [] {
      TimesAreClocked(requests[..|requests| - 1], key);
    }
  }

  lemma {:induction false} RequestTouches(buckets: Buckets, policy: Policy, r: CodeRequest, key: Key)
    ensures RowOf(RequestCode(buckets, policy, r).0, key)
         == if key in r.Keys() then Some(ConsumeAt(buckets, policy, key, r.now).bucket) else RowOf(buckets, key)
  {
  }

  /** Each bucket sees exactly the requests under its key, whatever the other buckets decide. */
  lemma {:induction false} BucketsAreIndependent(policy: Policy, requests: seq<CodeRequest>, key: Key)
    ensures RowOf(BucketsAfter(policy, requests), key)
         == Played(policy.Limit(key.kind), policy.window, TimesUnder(requests, key))
    decreases |requests|
  {
    if requests != [] {
      var n := |requests| - 1;
      var r, times := requests[n], TimesUnder(requests[..n], key);
      BucketsAreIndependent(policy, requests[..n], key);
      RequestTouches(BucketsAfter(policy, requests[..n]), policy, r, key);
      if key in r.Keys() {
        OneMore(policy.Limit(key.kind), policy.window, times, r.now, 0, 0);
      } else {
        assert times + [] == times;
      }
    }
  }

  lemma {:induction false} AnswerCoversTheBucket(policy: Policy, buckets: Buckets, r: CodeRequest, key: Key)
    requires key in r.Keys() && RequestCode(buckets, policy, r).1 == 0
    ensures ConsumeAt(buckets, policy, key, r.now).retry == 0
  {
  }

  lemma {:induction false} BucketAnswers(policy: Policy, requests: seq<CodeRequest>, key: Key)
    requires requests != [] && key in requests[|requests| - 1].Keys()
    ensures TimesUnder(requests, key) != []
    ensures LastRetry(policy.Limit(key.kind), policy.window, TimesUnder(requests, key))
         == ConsumeAt(BucketsAfter(policy, requests[..|requests| - 1]), policy, key, requests[|requests| - 1].now).retry
  {
    var n := |requests| - 1;
    var times := TimesUnder(requests[..n], key);
    BucketsAreIndependent(policy, requests[..n], key);
    assert TimesUnder(requests, key) == times + [requests[n].now];
    assert (times + [requests[n].now])[..|times|] == times;
  }

  /** A code request is told the longest of the waits of its phone, its client, and its address. */
  lemma {:induction false} LongestWaitAnswers(policy: Policy, requests: seq<CodeRequest>)
    requires requests != []
    ensures var keys := requests[|requests| - 1].Keys();
            && (forall key :: key in keys ==>
                  TimesUnder(requests, key) != []
                  && LastRetry(policy.Limit(key.kind), policy.window, TimesUnder(requests, key))
                     <= LastAnswer(policy, requests))
            && (exists key :: key in keys && TimesUnder(requests, key) != []
                  && LastRetry(policy.Limit(key.kind), policy.window, TimesUnder(requests, key))
                     == LastAnswer(policy, requests))
  {
    hide TimesUnder, LastRetry, Consume, BucketsAfter;
    var keys := requests[|requests| - 1].Keys();
    forall key | key in keys
      ensures TimesUnder(requests, key) != []
      ensures LastRetry(policy.Limit(key.kind), policy.window, TimesUnder(requests, key))
           <= LastAnswer(policy, requests)
    {
      BucketAnswers(policy, requests, key);
    }
    BucketAnswers(policy, requests, keys[0]);
    BucketAnswers(policy, requests, keys[1]);
    BucketAnswers(policy, requests, keys[2]);
  }

  lemma {:induction false} AdmittedByTheBucket(policy: Policy, requests: seq<CodeRequest>, key: Key, from: int, to: int)
    ensures AdmittedRequests(policy, requests, key, from, to)
         <= Admitted(policy.Limit(key.kind), policy.window, TimesUnder(requests, key), from, to)
    decreases |requests|
  {
    if requests != [] {
      var n := |requests| - 1;
      var r, times := requests[n], TimesUnder(requests[..n], key);
      AdmittedByTheBucket(policy, requests[..n], key, from, to);
      if key in r.Keys() {
        BucketsAreIndependent(policy, requests[..n], key);
        OneMore(policy.Limit(key.kind), policy.window, times, r.now, from, to);
        if LastAnswer(policy, requests) == 0 {
          AnswerCoversTheBucket(policy, BucketsAfter(policy, requests[..n]), r, key);
        }
      } else {
        assert times + [] == times;
      }
    }
  }

  /**
   * In any span of one window, at most 2 * limit - 1 codes are sent for one phone, client, or address
   * and one purpose.
   */
  lemma {:induction false} CodesPerSpan(policy: Policy, requests: seq<CodeRequest>, key: Key, from: int)
    requires policy.Ok() && RequestClock(requests)
    ensures AdmittedRequests(policy, requests, key, from, from + policy.window) <= 2 * policy.Limit(key.kind) - 1
  {
    hide Played, Admitted, AdmittedRequests, TimesUnder, Clock, RequestClock;
    AdmittedByTheBucket(policy, requests, key, from, from + policy.window);
    TimesAreClocked(requests, key);
    var limit, times := policy.Limit(key.kind), TimesUnder(requests, key);
    assert limit >= 1;
    SpanBound(limit, policy.window, times, from);
  }

  /** Admitted code requests of one phone, client, or address, whatever their purpose. */
  function AdmittedFor(
    policy: Policy, requests: seq<CodeRequest>, kind: Kind, digest: string, from: int, to: int): nat
  {
    if requests == [] then 0
    else
      var n := |requests| - 1;
      AdmittedFor(policy, requests[..n], kind, digest, from, to)
      + if LastAnswer(policy, requests) == 0 && requests[n].Digest(kind) == digest && from <= requests[n].now < to
        then 1 else 0
  }

  function UnderPurpose(
    policy: Policy, requests: seq<CodeRequest>, kind: Kind, digest: string, purpose: SmsPurpose,
    from: int, to: int): nat
  {
    AdmittedRequests(policy, requests, Key(kind, digest, Sms(purpose)), from, to)
  }

  /** Every admitted request is for one of the five purposes. */
  lemma {:induction false} PurposesAddUp(
    policy: Policy, requests: seq<CodeRequest>, kind: Kind, digest: string, from: int, to: int)
    ensures AdmittedFor(policy, requests, kind, digest, from, to)
         == UnderPurpose(policy, requests, kind, digest, PhoneContinue, from, to)
            + UnderPurpose(policy, requests, kind, digest, PasswordReset, from, to)
            + UnderPurpose(policy, requests, kind, digest, PhoneChange, from, to)
            + UnderPurpose(policy, requests, kind, digest, AccountErasure, from, to)
            + UnderPurpose(policy, requests, kind, digest, PhoneAppeal, from, to)
    decreases |requests|
  {
    hide LastAnswer;
    if requests != [] {
      var n := |requests| - 1;
      PurposesAddUp(policy, requests[..n], kind, digest, from, to);
      forall purpose
        ensures Key(kind, digest, Sms(purpose)) in requests[n].Keys()
                <==> requests[n].purpose == purpose && requests[n].Digest(kind) == digest
      {
        KeyOfPurpose(requests[n], kind, digest, purpose);
      }
    }
  }

  lemma {:induction false} KeyOfPurpose(r: CodeRequest, kind: Kind, digest: string, purpose: SmsPurpose)
    ensures Key(kind, digest, Sms(purpose)) in r.Keys() <==> r.purpose == purpose && r.Digest(kind) == digest
  {
    var keys := r.Keys();
    assert keys[0] in keys && keys[1] in keys && keys[2] in keys;
  }

  /** Over all purposes, at most five times as many codes are sent for one phone, client, or address in such a span. */
  lemma {:induction false} AllCodesPerSpan(
    policy: Policy, requests: seq<CodeRequest>, kind: Kind, digest: string, from: int)
    requires policy.Ok() && RequestClock(requests)
    ensures AdmittedFor(policy, requests, kind, digest, from, from + policy.window) <= 5 * (2 * policy.Limit(kind) - 1)
  {
    hide AdmittedFor, AdmittedRequests, RequestClock;
    PurposesAddUp(policy, requests, kind, digest, from, from + policy.window);
    CodesPerSpan(policy, requests, Key(kind, digest, Sms(PhoneContinue)), from);
    CodesPerSpan(policy, requests, Key(kind, digest, Sms(PasswordReset)), from);
    CodesPerSpan(policy, requests, Key(kind, digest, Sms(PhoneChange)), from);
    CodesPerSpan(policy, requests, Key(kind, digest, Sms(AccountErasure)), from);
    CodesPerSpan(policy, requests, Key(kind, digest, Sms(PhoneAppeal)), from);
  }

  /** The limit of the phone, of the client, and of the address bounds each of them. */
  lemma {:induction false} EachHasItsLimit(policy: Policy, requests: seq<CodeRequest>, digest: string, from: int)
    requires policy.Ok() && RequestClock(requests)
    ensures var to := from + policy.window;
            && AdmittedFor(policy, requests, Phone, digest, from, to) <= 10 * policy.phoneLimit - 5
            && AdmittedFor(policy, requests, Client, digest, from, to) <= 10 * policy.clientLimit - 5
            && AdmittedFor(policy, requests, Ip, digest, from, to) <= 10 * policy.ipLimit - 5
  {
    hide AdmittedFor, RequestClock;
    AllCodesPerSpan(policy, requests, Phone, digest, from);
    AllCodesPerSpan(policy, requests, Client, digest, from);
    AllCodesPerSpan(policy, requests, Ip, digest, from);
  }

  // ----- the table -----

  class Limiter {
    var buckets: Buckets

    constructor ()
      ensures buckets == map[]
    {
      buckets := map[];
    }

    method ConsumeRateLimitTx(key: Key, limit: int, window: int, now: int) returns (retry: int)
      modifies this
      ensures var v := Consume(RowOf(old(buckets), key), limit, window, now);
              buckets == old(buckets)[key := v.bucket] && retry == v.retry
    {
      if key !in buckets || now - buckets[key].windowStart >= window {
        buckets := buckets[key := Bucket(now, 1, 0)];
        return 0;
      }
      var row := buckets[key];
      if now < row.cooldownUntil {
        assert buckets == buckets[key := row];
        return Seconds(row.cooldownUntil - now);
      }
      var attempts, cooldownUntil := row.attempts + 1, 0;
      if attempts > limit {
        var power := PowerOfTwo(attempts - limit - 1);
        cooldownUntil := now + Min(30 * power, 15 * 60) * 1000;
      }
      buckets := buckets[key := row.(attempts := attempts, cooldownUntil := cooldownUntil)];
      return if cooldownUntil != 0 then Seconds(cooldownUntil - now) else 0;
    }

    method PowerOfTwo(n: nat) returns (power: nat)
      ensures power == Pow2(n)
    {
      power := 1;
      for i := 0 to n
        invariant power == Pow2(i)
      {
        power := 2 * power;
      }
    }

    /** The rate limiting of request_phone_code. */
    method RequestPhoneCode(policy: Policy, r: CodeRequest) returns (retryAfter: int)
      modifies this
      ensures (buckets, retryAfter) == RequestCode(old(buckets), policy, r)
    {
      retryAfter := 0;
      var keys := r.Keys();
      var retry := ConsumeRateLimitTx(keys[0], policy.Limit(keys[0].kind), policy.window, r.now);
      retryAfter := Max(retryAfter, retry);
      retry := ConsumeRateLimitTx(keys[1], policy.Limit(keys[1].kind), policy.window, r.now);
      retryAfter := Max(retryAfter, retry);
      retry := ConsumeRateLimitTx(keys[2], policy.Limit(keys[2].kind), policy.window, r.now);
      retryAfter := Max(retryAfter, retry);
    }
  }
}
