/** Usage rows and the samples that advance them (crates/backend/src/store.rs). */
module UsageRows {
  import opened Wrappers
  import opened Numbers
  import opened Rows
  import Decimal

  datatype Usage = Usage(browserMillis: int, proxyIn: Option<int>, proxyOut: Option<int>,
                         proxyUnclassified: Option<int>,
                         browserCost: string, proxyCost: string, currency: string, sampledAt: Time)

  /** The usage row a reservation inserts. */
  function ReservedUsage(profile: Option<Id>, at: Time): Usage {
    var counter := if profile.Some? then Some(0) else None;
    Usage(0, counter, counter, counter, "0", "0", "USD", at)
  }

  datatype Sample = Sample(browserMillis: nat, proxyIn: Option<nat>, proxyOut: Option<nat>,
                           proxyUnclassified: Option<nat>,
                           browserCost: string, proxyCost: string, currency: string, sampledAt: Time)

  predicate FitsI64(n: Option<nat>) {
    n.Some? ==> n.value <= MAX_I64
  }

  predicate IsLetter(c: char) {
    'a' <= c <= 'z' || 'A' <= c <= 'Z'
  }

  predicate IsCurrency(s: string) {
    |s| == 3 && IsLetter(s[0]) && IsLetter(s[1]) && IsLetter(s[2])
  }

  function UpperChar(c: char): char {
    if 'a' <= c <= 'z' then (c as int - 32) as char else c
  }

  function Upper(s: string): (u: string)
    ensures |u| == |s|
  {
    seq(|s|, i requires 0 <= i < |s| => UpperChar(s[i]))
  }

  predicate ValidSample(s: Sample) {
    && s.browserMillis <= MAX_I64 && FitsI64(s.proxyIn) && FitsI64(s.proxyOut) && FitsI64(s.proxyUnclassified)
    && Decimal.ToMillionths(s.browserCost).Ok? && Decimal.ToMillionths(s.proxyCost).Ok?
    && IsCurrency(s.currency)
  }

  predicate Fell(next: Option<nat>, current: Option<int>) {
    next.Some? && current.Some? && next.value < current.value
  }

  predicate CostFell(next: string, current: string) {
    var n, c := Decimal.ToMillionths(next), Decimal.ToMillionths(current);
    n.Ok? && c.Ok? && n.value < c.value
  }

  function AsInt(n: Option<nat>): Option<int> {
    match n
    case None => None
    case Some(n) => Some(n)
  }

  /** `monotonic_terminal_counter`, then `COALESCE(?, column)`. */
  function NextCounter(next: Option<nat>, current: Option<int>, terminal: bool): Option<int> {
    if next.None? then current
    else if terminal && current.Some? && current.value > next.value then current
    else AsInt(next)
  }

  function Sampled(u: Usage, s: Sample, terminal: bool): Usage {
    Usage(if terminal && u.browserMillis > s.browserMillis then u.browserMillis else s.browserMillis,
          NextCounter(s.proxyIn, u.proxyIn, terminal), NextCounter(s.proxyOut, u.proxyOut, terminal),
          NextCounter(s.proxyUnclassified, u.proxyUnclassified, terminal),
          s.browserCost, s.proxyCost, Upper(s.currency), s.sampledAt)
  }

  predicate Readable(u: Usage) {
    Decimal.ToMillionths(u.browserCost).Ok? && Decimal.ToMillionths(u.proxyCost).Ok?
  }

  predicate Decreases(u: Usage, s: Sample) {
    || s.browserMillis < u.browserMillis
    || Fell(s.proxyIn, u.proxyIn) || Fell(s.proxyOut, u.proxyOut) || Fell(s.proxyUnclassified, u.proxyUnclassified)
    || CostFell(s.browserCost, u.browserCost) || CostFell(s.proxyCost, u.proxyCost)
  }

  /** `record_usage_snapshot`, by the session's status. Not recording (a stale active sample, or a
      finished session) is success too. */
  function UsageRecorded(session: Session, u: Usage, s: Sample, terminal: bool): Result<Usage, StoreError> {
    if !ValidSample(s) then Err(Invalid)
    else if terminal && !IsLive(session.status) then Ok(u)
    else if terminal && session.status.Active? then Err(WrongState(session.status))
    else if !terminal && !session.status.Active? then Ok(u)
    else if session.profile.Some? && s.proxyIn.None? && s.proxyOut.None? && s.proxyUnclassified.None? then Err(Invalid)
    else if !Readable(u) then Err(Invalid)
    else if !terminal && Decreases(u, s) then Err(Invalid)
    else if Upper(u.currency) != Upper(s.currency) then Err(Invalid)
    else Ok(Sampled(u, s, terminal))
  }

  // ------------------------------------------------------------------- laws

  predicate UsageOk(u: Usage) {
    Readable(u) && Upper(u.currency) == u.currency
  }

  predicate CounterUp(a: Option<int>, b: Option<int>) {
    a.Some? ==> b.Some? && a.value <= b.value
  }

  /** Time and each traffic counter (absent counting as bottom) never fall; the currency stays. */
  predicate UsageUp(a: Usage, b: Usage) {
    && a.browserMillis <= b.browserMillis
    && CounterUp(a.proxyIn, b.proxyIn) && CounterUp(a.proxyOut, b.proxyOut)
    && CounterUp(a.proxyUnclassified, b.proxyUnclassified)
    && a.currency == b.currency
  }

  lemma UsageUpTransitive(a: Usage, b: Usage, c: Usage)
    requires UsageUp(a, b) && UsageUp(b, c)
    ensures UsageUp(a, c)
  {
  }

  lemma ReservedUsageIsOk(profile: Option<Id>, at: Time)
    ensures UsageOk(ReservedUsage(profile, at))
  {
    hide Decimal.ToMillionths;
    ZeroCost("0");
    assert Upper("USD") == "USD";
  }

  lemma ZeroCost(zero: string)
    requires zero == "0"
    ensures Decimal.ToMillionths(zero) == Ok(0)
  {
    assert Decimal.TrimStart(zero) == zero && Decimal.TrimEnd(zero) == zero;
    assert Decimal.FindExponent(zero) == 1 && zero[..1] == zero;
    assert Decimal.FindPoint(zero) == 1;
    assert zero + "" == zero;
    assert Decimal.SkipZeros(zero) == "" by { assert zero[1..] == ""; }
  }

  lemma UpperIdempotent(s: string)
    ensures Upper(Upper(s)) == Upper(s)
  {
  }

  lemma CounterAdvances(next: Option<nat>, current: Option<int>, terminal: bool)
    requires terminal || !Fell(next, current)
    ensures CounterUp(current, NextCounter(next, current, terminal))
    ensures next.Some? ==> CounterUp(AsInt(next), NextCounter(next, current, terminal))
  {
  }

  /** One sample: time and traffic never fall, the currency never changes, only a terminal sample
      before the end may lower a cost, and a finished session's usage is never touched. */
  lemma SampleKeeps(session: Session, u: Usage, s: Sample, terminal: bool)
    requires UsageOk(u) && UsageRecorded(session, u, s, terminal).Ok?
    ensures var next := UsageRecorded(session, u, s, terminal).value;
            && UsageOk(next) && UsageUp(u, next)
            && (!IsLive(session.status) ==> next == u)
            && (!terminal ==> !CostFell(next.browserCost, u.browserCost) && !CostFell(next.proxyCost, u.proxyCost))
            && (next != u ==> session.status.Active? != terminal)
  {
    hide Decimal.ToMillionths;
    UpperIdempotent(s.currency);
    if (!terminal && session.status.Active?) || (terminal && IsLive(session.status)) {
      CounterAdvances(s.proxyIn, u.proxyIn, terminal);
      CounterAdvances(s.proxyOut, u.proxyOut, terminal);
      CounterAdvances(s.proxyUnclassified, u.proxyUnclassified, terminal);
    }
    SameCost(u.browserCost);
    SameCost(u.proxyCost);
  }

  lemma SameCost(cost: string)
    ensures !CostFell(cost, cost)
  {
  }

  /** A terminal sample is kept even where an earlier active one was higher in cost: the refund is
      stored, while time and traffic keep their maximum. */
  lemma TerminalSampleStoresRefund(session: Session, u: Usage, s: Sample)
    requires UsageOk(u) && ValidSample(s) && (session.status.Starting? || session.status.Ending?)
    requires session.profile.None? || s.proxyIn.Some? || s.proxyOut.Some? || s.proxyUnclassified.Some?
    requires Upper(s.currency) == u.currency
    ensures var next := UsageRecorded(session, u, s, true);
            && next.Ok?
            && next.value.browserCost == s.browserCost && next.value.proxyCost == s.proxyCost
            && next.value.browserMillis >= s.browserMillis && next.value.browserMillis >= u.browserMillis
  {
    hide Decimal.ToMillionths;
    UpperIdempotent(s.currency);
  }

  /** A sample and the session status it met; a run of them, active and terminal in any order. */
  datatype Observation = Observation(session: Session, sample: Sample, terminal: bool)

  /** Rejected samples leave the row alone. */
  function Observed(u: Usage, o: Observation): Usage {
    var next := UsageRecorded(o.session, u, o.sample, o.terminal);
    if next.Ok? then next.value else u
  }

  function ObservedAll(u: Usage, os: seq<Observation>): Usage {
    if os == [] then u else Observed(ObservedAll(u, os[..|os| - 1]), os[|os| - 1])
  }

  /** Over any mix of active and terminal samples, whatever status each one meets. */
  lemma {:induction false} ObservationsNeverRunBackwards(u: Usage, os: seq<Observation>)
    requires UsageOk(u)
    ensures UsageOk(ObservedAll(u, os)) && UsageUp(u, ObservedAll(u, os))
    ensures (forall i | 0 <= i < |os| :: !IsLive(os[i].session.status)) ==> ObservedAll(u, os) == u
    decreases |os|
  {
    if os != [] {
      var before, last := ObservedAll(u, os[..|os| - 1]), os[|os| - 1];
      ObservationsNeverRunBackwards(u, os[..|os| - 1]);
      if UsageRecorded(last.session, before, last.sample, last.terminal).Ok? {
        SampleKeeps(last.session, before, last.sample, last.terminal);
      }
      UsageUpTransitive(u, before, Observed(before, last));
    }
  }

  // ----------------------------------------------- what an accepted sample leaves

  /** The status a sample is meant for: active samples for active sessions, terminal ones for live sessions
      that are not. */
  predicate Meets(status: Status, terminal: bool) {
    if terminal then IsLive(status) && !status.Active? else status.Active?
  }

  /** `next` is the larger of the stored and the reported counter, a missing one being below all others. */
  predicate IsLarger(next: Option<int>, stored: Option<int>, reported: Option<nat>) {
    && CounterUp(stored, next) && CounterUp(AsInt(reported), next)
    && (next == stored || next == AsInt(reported))
  }

  /** What a sample that was taken leaves in the row, column by column. */
  predicate Taken(u: Usage, s: Sample, next: Usage) {
    && IsLarger(Some(next.browserMillis), Some(u.browserMillis), Some(s.browserMillis))
    && IsLarger(next.proxyIn, u.proxyIn, s.proxyIn)
    && IsLarger(next.proxyOut, u.proxyOut, s.proxyOut)
    && IsLarger(next.proxyUnclassified, u.proxyUnclassified, s.proxyUnclassified)
    && next.browserCost == s.browserCost && next.proxyCost == s.proxyCost
    && next.currency == u.currency == Upper(s.currency) && next.sampledAt == s.sampledAt
  }

  /** Exactly when a valid sample is taken, and what is then stored. One that comes too late for its status
      is dropped without an error, except a terminal one of an active session. */
  lemma SampleIsTakenExactly(session: Session, u: Usage, s: Sample, terminal: bool)
    requires UsageOk(u)
    ensures var next := UsageRecorded(session, u, s, terminal);
            && (Meets(session.status, terminal) ==>
                  && (next.Ok? <==>
                        && ValidSample(s) && Upper(s.currency) == u.currency
                        && (session.profile.Some? ==> s.proxyIn.Some? || s.proxyOut.Some? || s.proxyUnclassified.Some?)
                        && (terminal || !Decreases(u, s)))
                  && (next.Ok? ==> Taken(u, s, next.value)))
            && (!Meets(session.status, terminal) ==>
                  && (next.Ok? <==> ValidSample(s) && !(terminal && session.status.Active?))
                  && (next.Ok? ==> next.value == u))
  {
    hide ValidSample, CostFell, Readable;
    UpperIdempotent(s.currency);
    UpperIdempotent(u.currency);
    if Meets(session.status, terminal) && UsageRecorded(session, u, s, terminal).Ok? {
      SampledIsTaken(u, s, terminal);
    }
  }

  lemma SampledIsTaken(u: Usage, s: Sample, terminal: bool)
    requires Upper(s.currency) == u.currency && (terminal || !Decreases(u, s))
    ensures Taken(u, s, Sampled(u, s, terminal))
  {
    hide CostFell;
    CounterAdvances(s.proxyIn, u.proxyIn, terminal);
    CounterAdvances(s.proxyOut, u.proxyOut, terminal);
    CounterAdvances(s.proxyUnclassified, u.proxyUnclassified, terminal);
  }

  predicate Takes(u: Usage, o: Observation) {
    Meets(o.session.status, o.terminal) && UsageRecorded(o.session, u, o.sample, o.terminal).Ok?
  }

  /** The samples of a run that were taken, in order. */
  function TakenSamples(u: Usage, os: seq<Observation>): seq<Sample> {
    if os == [] then []
    else
      var before, last := os[..|os| - 1], os[|os| - 1];
      TakenSamples(u, before) + if Takes(ObservedAll(u, before), last) then [last.sample] else []
  }

  /** `next` is the largest of the stored counter and all those reported. */
  ghost predicate IsLargest(next: Option<int>, stored: Option<int>, reported: seq<Option<nat>>) {
    && CounterUp(stored, next) && (forall r | r in reported :: CounterUp(AsInt(r), next))
    && (next == stored || exists r | r in reported :: next == AsInt(r))
  }

  lemma LargestGrows(next: Option<int>, middle: Option<int>, stored: Option<int>, reported: seq<Option<nat>>,
                     last: Option<nat>)
    requires IsLargest(middle, stored, reported) && IsLarger(next, middle, last)
    ensures IsLargest(next, stored, reported + [last])
  {
    assert last in reported + [last];
    forall r | r in reported + [last] ensures CounterUp(AsInt(r), next) {}
    if next == middle && next != stored {
      var r :| r in reported && middle == AsInt(r);
      assert r in reported + [last];
    }
  }

  function MillisOf(ss: seq<Sample>): seq<Option<nat>> {
    seq(|ss|, i requires 0 <= i < |ss| => Some(ss[i].browserMillis))
  }

  function InOf(ss: seq<Sample>): seq<Option<nat>> {
    seq(|ss|, i requires 0 <= i < |ss| => ss[i].proxyIn)
  }

  function OutOf(ss: seq<Sample>): seq<Option<nat>> {
    seq(|ss|, i requires 0 <= i < |ss| => ss[i].proxyOut)
  }

  function UnclassifiedOf(ss: seq<Sample>): seq<Option<nat>> {
    seq(|ss|, i requires 0 <= i < |ss| => ss[i].proxyUnclassified)
  }

  /** A row after any number of samples: its counters are the largest ever taken, its costs and time of
      sampling those of the last one taken. */
  ghost predicate Accumulated(u: Usage, ss: seq<Sample>, v: Usage) {
    && IsLargest(Some(v.browserMillis), Some(u.browserMillis), MillisOf(ss))
    && IsLargest(v.proxyIn, u.proxyIn, InOf(ss))
    && IsLargest(v.proxyOut, u.proxyOut, OutOf(ss))
    && IsLargest(v.proxyUnclassified, u.proxyUnclassified, UnclassifiedOf(ss))
    && v.currency == u.currency
    && (if ss == [] then v == u
        else && v.browserCost == ss[|ss| - 1].browserCost && v.proxyCost == ss[|ss| - 1].proxyCost
             && v.sampledAt == ss[|ss| - 1].sampledAt)
  }

  lemma TakenAccumulates(u: Usage, ss: seq<Sample>, v: Usage, s: Sample, next: Usage)
    requires Accumulated(u, ss, v) && Taken(v, s, next)
    ensures Accumulated(u, ss + [s], next)
  {
    hide IsLargest, IsLarger;
    var all := ss + [s];
    assert MillisOf(all) == MillisOf(ss) + [Some(s.browserMillis)] && InOf(all) == InOf(ss) + [s.proxyIn];
    assert OutOf(all) == OutOf(ss) + [s.proxyOut];
    assert UnclassifiedOf(all) == UnclassifiedOf(ss) + [s.proxyUnclassified];
    LargestGrows(Some(next.browserMillis), Some(v.browserMillis), Some(u.browserMillis), MillisOf(ss),
                 Some(s.browserMillis));
    LargestGrows(next.proxyIn, v.proxyIn, u.proxyIn, InOf(ss), s.proxyIn);
    LargestGrows(next.proxyOut, v.proxyOut, u.proxyOut, OutOf(ss), s.proxyOut);
    LargestGrows(next.proxyUnclassified, v.proxyUnclassified, u.proxyUnclassified, UnclassifiedOf(ss),
                 s.proxyUnclassified);
  }

  /** Over any mix of samples, whatever status each one meets: every counter ends as the largest value
      taken, and the costs are the last ones taken, never a sum and never an older one. */
  lemma {:induction false} ObservationsAccumulate(u: Usage, os: seq<Observation>)
    requires UsageOk(u)
    ensures Accumulated(u, TakenSamples(u, os), ObservedAll(u, os))
    decreases |os|
  {
    hide Accumulated, UsageRecorded, Taken, UsageOk;
    if os == [] {
      NothingAccumulates(u);
    } else {
      var before, last := os[..|os| - 1], os[|os| - 1];
      ObservationsAccumulate(u, before);
      ObservationsNeverRunBackwards(u, before);
      var v := ObservedAll(u, before);
      SampleIsTakenExactly(last.session, v, last.sample, last.terminal);
      if Takes(v, last) {
        TakenAccumulates(u, TakenSamples(u, before), v, last.sample, Observed(v, last));
      } else {
        assert TakenSamples(u, os) == TakenSamples(u, before);
      }
    }
  }

  lemma NothingAccumulates(u: Usage)
    ensures Accumulated(u, [], u)
  {
  }
}
