/** Tariffs, exact prices of an interval, and the valuation of a receipt under changing tariffs. */
module ResourcePricing {
  import opened Wrappers
  import opened ResourceTypes

  // ----- Decimal prices -----

  function Power10(n: nat): (r: nat)
    ensures r > 0
  {
    if n == 0 then 1 else 10 * Power10(n - 1)
  }

  predicate Digits(s: string) {
    forall i | 0 <= i < |s| :: '0' <= s[i] <= '9'
  }

  function Number(s: string): nat
    requires Digits(s)
  {
    if s == "" then 0 else 10 * Number(s[..|s| - 1]) + (s[|s| - 1] - '0') as nat
  }

  function Zeros(n: nat): (r: string)
    ensures |r| == n && Digits(r)
  {
    seq(n, _ => '0')
  }

  /** A price with up to nine whole digits and up to six decimals, written whole.fraction. */
  datatype Price = Price(whole: string, fraction: string)

  predicate ValidPrice(p: Price) {
    && Digits(p.whole) && 1 <= |p.whole| <= 9 && (p.whole[0] == '0' ==> |p.whole| == 1)
    && Digits(p.fraction) && |p.fraction| <= 6
  }

  type Tariffed = p: Price | ValidPrice(p) witness Price("0", "")

  /** The price in millionths. */
  function Micro(p: Tariffed): nat {
    Number(p.whole) * 1_000_000 + Number(p.fraction + Zeros(6 - |p.fraction|))
  }

  lemma NumberSnoc(a: string, c: char)
    requires Digits(a) && '0' <= c <= '9'
    ensures Digits(a + [c]) && Number(a + [c]) == 10 * Number(a) + (c - '0') as nat
  {
    assert (a + [c])[..|a + [c]| - 1] == a;
  }

  lemma Regroup(n: nat, p: nat)
    ensures 10 * (n * p) == n * (10 * p)
  {
  }

  lemma {:induction false} NumberAppend(a: string, b: string)
    requires Digits(a) && Digits(b)
    ensures Digits(a + b) && Number(a + b) == Number(a) * Power10(|b|) + Number(b)
  {
    if b == "" {
      assert a + b == a;
    } else {
      var front, c := b[..|b| - 1], b[|b| - 1];
      assert b == front + [c] && a + b == (a + front) + [c];
      NumberAppend(a, front);
      NumberSnoc(a + front, c);
      NumberSnoc(front, c);
      Regroup(Number(a), Power10(|front|));
    }
  }

  lemma {:induction false} NumberZeros(n: nat)
    ensures Number(Zeros(n)) == 0
  {
    if n > 0 {
      assert Zeros(n)[..n - 1] == Zeros(n - 1);
      NumberZeros(n - 1);
    }
  }

  lemma {:induction false} PowerAdd(a: nat, b: nat)
    ensures Power10(a + b) == Power10(a) * Power10(b)
  {
    if a > 0 {
      PowerAdd(a - 1, b);
      Regroup(Power10(b), Power10(a - 1));
    }
  }

  /** No decimal is lost: the micro price over 10^6 is the written number over 10^decimals. */
  lemma MicroExact(p: Tariffed)
    ensures Digits(p.whole + p.fraction)
    ensures Micro(p) * Power10(|p.fraction|) == Number(p.whole + p.fraction) * 1_000_000
  {
    var w, f, n := Number(p.whole), Number(p.fraction), |p.fraction|;
    NumberAppend(p.whole, p.fraction);
    NumberAppend(p.fraction, Zeros(6 - n));
    NumberZeros(6 - n);
    PowerAdd(n, 6 - n);
    MillionIsPower();
    Scaled(w, f, Power10(n), Power10(6 - n));
  }

  lemma MillionIsPower()
    ensures Power10(6) == 1_000_000
  {
    assert Power10(3) == 1000;
    PowerAdd(3, 3);
  }

  lemma Scaled(w: nat, f: nat, a: nat, b: nat)
    ensures (w * (a * b) + f * b) * a == (w * a + f) * (a * b)
  {
    assert (w * (a * b) + f * b) * a == (w * (a * b)) * a + (f * b) * a;
    assert (w * a + f) * (a * b) == (w * a) * (a * b) + f * (a * b);
  }

  // ----- The price of one interval -----

  datatype PriceKind = Customer | UpstreamEstimate

  datatype Tariff =
    | ComputeTariff(cpuCore: Tariffed, memoryGiB: Tariffed)
    | WorkspaceTariff(capacityGiB: Tariffed)

  datatype Rate = Rate(
    id: nat,
    tenantId: Uuid,
    kind: PriceKind,
    effectiveAt: int,
    currency: string,
    perHour: Tariff)

  function ResourceKind(r: Rate): Kind {
    if r.perHour.ComputeTariff? then Compute else Workspace
  }

  datatype Amount =
    | Withheld(reason: Option<Reason>)
    | Unpriced
    | Priced(rateId: nat, currency: string, pico: int)

  const GIB := 1_073_741_824

  /** Pico-currency per millisecond, as a fraction of `Denominator`. */
  function Slope(q: Quantity, t: Tariff): int
    requires q.kind == (if t.ComputeTariff? then Compute else Workspace)
  {
    match t
    case ComputeTariff(cpu, memory) =>
      (Micro(cpu) * q.cpuMillis * GIB + Micro(memory) * q.memoryBytes * 1000) * 1_000_000
    case WorkspaceTariff(capacity) =>
      Micro(capacity) * q.capacityBytes * 1_000_000
  }

  function Denominator(t: Tariff): (d: int)
    ensures d > 0
  {
    if t.ComputeTariff? then 3_600_000 * 1000 * GIB else 3_600_000 * GIB
  }

  /** BigInt division truncates toward zero. */
  function Quotient(n: int, d: int): int
    requires d > 0
  {
    if n >= 0 then n / d else -((-n) / d)
  }

  function PriceInterval(e: Event, duration: int, rate: Option<Rate>): Amount {
    if e.quality != Confirmed then Withheld(e.reason)
    else if rate.None? || ResourceKind(rate.value) != e.quantity.kind then Unpriced
    else
      var t := rate.value.perHour;
      Priced(rate.value.id, rate.value.currency, Quotient(Slope(e.quantity, t) * duration, Denominator(t)))
  }

  // ----- Rounding -----

  function Total(ds: seq<nat>): nat {
    if ds == [] then 0 else ds[0] + Total(ds[1..])
  }

  /** What a receipt costs when it is cut into pieces of the given lengths. */
  function TotalPico(e: Event, ds: seq<nat>, rate: Rate): int
    requires e.quality == Confirmed && ResourceKind(rate) == e.quantity.kind
  {
    if ds == [] then 0 else PriceInterval(e, ds[0], Some(rate)).pico + TotalPico(e, ds[1..], rate)
  }

  predicate Measurable(q: Quantity) {
    q.cpuMillis >= 0 && q.memoryBytes >= 0 && q.capacityBytes >= 0
  }

  lemma Distributes(k: int, a: int, b: int)
    ensures k * (a + b) == k * a + k * b
  {
  }

  lemma Division(n: nat, d: nat)
    requires d > 0
    ensures n == d * (n / d) + n % d && 0 <= n % d < d
  {
  }

  lemma FloorOfSum(x: nat, y: nat, d: nat)
    requires d > 0
    ensures x / d + y / d <= (x + y) / d <= x / d + y / d + 1
  {
    Division(x, d);
    Division(y, d);
    Distributes(d, x / d, y / d);
    FloorUnique(x + y, d, x / d + y / d, x % d + y % d);
  }

  lemma FloorUnique(n: nat, d: nat, q: nat, r: nat)
    requires d > 0 && n == d * q + r && r < 2 * d
    ensures q <= n / d <= q + 1
  {
    Division(n, d);
    var p := n / d;
    if p < q {
      Distributes(d, q, p - q);
      NegativeTimes(d, q - p);
    } else if p > q + 1 {
      Distributes(d, q, p - q);
      AtLeastDouble(d, p - q);
    }
  }

  lemma NegativeTimes(d: int, k: int)
    requires d > 0 && k >= 1
    ensures d * (-k) <= -d
  {
  }

  lemma AtLeastDouble(d: nat, k: nat)
    requires k >= 2
    ensures d * k >= 2 * d
  {
  }

  lemma SlopeNonNegative(q: Quantity, t: Tariff)
    requires Measurable(q) && q.kind == (if t.ComputeTariff? then Compute else Workspace)
    ensures Slope(q, t) >= 0
  {
    match t
    case ComputeTariff(cpu, memory) =>
      assert Micro(cpu) * q.cpuMillis >= 0;
      assert Micro(memory) * q.memoryBytes >= 0;
    case WorkspaceTariff(capacity) =>
      assert Micro(capacity) * q.capacityBytes >= 0;
  }

  lemma Pico(e: Event, duration: nat, rate: Rate)
    requires e.quality == Confirmed && ResourceKind(rate) == e.quantity.kind && Measurable(e.quantity)
    ensures Slope(e.quantity, rate.perHour) * duration >= 0
    ensures PriceInterval(e, duration, Some(rate)).pico
            == (Slope(e.quantity, rate.perHour) * duration) / Denominator(rate.perHour) >= 0
  {
    SlopeNonNegative(e.quantity, rate.perHour);
  }

  /** Two adjoining pieces lose at most one pico against the whole. */
  lemma CuttingOnce(e: Event, x: nat, y: nat, rate: Rate)
    requires e.quality == Confirmed && ResourceKind(rate) == e.quantity.kind && Measurable(e.quantity)
    ensures var a, b := PriceInterval(e, x, Some(rate)).pico, PriceInterval(e, y, Some(rate)).pico;
            a + b <= PriceInterval(e, x + y, Some(rate)).pico <= a + b + 1
  {
    var k, d := Slope(e.quantity, rate.perHour), Denominator(rate.perHour);
    Pico(e, x, rate);
    Pico(e, y, rate);
    Pico(e, x + y, rate);
    Distributes(k, x, y);
    hide PriceInterval, Slope, Denominator, Quotient;
    FloorOfSum(k * x, k * y, d);
  }

  /** Cutting an interval into n pieces under one tariff loses at most n - 1 pico, and never gains. */
  lemma {:induction false} CuttingLosesUnderOnePicoPerCut(e: Event, ds: seq<nat>, rate: Rate)
    requires e.quality == Confirmed && ResourceKind(rate) == e.quantity.kind && Measurable(e.quantity)
    requires ds != []
    ensures var whole := PriceInterval(e, Total(ds), Some(rate)).pico;
            whole - (|ds| - 1) <= TotalPico(e, ds, rate) <= whole
  {
    if |ds| == 1 {
      assert ds[1..] == [];
    } else {
      CuttingLosesUnderOnePicoPerCut(e, ds[1..], rate);
      CuttingOnce(e, ds[0], Total(ds[1..]), rate);
    }
  }

  /** A longer interval never costs less. */
  lemma LongerCostsNoLess(e: Event, shorter: nat, longer: nat, rate: Rate)
    requires e.quality == Confirmed && ResourceKind(rate) == e.quantity.kind && Measurable(e.quantity)
    requires shorter <= longer
    ensures PriceInterval(e, shorter, Some(rate)).pico <= PriceInterval(e, longer, Some(rate)).pico
  {
    Pico(e, longer - shorter, rate);
    CuttingOnce(e, shorter, longer - shorter, rate);
  }

  // ----- What an hour costs -----

  const HOUR := 3_600_000

  /** A confirmed receipt is priced by a tariff of its own kind, whatever the amount. */
  lemma PricedByItsRate(e: Event, duration: nat, rate: Rate)
    requires e.quality == Confirmed && ResourceKind(rate) == e.quantity.kind
    ensures var a := PriceInterval(e, duration, Some(rate));
            a.Priced? && a.rateId == rate.id && a.currency == rate.currency
  {
  }

  lemma Monotone(d: nat, a: int, b: int)
    ensures a <= b ==> d * a <= d * b
    ensures a < b ==> d * a + d <= d * b
  {
    if a < b {
      Distributes(d, a, b - a);
      Grows(d, b - a);
    }
  }

  lemma Grows(d: nat, k: nat)
    requires k >= 1
    ensures d * k >= d
  {
  }

  lemma QuotientIs(n: nat, d: nat, q: nat, r: nat)
    requires d > 0 && n == d * q + r && r < d
    ensures n / d == q
  {
    Division(n, d);
    Monotone(d, n / d, q);
    Monotone(d, q, n / d);
  }

  lemma ExactQuotient(m: nat, d: nat)
    requires d > 0
    ensures (m * d) / d == m
  {
    QuotientIs(m * d, d, m, 0);
  }

  /** One core for an hour costs its hourly price. */
  lemma CoreHour(e: Event, rate: Rate)
    requires e.quality == Confirmed && rate.perHour.ComputeTariff?
    requires e.quantity.kind == Compute && e.quantity.cpuMillis == 1000 && e.quantity.memoryBytes == 0
    ensures PriceInterval(e, HOUR, Some(rate)).pico == Micro(rate.perHour.cpuCore) * 1_000_000
  {
    var price := Micro(rate.perHour.cpuCore) * 1_000_000;
    assert Slope(e.quantity, rate.perHour) * HOUR == price * Denominator(rate.perHour);
    ExactQuotient(price, Denominator(rate.perHour));
  }

  /** One GiB of memory for an hour costs its hourly price. */
  lemma MemoryHour(e: Event, rate: Rate)
    requires e.quality == Confirmed && rate.perHour.ComputeTariff?
    requires e.quantity.kind == Compute && e.quantity.cpuMillis == 0 && e.quantity.memoryBytes == 1_073_741_824
    ensures PriceInterval(e, HOUR, Some(rate)).pico == Micro(rate.perHour.memoryGiB) * 1_000_000
  {
    var price := Micro(rate.perHour.memoryGiB) * 1_000_000;
    assert Slope(e.quantity, rate.perHour) * HOUR == price * Denominator(rate.perHour);
    ExactQuotient(price, Denominator(rate.perHour));
  }

  /** One GiB of volume for an hour costs its hourly price. */
  lemma VolumeHour(e: Event, rate: Rate)
    requires e.quality == Confirmed && rate.perHour.WorkspaceTariff?
    requires e.quantity.kind == Workspace && e.quantity.capacityBytes == 1_073_741_824
    ensures PriceInterval(e, HOUR, Some(rate)).pico == Micro(rate.perHour.capacityGiB) * 1_000_000
  {
    var price := Micro(rate.perHour.capacityGiB) * 1_000_000;
    assert Slope(e.quantity, rate.perHour) * HOUR == price * Denominator(rate.perHour);
    ExactQuotient(price, Denominator(rate.perHour));
  }

  function CpuPart(e: Event): Event {
    e.(quantity := e.quantity.(memoryBytes := 0))
  }

  function MemoryPart(e: Event): Event {
    e.(quantity := e.quantity.(cpuMillis := 0))
  }

  /** A compute price is that of its cores and that of its memory, but for one pico of rounding. */
  lemma PartsAddUp(e: Event, duration: nat, rate: Rate)
    requires e.quality == Confirmed && e.quantity.kind == Compute && Measurable(e.quantity)
    requires rate.perHour.ComputeTariff?
    ensures var cpu := PriceInterval(CpuPart(e), duration, Some(rate)).pico;
            var memory := PriceInterval(MemoryPart(e), duration, Some(rate)).pico;
            cpu + memory <= PriceInterval(e, duration, Some(rate)).pico <= cpu + memory + 1
  {
    hide Slope, Denominator, PriceInterval, Quotient;
    PricesExist(e, duration, rate);
    PricesExist(CpuPart(e), duration, rate);
    PricesExist(MemoryPart(e), duration, rate);
    Pico(e, duration, rate);
    Pico(CpuPart(e), duration, rate);
    Pico(MemoryPart(e), duration, rate);
    SlopeOfParts(e.quantity, rate.perHour);
    SumOfFloors(Slope(CpuPart(e).quantity, rate.perHour), Slope(MemoryPart(e).quantity, rate.perHour), duration,
                Denominator(rate.perHour));
  }

  lemma PricesExist(e: Event, duration: nat, rate: Rate)
    requires e.quality == Confirmed && ResourceKind(rate) == e.quantity.kind
    ensures PriceInterval(e, duration, Some(rate)).Priced?
  {
  }

  lemma SumOfFloors(a: int, b: int, duration: nat, d: nat)
    requires d > 0 && a * duration >= 0 && b * duration >= 0
    ensures (a * duration) / d + (b * duration) / d <= ((a + b) * duration) / d
            <= (a * duration) / d + (b * duration) / d + 1
  {
    Distributes(duration, a, b);
    FloorOfSum(a * duration, b * duration, d);
  }

  lemma SlopeOfParts(q: Quantity, t: Tariff)
    requires q.kind == Compute && t.ComputeTariff?
    ensures Slope(q, t) == Slope(q.(memoryBytes := 0), t) + Slope(q.(cpuMillis := 0), t)
  {
  }

  function Times(q: Quantity, k: nat): Quantity {
    q.(cpuMillis := k * q.cpuMillis, memoryBytes := k * q.memoryBytes, capacityBytes := k * q.capacityBytes)
  }

  /** Several times the quantity costs as many times as much, but for less than one pico each. */
  lemma QuantityScales(e: Event, k: nat, duration: nat, rate: Rate)
    requires e.quality == Confirmed && ResourceKind(rate) == e.quantity.kind && Measurable(e.quantity) && k > 0
    ensures var one := PriceInterval(e, duration, Some(rate)).pico;
            var many := PriceInterval(e.(quantity := Times(e.quantity, k)), duration, Some(rate)).pico;
            k * one <= many <= k * one + k - 1
  {
    var t, more := rate.perHour, e.(quantity := Times(e.quantity, k));
    TimesMeasurable(e.quantity, k);
    Pico(e, duration, rate);
    Pico(more, duration, rate);
    SlopeScales(e.quantity, k, t);
    var slope := Slope(e.quantity, t);
    hide Slope, Denominator, PriceInterval, Quotient, Measurable, Times;
    Associates(k, slope, duration);
    FloorScales(slope * duration, Denominator(t), k);
  }

  lemma TimesMeasurable(q: Quantity, k: nat)
    requires Measurable(q)
    ensures Measurable(Times(q, k))
  {
  }

  lemma Associates(a: int, b: int, c: int)
    ensures (a * b) * c == a * (b * c)
  {
  }

  lemma SlopeScales(q: Quantity, k: nat, t: Tariff)
    requires q.kind == (if t.ComputeTariff? then Compute else Workspace)
    ensures Slope(Times(q, k), t) == k * Slope(q, t)
  {
    hide Micro;
    match t
    case ComputeTariff(cpu, memory) =>
      Commutes(Micro(cpu), k, q.cpuMillis);
      Commutes(Micro(memory), k, q.memoryBytes);
      ScaledSum(k, Micro(cpu) * q.cpuMillis, Micro(memory) * q.memoryBytes);
      SlopeOfCompute(q, k, cpu, memory);
    case WorkspaceTariff(capacity) =>
      Commutes(Micro(capacity), k, q.capacityBytes);
      Associates(k, Micro(capacity) * q.capacityBytes, 1_000_000);
  }

  lemma SlopeOfCompute(q: Quantity, k: nat, cpu: Tariffed, memory: Tariffed)
    requires q.kind == Compute
    ensures Slope(Times(q, k), ComputeTariff(cpu, memory))
            == ((Micro(cpu) * (k * q.cpuMillis)) * GIB + (Micro(memory) * (k * q.memoryBytes)) * 1000) * 1_000_000
    ensures Slope(q, ComputeTariff(cpu, memory))
            == ((Micro(cpu) * q.cpuMillis) * GIB + (Micro(memory) * q.memoryBytes) * 1000) * 1_000_000
  {
    hide Micro;
  }

  lemma Commutes(a: int, b: int, c: int)
    ensures a * (b * c) == b * (a * c)
  {
    Associates(a, b, c);
    Associates(b, a, c);
  }

  lemma ScaledSum(k: nat, x: int, y: int)
    ensures ((k * x) * GIB + (k * y) * 1000) * 1_000_000 == k * ((x * GIB + y * 1000) * 1_000_000)
  {
    Associates(k, x, GIB);
    Associates(k, y, 1000);
    Distributes(k, x * GIB, y * 1000);
    Associates(k, x * GIB + y * 1000, 1_000_000);
  }

  lemma FloorScales(n: nat, d: nat, k: nat)
    requires d > 0 && k > 0
    ensures k * (n / d) <= (k * n) / d <= k * (n / d) + k - 1
  {
    Division(n, d);
    MultipleOfDivided(n, d, k, n / d, n % d);
    FloorOfShifted(k * (n / d), k * (n % d), d);
    MultipleBelow(k, n % d, d);
    FloorBelow(k * (n % d), d, k);
  }

  lemma MultipleOfDivided(n: nat, d: nat, k: nat, q: nat, r: nat)
    requires n == d * q + r
    ensures k * n == d * (k * q) + k * r
  {
    Distributes(k, d * q, r);
    Commutes(k, d, q);
  }

  lemma MultipleBelow(k: nat, a: nat, d: nat)
    requires k > 0 && a < d
    ensures k * a < k * d
  {
    Monotone(k, a, d);
  }

  lemma FloorOfShifted(a: nat, b: nat, d: nat)
    requires d > 0
    ensures (d * a + b) / d == a + b / d
  {
    Division(b, d);
    Distributes(d, a, b / d);
    QuotientIs(d * a + b, d, a + b / d, b % d);
  }

  lemma FloorBelow(n: nat, d: nat, k: nat)
    requires d > 0 && n < k * d
    ensures n / d < k
  {
    Division(n, d);
    Monotone(d, k, n / d);
  }

  // ----- The valuation of a receipt -----

  datatype Segment = Segment(from: int, to: int, customer: Amount, upstreamEstimate: Amount)

  ghost predicate Ascending(xs: seq<int>) {
    forall i, j | 0 <= i < j < |xs| :: xs[i] < xs[j]
  }

  /** Adds one boundary to a strictly ascending list, once. */
  function Insert(xs: seq<int>, t: int): (r: seq<int>)
    ensures r != []
    ensures forall x :: x in r <==> x in xs || x == t
  {
    if xs == [] then [t]
    else if t == xs[0] then xs
    else if t < xs[0] then [t] + xs
    else [xs[0]] + Insert(xs[1..], t)
  }

  function Boundaries(rates: seq<Rate>, start: int, end: int): (r: seq<int>)
    ensures r != []
    decreases |rates|
  {
    if rates == [] then Insert([start], end)
    else
      var rest := Boundaries(rates[1..], start, end);
      if start < rates[0].effectiveAt < end then Insert(rest, rates[0].effectiveAt) else rest
  }

  /** The version of a price kind in force at `at`; the first listed wins a tie. */
  function InForce(rates: seq<Rate>, kind: PriceKind, at: int): Option<Rate> {
    if rates == [] then None
    else
      var rest := InForce(rates[1..], kind, at);
      var r := rates[0];
      if r.kind == kind && r.effectiveAt <= at && (rest.None? || rest.value.effectiveAt <= r.effectiveAt)
      then Some(r) else rest
  }

  function SegmentOf(e: Event, rates: seq<Rate>, from: int, to: int): Segment {
    Segment(from, to,
            PriceInterval(e, to - from, InForce(rates, Customer, from)),
            PriceInterval(e, to - from, InForce(rates, UpstreamEstimate, from)))
  }

  /** The ends of the segments; a receipt of length zero still has one segment. */
  function Bounds(rates: seq<Rate>, start: int, end: int): (r: seq<int>)
    ensures |r| >= 2
  {
    var cuts := Boundaries(rates, start, end);
    if |cuts| == 1 then cuts + [end] else cuts
  }

  function ValueReceipt(e: Event, rates: seq<Rate>): seq<Segment> {
    var bounds := Bounds(rates, e.from, e.to);
    seq(|bounds| - 1, i requires 0 <= i < |bounds| - 1 => SegmentOf(e, rates, bounds[i], bounds[i + 1]))
  }

  lemma {:induction false} InsertAscends(xs: seq<int>, t: int)
    requires Ascending(xs)
    ensures Ascending(Insert(xs, t))
  {
    if xs != [] && t > xs[0] {
      var rest := Insert(xs[1..], t);
      InsertAscends(xs[1..], t);
      forall i, j | 0 <= i < j < |Insert(xs, t)| ensures Insert(xs, t)[i] < Insert(xs, t)[j] {
        assert rest[j - 1] in rest;
        if i > 0 {
          assert rest[i - 1] < rest[j - 1];
        }
      }
    }
  }

  /** The boundaries are exactly the two ends and the rate changes strictly between them, in order. */
  lemma {:induction false} BoundariesExact(rates: seq<Rate>, start: int, end: int)
    requires start <= end
    ensures Ascending(Boundaries(rates, start, end))
    ensures forall x :: x in Boundaries(rates, start, end) <==>
              x == start || x == end || (start < x < end && exists r :: r in rates && r.effectiveAt == x)
  {
    if rates == [] {
      InsertAscends([start], end);
    } else {
      var rest := Boundaries(rates[1..], start, end);
      BoundariesExact(rates[1..], start, end);
      InsertAscends(rest, rates[0].effectiveAt);
      assert forall r :: r in rates <==> r == rates[0] || r in rates[1..];
    }
  }

  lemma FirstIsMember(xs: seq<int>)
    ensures xs == [] || xs[0] in xs
  {
  }

  /** A strictly ascending list skips everything between two neighbours. */
  lemma NothingBetween(xs: seq<int>, i: nat, x: int)
    requires Ascending(xs) && i + 1 < |xs|
    ensures xs[i] < x < xs[i + 1] ==> x !in xs
  {
    forall j | 0 <= j < |xs| ensures xs[j] <= xs[i] || xs[i + 1] <= xs[j] {
    }
  }

  lemma {:induction false} AscendingUnique(a: seq<int>, b: seq<int>)
    requires Ascending(a) && Ascending(b)
    requires forall x :: x in a <==> x in b
    ensures a == b
  {
    if a == [] {
      FirstIsMember(b);
    } else {
      assert a[0] in a && a[0] in b;
      assert b[0] in b && b[0] in a;
      assert a[0] == b[0];
      forall x ensures x in a[1..] <==> x in b[1..] {
        assert x in a[1..] <==> x in a && x != a[0];
        assert x in b[1..] <==> x in b && x != b[0];
      }
      AscendingUnique(a[1..], b[1..]);
    }
  }

  ghost predicate Current(r: Rate, rates: seq<Rate>, kind: PriceKind, at: int) {
    && r in rates && r.kind == kind && r.effectiveAt <= at
    && forall x | x in rates && x.kind == kind && x.effectiveAt <= at :: x.effectiveAt <= r.effectiveAt
  }

  lemma {:induction false} InForceExact(rates: seq<Rate>, kind: PriceKind, at: int)
    ensures var o := InForce(rates, kind, at);
            && (o.Some? ==> Current(o.value, rates, kind, at))
            && (o.None? ==> forall r | r in rates :: !(r.kind == kind && r.effectiveAt <= at))
  {
    if rates != [] {
      InForceExact(rates[1..], kind, at);
    }
  }

  /** One version per tenant, price kind, resource kind and effective time. */
  ghost predicate OneVersion(rates: seq<Rate>) {
    forall a, b | a in rates && b in rates
      && a.tenantId == b.tenantId && a.kind == b.kind && ResourceKind(a) == ResourceKind(b)
      && a.effectiveAt == b.effectiveAt :: a == b
  }

  /** Segments tile the interval, hold no rate change inside, and use the versions in force at their start. */
  lemma ValuationTiles(e: Event, rates: seq<Rate>)
    requires e.from <= e.to
    ensures var v := ValueReceipt(e, rates);
            && v != [] && v[0].from == e.from && v[|v| - 1].to == e.to
            && (forall i | 0 <= i < |v| - 1 :: v[i].to == v[i + 1].from)
            && (forall i | 0 <= i < |v| :: v[i].from < v[i].to || e.from == e.to)
            && (forall i, r | 0 <= i < |v| && r in rates :: !(v[i].from < r.effectiveAt < v[i].to))
            && (forall i | 0 <= i < |v| :: v[i] == SegmentOf(e, rates, v[i].from, v[i].to))
  {
    SegmentsFollowBounds(e, rates);
    BoundsExact(rates, e.from, e.to);
    hide ValueReceipt, SegmentOf, Bounds;
  }

  /**
   What an amount of a segment is: withheld with the receipt's reason, the price at the
   latest version of its price kind, or nothing when no such version is of the receipt's kind.
   */
  ghost predicate AmountAt(a: Amount, e: Event, rates: seq<Rate>, kind: PriceKind, from: int, to: int) {
    if e.quality != Confirmed then a == Withheld(e.reason)
    else
      && (a.Priced? ==>
            exists r :: Current(r, rates, kind, from) && ResourceKind(r) == e.quantity.kind
                        && a.rateId == r.id && a.currency == r.currency && a == PriceInterval(e, to - from, Some(r)))
      && (a.Unpriced? ==>
            || (forall r | r in rates :: !(r.kind == kind && r.effectiveAt <= from))
            || (exists r :: Current(r, rates, kind, from) && ResourceKind(r) != e.quantity.kind))
      && !a.Withheld?
  }

  /** A segment's customer amount comes from the customer rates, its estimate from the upstream ones. */
  lemma SegmentsArePricedByKind(e: Event, rates: seq<Rate>, i: nat)
    requires e.from <= e.to && i < |ValueReceipt(e, rates)|
    ensures var v := ValueReceipt(e, rates)[i];
            && AmountAt(v.customer, e, rates, Customer, v.from, v.to)
            && AmountAt(v.upstreamEstimate, e, rates, UpstreamEstimate, v.from, v.to)
  {
    hide ValueReceipt, Bounds, AmountAt, PriceInterval, InForce, SegmentOf;
    SegmentsFollowBounds(e, rates);
    var v := ValueReceipt(e, rates)[i];
    SegmentAmounts(e, rates, v.from, v.to);
  }

  lemma SegmentAmounts(e: Event, rates: seq<Rate>, from: int, to: int)
    ensures var v := SegmentOf(e, rates, from, to);
            && AmountAt(v.customer, e, rates, Customer, from, to)
            && AmountAt(v.upstreamEstimate, e, rates, UpstreamEstimate, from, to)
  {
    hide AmountAt, PriceInterval, InForce;
    AmountInForce(e, rates, Customer, from, to);
    AmountInForce(e, rates, UpstreamEstimate, from, to);
  }

  lemma AmountInForce(e: Event, rates: seq<Rate>, kind: PriceKind, from: int, to: int)
    ensures AmountAt(PriceInterval(e, to - from, InForce(rates, kind, from)), e, rates, kind, from, to)
  {
    InForceExact(rates, kind, from);
    hide InForce, Quotient, Slope, Denominator;
  }

  lemma SegmentsFollowBounds(e: Event, rates: seq<Rate>)
    ensures var v, b := ValueReceipt(e, rates), Bounds(rates, e.from, e.to);
            && |v| == |b| - 1
            && (forall i | 0 <= i < |v| ::
                  v[i].from == b[i] && v[i].to == b[i + 1] && v[i] == SegmentOf(e, rates, v[i].from, v[i].to))
  {
    hide Bounds, Boundaries, PriceInterval, InForce;
    var v, b := ValueReceipt(e, rates), Bounds(rates, e.from, e.to);
    forall i | 0 <= i < |v|
      ensures v[i].from == b[i] && v[i].to == b[i + 1] && v[i] == SegmentOf(e, rates, v[i].from, v[i].to)
    {
      assert v[i] == SegmentOf(e, rates, b[i], b[i + 1]);
    }
  }

  lemma BoundsExact(rates: seq<Rate>, start: int, end: int)
    requires start <= end
    ensures var b := Bounds(rates, start, end);
            && b[0] == start && b[|b| - 1] == end
            && (forall i, j | 0 <= i && j == i + 1 < |b| :: b[i] < b[j] || start == end)
            && (forall i, j, r | 0 <= i && j == i + 1 < |b| && r in rates :: !(b[i] < r.effectiveAt < b[j]))
            && (forall i | 0 <= i < |b| - 1 :: start <= b[i] && (b[i] < end || b[i] == start))
  {
    var cuts, b := Boundaries(rates, start, end), Bounds(rates, start, end);
    BoundariesExact(rates, start, end);
    assert start in cuts && end in cuts;
    assert cuts[0] in cuts && cuts[|cuts| - 1] in cuts;
    assert |cuts| == 1 ==> start == end;
    forall i, r | 0 <= i < |b| - 1 && r in rates
      ensures !(b[i] < r.effectiveAt < b[i + 1])
    {
      assert |cuts| == 1 ==> b[0] == b[1];
      assert b[i] in cuts && b[i + 1] in cuts;
      if |cuts| > 1 {
        NothingBetween(cuts, i, r.effectiveAt);
      }
    }
    forall i | 0 <= i < |b| - 1 ensures start <= b[i] && (b[i] < end || b[i] == start) {
      assert b[i] in cuts;
      assert i + 1 < |cuts| ==> b[i] < cuts[|cuts| - 1];
    }
  }

  // ----- The rates that the service reads for a receipt -----

  function ForResource(table: seq<Rate>, e: Event): (r: seq<Rate>)
    ensures forall x ::
              x in r <==> (x in table && x.tenantId == e.resource.tenantId && ResourceKind(x) == e.resource.kind)
  {
    if table == [] then []
    else
      var rest := ForResource(table[1..], e);
      if table[0].tenantId == e.resource.tenantId && ResourceKind(table[0]) == e.resource.kind
      then [table[0]] + rest else rest
  }

  function Within(rates: seq<Rate>, start: int, end: int): (r: seq<Rate>)
    ensures forall x :: x in r <==> x in rates && start < x.effectiveAt < end
  {
    if rates == [] then []
    else
      var rest := Within(rates[1..], start, end);
      if start < rates[0].effectiveAt < end then [rates[0]] + rest else rest
  }

  function Listed<T>(o: Option<T>): seq<T> {
    if o.None? then [] else [o.value]
  }

  /** The union of the two queries: the latest version of each kind at the start, and those strictly inside. */
  function Prefiltered(table: seq<Rate>, e: Event): seq<Rate> {
    var own := ForResource(table, e);
    Listed(InForce(own, Customer, e.from)) + Listed(InForce(own, UpstreamEstimate, e.from))
    + Within(own, e.from, e.to)
  }

  lemma PrefilteredSubset(table: seq<Rate>, e: Event)
    ensures forall r | r in Prefiltered(table, e) :: r in ForResource(table, e)
    ensures forall r | r in ForResource(table, e) && e.from < r.effectiveAt < e.to :: r in Prefiltered(table, e)
  {
    var own := ForResource(table, e);
    InForceExact(own, Customer, e.from);
    InForceExact(own, UpstreamEstimate, e.from);
  }

  lemma PrefilterKeepsInForce(table: seq<Rate>, e: Event, kind: PriceKind, at: int)
    requires OneVersion(table) && e.from <= at && (at < e.to || at == e.from)
    ensures InForce(Prefiltered(table, e), kind, at) == InForce(ForResource(table, e), kind, at)
  {
    var own, few := ForResource(table, e), Prefiltered(table, e);
    PrefilteredSubset(table, e);
    InForceExact(own, kind, at);
    InForceExact(few, kind, at);
    InForceExact(own, kind, e.from);
    var first := InForce(own, kind, e.from);
    assert first.Some? ==> first.value in few;
    var all := InForce(own, kind, at);
    if all.Some? {
      assert all.value in few;
    }
  }

  lemma PrefilterKeepsBounds(table: seq<Rate>, e: Event)
    requires OneVersion(table) && e.from <= e.to
    ensures Bounds(Prefiltered(table, e), e.from, e.to) == Bounds(ForResource(table, e), e.from, e.to)
  {
    var own, few := ForResource(table, e), Prefiltered(table, e);
    PrefilteredSubset(table, e);
    BoundariesExact(own, e.from, e.to);
    BoundariesExact(few, e.from, e.to);
    hide Boundaries, Prefiltered, ForResource, Ascending;
    forall x ensures x in Boundaries(own, e.from, e.to) <==> x in Boundaries(few, e.from, e.to) {
    }
    AscendingUnique(Boundaries(own, e.from, e.to), Boundaries(few, e.from, e.to));
  }

  lemma PrefilterKeepsSegment(table: seq<Rate>, e: Event, from: int, to: int)
    requires OneVersion(table) && e.from <= from && (from < e.to || from == e.from)
    ensures SegmentOf(e, Prefiltered(table, e), from, to) == SegmentOf(e, ForResource(table, e), from, to)
  {
    PrefilterKeepsInForce(table, e, Customer, from);
    PrefilterKeepsInForce(table, e, UpstreamEstimate, from);
    hide InForce, Prefiltered, ForResource, PriceInterval, OneVersion;
  }

  /** Reading only the prefiltered versions values a receipt as the whole table would. */
  lemma PrefilterIsExact(table: seq<Rate>, e: Event)
    requires OneVersion(table) && e.from <= e.to
    ensures ValueReceipt(e, Prefiltered(table, e)) == ValueReceipt(e, ForResource(table, e))
  {
    PrefilterKeepsBounds(table, e);
    BoundsExact(ForResource(table, e), e.from, e.to);
    hide InForce, Prefiltered, ForResource, PriceInterval, OneVersion, SegmentOf, Bounds;
    var bounds := Bounds(ForResource(table, e), e.from, e.to);
    forall i | 0 <= i < |bounds| - 1
      ensures SegmentOf(e, Prefiltered(table, e), bounds[i], bounds[i + 1])
              == SegmentOf(e, ForResource(table, e), bounds[i], bounds[i + 1])
    {
      PrefilterKeepsSegment(table, e, bounds[i], bounds[i + 1]);
    }
  }
}
