/**
 Mining revenue as a step integral over market samples, and the settlement built on it.  Money and
 hashes are exact reals.
 */
module HostingAnalytics {
  // One row of market data; `at` is in seconds.
  datatype Sample = Sample(at: real, price: real, difficulty: real, networkHashrate: real)

  datatype Device = Device(hashrate: real, powerW: real, hostingFee: real, hostedSince: real)

  function Hours(from: real, to: real): real {
    (to - from) / 3600.0
  }

  /** Dollars a device earns per hour under a sample: its share of six blocks of 3.125 coins. */
  function HourlyEarning(hashrate: real, s: Sample): real {
    if s.difficulty > 0.0 && s.networkHashrate > 0.0
    then (hashrate * 1000000000000.0) / (s.networkHashrate * 1000000000000000000.0) * 6.0 * 3.125 * s.price
    else 0.0
  }

  // ---------------------------------------------------------------- step integrals

  // What is gained between one sample and the next.
  type Gain = (Sample, Sample) -> real

  /** A step integral: the gains over all adjacent pairs of samples. */
  function Integral(gain: Gain, data: seq<Sample>): real {
    if |data| < 2 then 0.0 else gain(data[0], data[1]) + Integral(gain, data[1..])
  }

  lemma IntegralHead(gain: Gain, first: Sample, rest: seq<Sample>)
    requires rest != []
    ensures Integral(gain, [first] + rest) == gain(first, rest[0]) + Integral(gain, rest)
  {
    assert ([first] + rest)[1..] == rest;
  }

  /** The sum over two halves that share the split sample. */
  lemma {:induction false} IntegralSplits(gain: Gain, data: seq<Sample>, m: nat)
    requires m < |data|
    ensures Integral(gain, data) == Integral(gain, data[..m + 1]) + Integral(gain, data[m..])
  {
    if m == 0 {
      assert data[0..] == data;
    } else {
      IntegralSplits(gain, data[1..], m - 1);
      assert data[1..][..m] == data[..m + 1][1..] && data[1..][m - 1..] == data[m..];
    }
  }

  lemma OneMoreSample(gain: Gain, data: seq<Sample>, i: nat)
    requires i + 1 < |data|
    ensures Integral(gain, data[..i + 2]) == Integral(gain, data[..i + 1]) + gain(data[i], data[i + 1])
  {
    var front := data[..i + 2];
    IntegralSplits(gain, front, i);
    assert front[..i + 1] == data[..i + 1] && front[i..] == [data[i]] + [data[i + 1]];
    IntegralHead(gain, data[i], [data[i + 1]]);
  }

  /** A sample that cuts one gain into two changes nothing. */
  lemma IntegralRefines(gain: Gain, data: seq<Sample>, m: nat, mid: Sample)
    requires m + 1 < |data| && gain(data[m], mid) + gain(mid, data[m + 1]) == gain(data[m], data[m + 1])
    ensures Integral(gain, data[..m + 1] + [mid] + data[m + 1..]) == Integral(gain, data)
  {
    var s, rest := data[m], data[m + 1..];
    var finer := data[..m + 1] + [mid] + rest;
    IntegralSplits(gain, data, m);
    IntegralSplits(gain, finer, m);
    assert finer[..m + 1] == data[..m + 1];
    assert finer[m..] == [s] + ([mid] + rest) && data[m..] == [s] + rest;
    IntegralHead(gain, s, [mid] + rest);
    IntegralHead(gain, mid, rest);
    IntegralHead(gain, s, rest);
  }

  lemma Distribute(a: real, x: real, x': real, b: real, y: real, y': real)
    ensures (a * x + b * y) + (a * x' + b * y') == a * (x + x') + b * (y + y')
  {
  }

  lemma {:induction false} IntegralIsLinear(gain: Gain, a: real, x: Gain, b: real, y: Gain, data: seq<Sample>)
    requires forall s, t :: gain(s, t) == a * x(s, t) + b * y(s, t)
    ensures Integral(gain, data) == a * Integral(x, data) + b * Integral(y, data)
  {
    if |data| >= 2 {
      IntegralIsLinear(gain, a, x, b, y, data[1..]);
      Distribute(a, x(data[0], data[1]), Integral(x, data[1..]), b, y(data[0], data[1]), Integral(y, data[1..]));
    }
  }

  lemma {:induction false} IntegralIsMonotone(low: Gain, high: Gain, data: seq<Sample>)
    requires forall i :: 0 <= i < |data| - 1 ==> 0.0 <= low(data[i], data[i + 1]) <= high(data[i], data[i + 1])
    ensures 0.0 <= Integral(low, data) <= Integral(high, data)
  {
    if |data| >= 2 {
      forall i | 0 <= i < |data[1..]| - 1
        ensures 0.0 <= low(data[1..][i], data[1..][i + 1]) <= high(data[1..][i], data[1..][i + 1])
      {
        assert data[1..][i] == data[i + 1] && data[1..][i + 1] == data[i + 2];
      }
      IntegralIsMonotone(low, high, data[1..]);
      assert data[0 + 1] == data[1];
    }
  }

  // The gain at an hourly rate that never changes.
  function Constant(rate: real): Gain {
    (s: Sample, t: Sample) => rate * Hours(s.at, t.at)
  }

  lemma SplitHours(rate: real, a: real, b: real, c: real)
    ensures rate * Hours(a, b) + rate * Hours(b, c) == rate * Hours(a, c)
  {
    assert Hours(a, b) + Hours(b, c) == Hours(a, c);
    assert rate * Hours(a, b) + rate * Hours(b, c) == rate * (Hours(a, b) + Hours(b, c));
  }

  lemma {:induction false} ConstantIntegral(rate: real, data: seq<Sample>)
    requires |data| > 0
    ensures Integral(Constant(rate), data) == rate * Hours(data[0].at, data[|data| - 1].at)
  {
    if |data| >= 2 {
      ConstantIntegral(rate, data[1..]);
      SplitHours(rate, data[0].at, data[1].at, data[|data| - 1].at);
    }
  }

  // ---------------------------------------------------------------- device revenue

  function Earned(hashrate: real): Gain {
    (s: Sample, t: Sample) => HourlyEarning(hashrate, s) * Hours(s.at, t.at)
  }

  /** Each sample's hourly earning holds until the next sample. */
  function Revenue(hashrate: real, data: seq<Sample>): real {
    Integral(Earned(hashrate), data)
  }

  method CalculateDeviceRevenue(hashrate: real, marketData: seq<Sample>) returns (totalRevenue: real)
    ensures totalRevenue == Revenue(hashrate, marketData)
  {
    totalRevenue := 0.0;
    var i := 0;
    while i < |marketData| - 1
      invariant 0 <= i && (marketData == [] || i < |marketData|)
      invariant totalRevenue == if marketData == [] then 0.0 else Revenue(hashrate, marketData[..i + 1])
    {
      var earned := CalculateEarning(hashrate, marketData[i], marketData[i + 1]);
      OneMoreSample(Earned(hashrate), marketData, i);
      totalRevenue := totalRevenue + earned;
      i := i + 1;
    }
    if marketData != [] { assert marketData[..i + 1] == marketData; }
  }

  /** The body of the loop: a sample without difficulty or network hashrate earns nothing. */
  method CalculateEarning(hashrate: real, current: Sample, next: Sample) returns (earned: real)
    ensures earned == HourlyEarning(hashrate, current) * Hours(current.at, next.at)
  {
    var hours := (next.at - current.at) / 3600.0;
    earned := 0.0;
    if current.difficulty > 0.0 && current.networkHashrate > 0.0 {
      var deviceShare := (hashrate * 1000000000000.0) / (current.networkHashrate * 1000000000000000000.0);
      var btcEarned := deviceShare * 6.0 * 3.125 * hours;
      earned := btcEarned * current.price;
      Regroup(deviceShare * 6.0 * 3.125, hours, current.price);
    }
  }

  lemma Regroup(a: real, b: real, c: real)
    ensures (a * b) * c == (a * c) * b
  {
  }

  /** Revenue over two adjacent stretches that share a sample adds up. */
  lemma RevenueSplits(hashrate: real, data: seq<Sample>, m: nat)
    requires m < |data|
    ensures Revenue(hashrate, data) == Revenue(hashrate, data[..m + 1]) + Revenue(hashrate, data[m..])
  {
    IntegralSplits(Earned(hashrate), data, m);
  }

  /** Inserting a sample that repeats its left neighbour's values changes no revenue. */
  lemma RevenueRefines(hashrate: real, data: seq<Sample>, m: nat, at: real)
    requires m + 1 < |data|
    ensures Revenue(hashrate, data[..m + 1] + [data[m].(at := at)] + data[m + 1..]) == Revenue(hashrate, data)
  {
    var s, mid, next := data[m], data[m].(at := at), data[m + 1];
    assert HourlyEarning(hashrate, mid) == HourlyEarning(hashrate, s);
    SplitHours(HourlyEarning(hashrate, s), s.at, mid.at, next.at);
    IntegralRefines(Earned(hashrate), data, m, mid);
  }

  lemma Share(x: real, n: real, price: real)
    requires n > 0.0
    ensures (x * 1000000000000.0) / n * 6.0 * 3.125 * price == x * (1000000000000.0 / n * 6.0 * 3.125 * price)
  {
    assert (x * 1000000000000.0) / n == x * (1000000000000.0 / n);
  }

  lemma EarningIsLinear(z: real, a: real, x: real, b: real, y: real, s: Sample)
    requires z == a * x + b * y
    ensures HourlyEarning(z, s) == a * HourlyEarning(x, s) + b * HourlyEarning(y, s)
  {
    if s.difficulty > 0.0 && s.networkHashrate > 0.0 {
      var n := s.networkHashrate * 1000000000000000000.0;
      Share(z, n, s.price);
      Share(x, n, s.price);
      Share(y, n, s.price);
      var unit := 1000000000000.0 / n * 6.0 * 3.125 * s.price;
      assert z * unit == a * (x * unit) + b * (y * unit);
    }
  }

  lemma Scale(z: real, a: real, x: real, b: real, y: real, h: real)
    requires z == a * x + b * y
    ensures z * h == a * (x * h) + b * (y * h)
  {
  }

  lemma EarnedIsLinear(z: real, a: real, x: real, b: real, y: real, s: Sample, t: Sample)
    requires z == a * x + b * y
    ensures Earned(z)(s, t) == a * Earned(x)(s, t) + b * Earned(y)(s, t)
  {
    var h, ez, ex, ey := Hours(s.at, t.at), HourlyEarning(z, s), HourlyEarning(x, s), HourlyEarning(y, s);
    assert ez == a * ex + b * ey by { EarningIsLinear(z, a, x, b, y, s); }
    assert ez * h == a * (ex * h) + b * (ey * h) by { Scale(ez, a, ex, b, ey, h); }
  }

  /** Revenue is linear in the hashrate. */
  lemma RevenueIsLinear(z: real, a: real, x: real, b: real, y: real, data: seq<Sample>)
    requires z == a * x + b * y
    ensures Revenue(z, data) == a * Revenue(x, data) + b * Revenue(y, data)
  {
    forall s, t ensures Earned(z)(s, t) == a * Earned(x)(s, t) + b * Earned(y)(s, t) {
      EarnedIsLinear(z, a, x, b, y, s, t);
    }
    IntegralIsLinear(Earned(z), a, Earned(x), b, Earned(y), data);
  }

  ghost predicate Ordered(data: seq<Sample>) {
    forall i, j :: 0 <= i < j < |data| ==> data[i].at <= data[j].at
  }

  lemma EarningIsNonnegative(hashrate: real, s: Sample)
    requires hashrate >= 0.0 && s.price >= 0.0
    ensures HourlyEarning(hashrate, s) >= 0.0
  {
    if s.difficulty > 0.0 && s.networkHashrate > 0.0 {
      var share := (hashrate * 1000000000000.0) / (s.networkHashrate * 1000000000000000000.0);
      assert share >= 0.0;
      assert share * 6.0 * 3.125 >= 0.0;
    }
  }

  lemma TwoSamples(hashrate: real, s: Sample, t: Sample)
    ensures Revenue(hashrate, [s, t]) == HourlyEarning(hashrate, s) * Hours(s.at, t.at)
  {
    IntegralHead(Earned(hashrate), s, [t]);
    assert [s] + [t] == [s, t];
    assert Integral(Earned(hashrate), [t]) == 0.0;
  }

  /**
   A device with the hashrate of the whole network earns every block: six of 3.125 coins an hour, at
   the price of the sample that is in force.
   */
  lemma WholeNetworkEarnsEveryBlock(hashrate: real, s: Sample, t: Sample)
    requires s.difficulty > 0.0 && s.networkHashrate > 0.0
    requires hashrate * 1000000000000.0 == s.networkHashrate * 1000000000000000000.0
    ensures Revenue(hashrate, [s, t]) == 6.0 * 3.125 * s.price * ((t.at - s.at) / 3600.0)
  {
    TwoSamples(hashrate, s, t);
    var n := s.networkHashrate * 1000000000000000000.0;
    assert n > 0.0;
    assert n / n == 1.0;
    assert HourlyEarning(hashrate, s) == 6.0 * 3.125 * s.price;
  }

  /** And any device earns its share of that. */
  lemma DeviceEarnsItsShare(hashrate: real, share: real, s: Sample, t: Sample)
    requires s.difficulty > 0.0 && s.networkHashrate > 0.0
    requires hashrate * 1000000000000.0 == share * (s.networkHashrate * 1000000000000000000.0)
    ensures Revenue(hashrate, [s, t]) == share * (6.0 * 3.125 * s.price * ((t.at - s.at) / 3600.0))
  {
    var whole := s.networkHashrate * 1000000.0;
    WholeNetworkEarnsEveryBlock(whole, s, t);
    assert hashrate == share * whole + 0.0 * 0.0 by { ShareOfWhole(hashrate, share, s.networkHashrate); }
    RevenueIsLinear(hashrate, share, whole, 0.0, 0.0, [s, t]);
  }

  lemma ShareOfWhole(hashrate: real, share: real, network: real)
    requires hashrate * 1000000000000.0 == share * (network * 1000000000000000000.0)
    ensures hashrate == share * (network * 1000000.0)
  {
    assert share * (network * 1000000000000000000.0) == share * (network * 1000000.0) * 1000000000000.0;
  }

  /** Without difficulty or network hashrate there is nothing to share. */
  lemma NoNetworkNoEarning(hashrate: real, s: Sample, t: Sample)
    requires s.difficulty <= 0.0 || s.networkHashrate <= 0.0
    ensures Revenue(hashrate, [s, t]) == 0.0
  {
    TwoSamples(hashrate, s, t);
  }

  lemma Within(rate: real, best: real, h: real)
    requires 0.0 <= rate <= best && h >= 0.0
    ensures 0.0 <= rate * h <= best * h
  {
  }

  /** Over samples in time order, revenue lies between nothing and the best hourly rate for the whole time. */
  lemma RevenueIsBounded(hashrate: real, data: seq<Sample>, best: real)
    requires Ordered(data) && |data| > 0 && hashrate >= 0.0
    requires forall i :: 0 <= i < |data| - 1 ==> data[i].price >= 0.0 && HourlyEarning(hashrate, data[i]) <= best
    ensures 0.0 <= Revenue(hashrate, data) <= best * Hours(data[0].at, data[|data| - 1].at)
  {
    forall i | 0 <= i < |data| - 1
      ensures 0.0 <= Earned(hashrate)(data[i], data[i + 1]) <= Constant(best)(data[i], data[i + 1])
    {
      EarningIsNonnegative(hashrate, data[i]);
      Within(HourlyEarning(hashrate, data[i]), best, Hours(data[i].at, data[i + 1].at));
    }
    IntegralIsMonotone(Earned(hashrate), Constant(best), data);
    ConstantIntegral(best, data);
  }

  // ---------------------------------------------------------------- settlement

  datatype Failure = NoMarketData | NoDevices | DivisionByZero

  datatype Settlement =
    | Settled(revenue: real, btcMined: real, averagePrice: real, hostingFees: real, electricity: real,
              netProfit: real, devices: nat)
    | Refused(why: Failure)

  /** `WHERE recorded_at BETWEEN start AND end`, both ends included. */
  function Between(history: seq<Sample>, start: real, end: real): seq<Sample> {
    if history == [] then [] else
      var rest := Between(history[..|history| - 1], start, end);
      var s := history[|history| - 1];
      if start <= s.at <= end then rest + [s] else rest
  }

  /** `WHERE hosting_start_date <= end`. */
  function HostedBy(devices: seq<Device>, end: real): seq<Device> {
    if devices == [] then [] else
      var rest := HostedBy(devices[..|devices| - 1], end);
      var d := devices[|devices| - 1];
      if d.hostedSince <= end then rest + [d] else rest
  }

  function Electricity(d: Device, start: real, end: real): real {
    d.powerW / 1000.0 * Hours(start, end) * 0.055
  }

  function TotalRevenue(devices: seq<Device>, data: seq<Sample>): real {
    if devices == [] then 0.0
    else TotalRevenue(devices[..|devices| - 1], data) + Revenue(devices[|devices| - 1].hashrate, data)
  }

  function TotalFees(devices: seq<Device>): real {
    if devices == [] then 0.0 else TotalFees(devices[..|devices| - 1]) + devices[|devices| - 1].hostingFee
  }

  function TotalElectricity(devices: seq<Device>, start: real, end: real): real {
    if devices == [] then 0.0
    else TotalElectricity(devices[..|devices| - 1], start, end) + Electricity(devices[|devices| - 1], start, end)
  }

  function PriceSum(data: seq<Sample>): real {
    if data == [] then 0.0 else PriceSum(data[..|data| - 1]) + data[|data| - 1].price
  }

  /** The settlement of a client over a period, from the recorded history and the client's devices. */
  function SettlementOf(history: seq<Sample>, clientDevices: seq<Device>, start: real, end: real): Settlement {
    var data, devices := Between(history, start, end), HostedBy(clientDevices, end);
    if data == [] then Refused(NoMarketData)
    else if devices == [] then Refused(NoDevices)
    else if data[|data| - 1].price == 0.0 then Refused(DivisionByZero)
    else
      var revenue, fees := TotalRevenue(devices, data), TotalFees(devices);
      var electricity := TotalElectricity(devices, start, end);
      Settled(revenue, revenue / data[|data| - 1].price, PriceSum(data) / |data| as real,
              fees, electricity, revenue - (fees + electricity), |devices|)
  }

  method CalculateClientSettlement(history: seq<Sample>, clientDevices: seq<Device>, start: real, end: real)
      returns (r: Settlement)
    ensures r == SettlementOf(history, clientDevices, start, end)
  {
    var data := Between(history, start, end);
    if data == [] { return Refused(NoMarketData); }
    var devices := HostedBy(clientDevices, end);
    if devices == [] { return Refused(NoDevices); }
    var revenue, fees, electricity := 0.0, 0.0, 0.0;
    for i := 0 to |devices|
      invariant revenue == TotalRevenue(devices[..i], data)
      invariant fees == TotalFees(devices[..i])
      invariant electricity == TotalElectricity(devices[..i], start, end)
    {
      assert devices[..i + 1][..i] == devices[..i];
      var deviceRevenue := CalculateDeviceRevenue(devices[i].hashrate, data);
      var hours := (end - start) / 3600.0;
      revenue := revenue + deviceRevenue;
      fees := fees + devices[i].hostingFee;
      electricity := electricity + devices[i].powerW / 1000.0 * hours * 0.055;
    }
    assert devices[..|devices|] == devices;
    var last := data[|data| - 1];
    if last.price == 0.0 { return Refused(DivisionByZero); }
    var prices := 0.0;
    for i := 0 to |data|
      invariant prices == PriceSum(data[..i])
    {
      assert data[..i + 1][..i] == data[..i];
      prices := prices + data[i].price;
    }
    assert data[..|data|] == data;
    return Settled(revenue, revenue / last.price, prices / |data| as real, fees, electricity,
                   revenue - (fees + electricity), |devices|);
  }

  /** `ORDER BY recorded_at`, with the time as the key of the table. */
  ghost predicate StrictlyOrdered(data: seq<Sample>) {
    forall i, j :: 0 <= i < j < |data| ==> data[i].at < data[j].at
  }

  lemma {:induction false} NothingBetween(history: seq<Sample>, start: real, end: real)
    requires forall s :: s in history ==> s.at < start
    ensures Between(history, start, end) == []
  {
    if history != [] {
      NothingBetween(history[..|history| - 1], start, end);
      assert history[|history| - 1] in history;
    }
  }

  /** A period that ends at a sample and the one that starts there share it, and join at it. */
  lemma {:induction false} BetweenJoins(history: seq<Sample>, a: real, b: real, c: real, m: nat)
    requires StrictlyOrdered(history) && a <= b <= c && m < |history| && history[m].at == b
    ensures var left, right, whole := Between(history, a, b), Between(history, b, c), Between(history, a, c);
            && left != [] && right != [] && left[|left| - 1] == history[m] == right[0]
            && whole == left + right[1..]
  {
    var n := |history| - 1;
    var front := history[..n];
    if m == n {
      assert forall s :: s in front ==> s.at < b;
      NothingBetween(front, b, c);
      SameBetween(front, a, b, c);
    } else {
      BetweenJoins(front, a, b, c, m);
      var right := Between(front, b, c);
      if b <= history[n].at <= c {
        assert (right + [history[n]])[1..] == right[1..] + [history[n]];
      }
    }
  }

  /** With nothing recorded from `b` on, the end of the period does not matter beyond `b`. */
  lemma {:induction false} SameBetween(history: seq<Sample>, a: real, b: real, c: real)
    requires b <= c && forall s :: s in history ==> s.at < b
    ensures Between(history, a, b) == Between(history, a, c)
  {
    if history != [] {
      var n := |history| - 1;
      SameBetween(history[..n], a, b, c);
      assert history[n] in history;
    }
  }

  lemma {:induction false} TotalRevenueSplits(devices: seq<Device>, data: seq<Sample>, m: nat)
    requires m < |data|
    ensures TotalRevenue(devices, data) == TotalRevenue(devices, data[..m + 1]) + TotalRevenue(devices, data[m..])
  {
    if devices != [] {
      TotalRevenueSplits(devices[..|devices| - 1], data, m);
      RevenueSplits(devices[|devices| - 1].hashrate, data, m);
    }
  }

  lemma {:induction false} TotalElectricitySplits(devices: seq<Device>, a: real, b: real, c: real)
    ensures TotalElectricity(devices, a, c) == TotalElectricity(devices, a, b) + TotalElectricity(devices, b, c)
  {
    if devices != [] {
      TotalElectricitySplits(devices[..|devices| - 1], a, b, c);
      var w := devices[|devices| - 1].powerW / 1000.0;
      SplitHours(w, a, b, c);
    }
  }

  // What the settlement of a period amounts to when it is not refused.
  function RevenueOf(history: seq<Sample>, clientDevices: seq<Device>, start: real, end: real): real {
    TotalRevenue(HostedBy(clientDevices, end), Between(history, start, end))
  }

  function ElectricityOf(clientDevices: seq<Device>, start: real, end: real): real {
    TotalElectricity(HostedBy(clientDevices, end), start, end)
  }

  function NetOf(history: seq<Sample>, clientDevices: seq<Device>, start: real, end: real): real {
    RevenueOf(history, clientDevices, start, end)
    - (TotalFees(HostedBy(clientDevices, end)) + ElectricityOf(clientDevices, start, end))
  }

  lemma FiguresOf(history: seq<Sample>, clientDevices: seq<Device>, start: real, end: real)
    requires SettlementOf(history, clientDevices, start, end).Settled?
    ensures var r := SettlementOf(history, clientDevices, start, end);
            && r.revenue == RevenueOf(history, clientDevices, start, end)
            && r.electricity == ElectricityOf(clientDevices, start, end)
            && r.netProfit == NetOf(history, clientDevices, start, end)
            && r.hostingFees == TotalFees(HostedBy(clientDevices, end))
  {
  }

  /**
   Adjacent periods.  If no device joins in the second period and the split time is a sample,
   revenue and electricity add up exactly, while the hosting fees are charged once per settlement:
   the net profits add up exactly when the fees are zero.
   */
  lemma AdjacentPeriods(history: seq<Sample>, clientDevices: seq<Device>, a: real, b: real, c: real, m: nat)
    requires StrictlyOrdered(history) && a <= b <= c && m < |history| && history[m].at == b
    requires HostedBy(clientDevices, b) == HostedBy(clientDevices, c)
    ensures RevenueOf(history, clientDevices, a, c) ==
            RevenueOf(history, clientDevices, a, b) + RevenueOf(history, clientDevices, b, c)
    ensures ElectricityOf(clientDevices, a, c) ==
            ElectricityOf(clientDevices, a, b) + ElectricityOf(clientDevices, b, c)
    ensures NetOf(history, clientDevices, a, c) ==
            NetOf(history, clientDevices, a, b) + NetOf(history, clientDevices, b, c)
            + TotalFees(HostedBy(clientDevices, c))
    ensures (NetOf(history, clientDevices, a, c) ==
             NetOf(history, clientDevices, a, b) + NetOf(history, clientDevices, b, c))
            <==> TotalFees(HostedBy(clientDevices, c)) == 0.0
  {
    var devices := HostedBy(clientDevices, c);
    var left, right, whole := Between(history, a, b), Between(history, b, c), Between(history, a, c);
    BetweenJoins(history, a, b, c, m);
    var n := |left| - 1;
    assert whole[..n + 1] == left && whole[n..] == right;
    TotalRevenueSplits(devices, whole, n);
    TotalElectricitySplits(devices, a, b, c);
  }

  // ---------------------------------------------------------------- what a settlement is made of

  lemma {:induction false} BetweenHolds(history: seq<Sample>, start: real, end: real, s: Sample)
    ensures multiset(Between(history, start, end))[s] == if start <= s.at <= end then multiset(history)[s] else 0
  {
    if history != [] {
      var n := |history| - 1;
      BetweenHolds(history[..n], start, end, s);
      assert history == history[..n] + [history[n]];
    }
  }

  lemma BetweenMember(history: seq<Sample>, start: real, end: real, s: Sample)
    ensures s in Between(history, start, end) <==> s in history && start <= s.at <= end
  {
    var data := Between(history, start, end);
    BetweenHolds(history, start, end, s);
    assert s in data <==> multiset(data)[s] > 0;
    assert s in history <==> multiset(history)[s] > 0;
  }

  /** A settlement is refused for want of samples in the period, then of hosted devices, then of a last price. */
  lemma RefusedIff(history: seq<Sample>, devices: seq<Device>, start: real, end: real)
    ensures var r := SettlementOf(history, devices, start, end);
            && (r == Refused(NoMarketData) <==> forall s :: s in history ==> !(start <= s.at <= end))
            && (r == Refused(NoDevices) <==>
                  && (exists s :: s in history && start <= s.at <= end)
                  && forall d :: d in devices ==> d.hostedSince > end)
            && (r == Refused(DivisionByZero) <==>
                  && (exists d :: d in devices && d.hostedSince <= end)
                  && var data := Between(history, start, end);
                     data != [] && data[|data| - 1].price == 0.0)
  {
    var data, hosted := Between(history, start, end), HostedBy(devices, end);
    forall s ensures s in data <==> s in history && start <= s.at <= end { BetweenMember(history, start, end, s); }
    if data != [] { assert data[0] in data; }
    HostedHolds(devices, end);
    if hosted != [] { assert hosted[0] in hosted; }
  }

  lemma {:induction false} HostedHolds(devices: seq<Device>, end: real)
    ensures forall d :: d in HostedBy(devices, end) <==> d in devices && d.hostedSince <= end
  {
    if devices != [] {
      var n := |devices| - 1;
      HostedHolds(devices[..n], end);
      assert devices == devices[..n] + [devices[n]];
    }
  }

  lemma HostedAppend(devices: seq<Device>, d: Device, end: real)
    ensures HostedBy(devices + [d], end) ==
            if d.hostedSince <= end then HostedBy(devices, end) + [d] else HostedBy(devices, end)
  {
    assert (devices + [d])[..|devices|] == devices;
  }

  lemma TotalsAppend(devices: seq<Device>, d: Device, data: seq<Sample>, start: real, end: real)
    ensures TotalRevenue(devices + [d], data) == TotalRevenue(devices, data) + Revenue(d.hashrate, data)
    ensures TotalFees(devices + [d]) == TotalFees(devices) + d.hostingFee
    ensures TotalElectricity(devices + [d], start, end) ==
            TotalElectricity(devices, start, end) + d.powerW / 1000.0 * ((end - start) / 3600.0) * 0.055
  {
    assert (devices + [d])[..|devices|] == devices;
  }

  /** A device that is not hosted by the end of the period does not count. */
  lemma UnhostedDoesNotCount(history: seq<Sample>, devices: seq<Device>, d: Device, start: real, end: real)
    requires d.hostedSince > end
    ensures SettlementOf(history, devices + [d], start, end) == SettlementOf(history, devices, start, end)
  {
    HostedAppend(devices, d, end);
  }

  /**
   What one more hosted device adds to a settlement: its revenue over the samples of the period, its
   fee, its power at 0.055 a kilowatt-hour for the whole period, and one device.
   */
  lemma OneMoreDevice(history: seq<Sample>, devices: seq<Device>, d: Device, start: real, end: real)
    requires d.hostedSince <= end && SettlementOf(history, devices, start, end).Settled?
    ensures var r, more := SettlementOf(history, devices, start, end), SettlementOf(history, devices + [d], start, end);
            var gain, power := Revenue(d.hashrate, Between(history, start, end)),
                               d.powerW / 1000.0 * ((end - start) / 3600.0) * 0.055;
            && more.Settled? && more.revenue == r.revenue + gain && more.hostingFees == r.hostingFees + d.hostingFee
            && more.electricity == r.electricity + power
            && more.netProfit == r.netProfit + gain - d.hostingFee - power
            && more.averagePrice == r.averagePrice && more.devices == r.devices + 1
  {
    HostedAppend(devices, d, end);
    TotalsAppend(HostedBy(devices, end), d, Between(history, start, end), start, end);
  }

  /** And what the first one makes of it. */
  lemma FirstDevice(history: seq<Sample>, d: Device, start: real, end: real)
    requires d.hostedSince <= end && SettlementOf(history, [d], start, end).Settled?
    ensures var r, data := SettlementOf(history, [d], start, end), Between(history, start, end);
            && data != [] && r.devices == 1 && r.revenue == Revenue(d.hashrate, data)
            && r.hostingFees == d.hostingFee
            && r.electricity == d.powerW / 1000.0 * ((end - start) / 3600.0) * 0.055
            && r.netProfit == r.revenue - r.hostingFees - r.electricity
  {
    var none: seq<Device> := [];
    assert none + [d] == [d];
    HostedAppend(none, d, end);
    TotalsAppend(none, d, Between(history, start, end), start, end);
  }

  lemma {:induction false} PricesAdd(a: seq<Sample>, b: seq<Sample>)
    ensures PriceSum(a + b) == PriceSum(a) + PriceSum(b)
    ensures |b| == 1 ==> PriceSum(b) == b[0].price
  {
    if b == [] {
      assert a + b == a;
    } else {
      var n := |b| - 1;
      PricesAdd(a, b[..n]);
      assert (a + b)[..|a + b| - 1] == a + b[..n] && (a + b)[|a + b| - 1] == b[n];
    }
  }

  lemma Quotient(x: real, n: real)
    requires n != 0.0
    ensures x / n * n == x
  {
  }

  /** The coins mined are the revenue at the last price, and the average price makes up the sum of the prices. */
  lemma PricesOfSettlement(history: seq<Sample>, devices: seq<Device>, start: real, end: real)
    requires SettlementOf(history, devices, start, end).Settled?
    ensures var r, data := SettlementOf(history, devices, start, end), Between(history, start, end);
            && data != [] && r.btcMined * data[|data| - 1].price == r.revenue
            && r.averagePrice * |data| as real == PriceSum(data)
  {
    var data := Between(history, start, end);
    Quotient(TotalRevenue(HostedBy(devices, end), data), data[|data| - 1].price);
    Quotient(PriceSum(data), |data| as real);
  }
}
