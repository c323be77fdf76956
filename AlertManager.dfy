/** Anomaly detection over successive market readings of a symbol: volatility
    spikes, sentiment shifts and price gaps, measured against the previous
    reading of the same symbol, with a bounded history of emitted alerts. */
module AlertManager {
  import opened Common

  const MaxAlerts: nat := 100
  const DefaultRecentLimit: int := 50

  /** Percentages: a spike is a rise of more than `volatilitySpike` percent, a
      shift a change of more than `sentimentShift`, a gap a move of more than
      `priceGap` percent. */
  datatype Thresholds = Thresholds(volatilitySpike: real, sentimentShift: real, priceGap: real)

  const DefaultThresholds := Thresholds(50.0, 20.0, 10.0)

  /** The properties a caller may pass to `updateThresholds`; absent ones are kept. */
  datatype ThresholdPatch = ThresholdPatch(volatilitySpike: Option<real>, sentimentShift: Option<real>, priceGap: Option<real>)

  datatype AlertKind = VolatilitySpike | SentimentShift | PriceGap
  datatype Severity = High | Medium

  datatype Alert = Alert(kind: AlertKind, symbol: string, severity: Severity, current: real, previous: real)

  /** One reading; `None` is a property that is `undefined`. */
  datatype Reading = Reading(volatility: Option<real>, sentiment: Option<real>, price: Option<real>)

  function VolatilityKey(symbol: string): string { symbol + "_volatility" }
  function SentimentKey(symbol: string): string { symbol + "_sentiment" }
  function PriceKey(symbol: string): string { symbol + "_price" }

  function Lookup(m: map<string, real>, k: string): Option<real>
  {
    if k in m then Some(m[k]) else None
  }

  /** A previous value is used only when it is truthy: present and not zero. */
  predicate Truthy(v: Option<real>) { v.Some? && v.value != 0.0 }

  predicate IsSpike(prev: Option<real>, cur: real, t: Thresholds)
  {
    Truthy(prev) && cur > prev.value * (1.0 + t.volatilitySpike / 100.0)
  }

  predicate IsShift(prev: Option<real>, cur: real, t: Thresholds)
  {
    prev.Some? && Abs(cur - prev.value) > t.sentimentShift
  }

  predicate IsGap(prev: Option<real>, cur: real, t: Thresholds)
  {
    Truthy(prev) && Abs((cur - prev.value) / prev.value * 100.0) > t.priceGap
  }

  /** The position of each kind in the order the checks run. */
  function KindRank(k: AlertKind): nat
  {
    match k
    case VolatilitySpike => 0
    case SentimentShift => 1
    case PriceGap => 2
  }

  /** The alerts one reading raises, in the order volatility, sentiment, price, at
      most one of each kind. */
  function Detect(previous: map<string, real>, t: Thresholds, r: Reading, symbol: string): (alerts: seq<Alert>)
    ensures |alerts| <= 3
    ensures forall a | a in alerts :: a.symbol == symbol
    ensures (exists a | a in alerts :: a.kind == VolatilitySpike)
            <==> r.volatility.Some? && IsSpike(Lookup(previous, VolatilityKey(symbol)), r.volatility.value, t)
    ensures (exists a | a in alerts :: a.kind == SentimentShift)
            <==> r.sentiment.Some? && IsShift(Lookup(previous, SentimentKey(symbol)), r.sentiment.value, t)
    ensures (exists a | a in alerts :: a.kind == PriceGap)
            <==> r.price.Some? && IsGap(Lookup(previous, PriceKey(symbol)), r.price.value, t)
    ensures forall a | a in alerts :: a.severity == (if a.kind == SentimentShift then Medium else High)
    ensures forall i, j :: 0 <= i < j < |alerts| ==> KindRank(alerts[i].kind) < KindRank(alerts[j].kind)
    ensures forall a | a in alerts && a.kind == VolatilitySpike ::
              Some(a.current) == r.volatility && Some(a.previous) == Lookup(previous, VolatilityKey(symbol))
    ensures forall a | a in alerts && a.kind == SentimentShift ::
              Some(a.current) == r.sentiment && Some(a.previous) == Lookup(previous, SentimentKey(symbol))
    ensures forall a | a in alerts && a.kind == PriceGap ::
              Some(a.current) == r.price && Some(a.previous) == Lookup(previous, PriceKey(symbol))
  {
    var pv := Lookup(previous, VolatilityKey(symbol));
    var ps := Lookup(previous, SentimentKey(symbol));
    var pp := Lookup(previous, PriceKey(symbol));
    var v := AlertIf(r.volatility.Some? && IsSpike(pv, r.volatility.value, t), VolatilitySpike, symbol, High, r.volatility, pv);
    var s := AlertIf(r.sentiment.Some? && IsShift(ps, r.sentiment.value, t), SentimentShift, symbol, Medium, r.sentiment, ps);
    var p := AlertIf(r.price.Some? && IsGap(pp, r.price.value, t), PriceGap, symbol, High, r.price, pp);
    SlotsCombine(v, s, p, symbol, r.volatility.Some? && IsSpike(pv, r.volatility.value, t),
                 r.sentiment.Some? && IsShift(ps, r.sentiment.value, t), r.price.Some? && IsGap(pp, r.price.value, t),
                 r.volatility, pv, r.sentiment, ps, r.price, pp);
    v + s + p
  }

  /** `x` is what one check contributes: its single alert, built from `current` and
      `previous`, exactly when the check fires. */
  ghost predicate Slot(x: seq<Alert>, fires: bool, kind: AlertKind, symbol: string, severity: Severity,
                       current: Option<real>, previous: Option<real>)
  {
    && |x| <= 1 && (x != [] <==> fires)
    && forall a | a in x :: a.kind == kind && a.symbol == symbol && a.severity == severity
                            && Some(a.current) == current && Some(a.previous) == previous
  }

  /** One check's contribution: its alert when it fires, nothing otherwise. */
  function AlertIf(fires: bool, kind: AlertKind, symbol: string, severity: Severity,
                   current: Option<real>, previous: Option<real>): (x: seq<Alert>)
    requires fires ==> current.Some? && previous.Some?
    ensures Slot(x, fires, kind, symbol, severity, current, previous)
  {
    if fires then [Alert(kind, symbol, severity, current.value, previous.value)] else []
  }

  /** The volatility, sentiment and price slots, concatenated, describe the reading's alerts. */
  lemma SlotsCombine(v: seq<Alert>, s: seq<Alert>, p: seq<Alert>, symbol: string, fv: bool, fs: bool, fp: bool,
                     cv: Option<real>, pv: Option<real>, cs: Option<real>, ps: Option<real>, cp: Option<real>, pp: Option<real>)
    requires Slot(v, fv, VolatilitySpike, symbol, High, cv, pv)
    requires Slot(s, fs, SentimentShift, symbol, Medium, cs, ps)
    requires Slot(p, fp, PriceGap, symbol, High, cp, pp)
    ensures var w := v + s + p;
            && |w| <= 3
            && (forall a | a in w :: a.symbol == symbol)
            && ((exists a | a in w :: a.kind == VolatilitySpike) <==> fv)
            && ((exists a | a in w :: a.kind == SentimentShift) <==> fs)
            && ((exists a | a in w :: a.kind == PriceGap) <==> fp)
            && (forall a | a in w :: a.severity == (if a.kind == SentimentShift then Medium else High))
            && (forall i, j :: 0 <= i < j < |w| ==> KindRank(w[i].kind) < KindRank(w[j].kind))
            && (forall a | a in w && a.kind == VolatilitySpike :: Some(a.current) == cv && Some(a.previous) == pv)
            && (forall a | a in w && a.kind == SentimentShift :: Some(a.current) == cs && Some(a.previous) == ps)
            && (forall a | a in w && a.kind == PriceGap :: Some(a.current) == cp && Some(a.previous) == pp)
  {
    var w := v + s + p;
    assert forall a :: a in w <==> a in v || a in s || a in p;
    assert fv ==> v[0] in w;
    assert fs ==> s[0] in w;
    assert fp ==> p[0] in w;
    forall i | 0 <= i < |w|
      ensures KindRank(w[i].kind) == if i < |v| then 0 else if i < |v| + |s| then 1 else 2
    {
      if i < |v| { assert w[i] == v[i] && v[i] in v; }
      else if i < |v| + |s| { assert w[i] == s[i - |v|] && s[i - |v|] in s; }
      else { assert w[i] == p[i - |v| - |s|] && p[i - |v| - |s|] in p; }
    }
  }

  /** The previous values after a reading: every defined property is remembered. */
  function Remember(previous: map<string, real>, r: Reading, symbol: string): (m: map<string, real>)
  {
    var m1 := if r.volatility.Some? then previous[VolatilityKey(symbol) := r.volatility.value] else previous;
    var m2 := if r.sentiment.Some? then m1[SentimentKey(symbol) := r.sentiment.value] else m1;
    if r.price.Some? then m2[PriceKey(symbol) := r.price.value] else m2
  }

  lemma SuffixKeysDistinct(symbol: string)
    ensures VolatilityKey(symbol) != SentimentKey(symbol)
    ensures VolatilityKey(symbol) != PriceKey(symbol)
    ensures SentimentKey(symbol) != PriceKey(symbol)
  {
    assert VolatilityKey(symbol)[|symbol| + 1] == 'v';
    assert SentimentKey(symbol)[|symbol| + 1] == 's';
    assert PriceKey(symbol)[|symbol| + 1] == 'p';
  }

  /** A reading is stored under the symbol's three keys and nowhere else. */
  lemma RememberStoresReading(previous: map<string, real>, r: Reading, symbol: string)
    ensures var m := Remember(previous, r, symbol);
            Lookup(m, VolatilityKey(symbol)) == (if r.volatility.Some? then r.volatility else Lookup(previous, VolatilityKey(symbol))) &&
            Lookup(m, SentimentKey(symbol)) == (if r.sentiment.Some? then r.sentiment else Lookup(previous, SentimentKey(symbol))) &&
            Lookup(m, PriceKey(symbol)) == (if r.price.Some? then r.price else Lookup(previous, PriceKey(symbol))) &&
            forall k | k != VolatilityKey(symbol) && k != SentimentKey(symbol) && k != PriceKey(symbol) :: Lookup(m, k) == Lookup(previous, k)
  {
    SuffixKeysDistinct(symbol);
  }

  /** The first reading of a symbol never raises an alert: there is nothing to compare with. */
  lemma FirstReadingRaisesNothing(previous: map<string, real>, t: Thresholds, r: Reading, symbol: string)
    requires VolatilityKey(symbol) !in previous && SentimentKey(symbol) !in previous && PriceKey(symbol) !in previous
    ensures Detect(previous, t, r, symbol) == []
  {
  }

  /** Repeating the previous reading raises nothing when volatility is not negative
      and the thresholds are not negative. */
  lemma {:induction false} RepeatedReadingRaisesNothing(previous: map<string, real>, t: Thresholds, symbol: string)
    requires t.volatilitySpike >= 0.0 && t.sentimentShift >= 0.0 && t.priceGap >= 0.0
    requires VolatilityKey(symbol) in previous ==> previous[VolatilityKey(symbol)] >= 0.0
    ensures var r := Reading(Lookup(previous, VolatilityKey(symbol)), Lookup(previous, SentimentKey(symbol)), Lookup(previous, PriceKey(symbol)));
            Detect(previous, t, r, symbol) == []
  {
    var r := Reading(Lookup(previous, VolatilityKey(symbol)), Lookup(previous, SentimentKey(symbol)), Lookup(previous, PriceKey(symbol)));
    if r.volatility.Some? {
      var v := r.volatility.value;
      assert v * (1.0 + t.volatilitySpike / 100.0) == v + v * (t.volatilitySpike / 100.0);
      assert v * (t.volatilitySpike / 100.0) >= 0.0;
    }
    if r.price.Some? && r.price.value != 0.0 {
      assert (r.price.value - r.price.value) / r.price.value * 100.0 == 0.0;
    }
  }

  /** With the default thresholds, volatility that exactly reaches +50% is not a
      spike: the comparison is strict. */
  lemma ExactlyFiftyPercentIsNoSpike()
    ensures !IsSpike(Some(40.0), 60.0, DefaultThresholds)
    ensures IsSpike(Some(40.0), 60.5, DefaultThresholds)
  {
  }

  /** A zero previous price or volatility is falsy, so it never starts a comparison. */
  lemma ZeroPreviousIsIgnored(cur: real, t: Thresholds)
    ensures !IsSpike(Some(0.0), cur, t) && !IsGap(Some(0.0), cur, t)
  {
  }

  /** `{...thresholds, ...patch}` */
  function ApplyPatch(t: Thresholds, p: ThresholdPatch): (r: Thresholds)
    ensures r.volatilitySpike == (if p.volatilitySpike.Some? then p.volatilitySpike.value else t.volatilitySpike)
    ensures r.sentimentShift == (if p.sentimentShift.Some? then p.sentimentShift.value else t.sentimentShift)
    ensures r.priceGap == (if p.priceGap.Some? then p.priceGap.value else t.priceGap)
  {
    Thresholds(
      if p.volatilitySpike.Some? then p.volatilitySpike.value else t.volatilitySpike,
      if p.sentimentShift.Some? then p.sentimentShift.value else t.sentimentShift,
      if p.priceGap.Some? then p.priceGap.value else t.priceGap)
  }

  /** Keeping the last `MaxAlerts` after each push is the same as keeping the last
      `MaxAlerts` of the whole history. */
  lemma {:induction false} KeepLastPush(history: seq<Alert>, a: Alert)
    ensures LastN(LastN(history, MaxAlerts) + [a], MaxAlerts) == LastN(history + [a], MaxAlerts)
  {
    var h := LastN(history, MaxAlerts);
    var whole := history + [a];
    if |history| <= MaxAlerts {
      assert h == history;
    } else {
      assert h == history[|history| - MaxAlerts..];
      assert |h + [a]| == MaxAlerts + 1;
      assert LastN(h + [a], MaxAlerts) == (h + [a])[1..];
      assert LastN(whole, MaxAlerts) == whole[|whole| - MaxAlerts..];
      assert (h + [a])[1..] == whole[|whole| - MaxAlerts..];
    }
  }

  class AlertManager {
    /** The last emitted alerts, oldest first. */
    var alerts: seq<Alert>
    /** `${symbol}_volatility` etc. -> last value seen. */
    var previousData: map<string, real>
    var alertThresholds: Thresholds

    ghost predicate Valid()
      reads this
    {
      |alerts| <= MaxAlerts
    }

    constructor ()
      ensures Valid()
      ensures alerts == [] && previousData == map[] && alertThresholds == DefaultThresholds
    {
      alerts := [];
      previousData := map[];
      alertThresholds := DefaultThresholds;
    }

    /** Records one reading of `symbol`, emits and returns the alerts it raises. */
    method CheckForAlerts(r: Reading, symbol: string) returns (raised: seq<Alert>)
      requires Valid()
      modifies this
      ensures Valid()
      ensures raised == Detect(old(previousData), old(alertThresholds), r, symbol)
      ensures previousData == Remember(old(previousData), r, symbol)
      ensures alerts == LastN(old(alerts) + raised, MaxAlerts)
      ensures alertThresholds == old(alertThresholds)
    {
      raised := CompareAndRemember(r, symbol);
      EmitAll(raised);
    }

    /** `alerts.forEach(alert => this.emitAlert(alert))` */
    method EmitAll(raised: seq<Alert>)
      requires Valid()
      modifies this`alerts
      ensures Valid()
      ensures alerts == LastN(old(alerts) + raised, MaxAlerts)
    {
      ghost var before := alerts;
      var i := 0;
      while i < |raised|
        invariant 0 <= i <= |raised|
        invariant Valid()
        invariant alerts == LastN(before + raised[..i], MaxAlerts)
      {
        EmitAlert(raised[i]);
        KeepLastPush(before + raised[..i], raised[i]);
        assert before + raised[..i + 1] == before + raised[..i] + [raised[i]];
        i := i + 1;
      }
      assert raised[..i] == raised;
    }

    /** The three comparisons of `checkForAlerts`, each followed by storing the new value. */
    method CompareAndRemember(r: Reading, symbol: string) returns (raised: seq<Alert>)
      modifies this`previousData
      ensures raised == Detect(old(previousData), alertThresholds, r, symbol)
      ensures previousData == Remember(old(previousData), r, symbol)
    {
      SuffixKeysDistinct(symbol);
      ghost var pv := Lookup(previousData, VolatilityKey(symbol));
      ghost var ps := Lookup(previousData, SentimentKey(symbol));
      ghost var pp := Lookup(previousData, PriceKey(symbol));
      raised := [];
      if r.volatility.Some? {
        var prev := Lookup(previousData, VolatilityKey(symbol));
        if IsSpike(prev, r.volatility.value, alertThresholds) {
          raised := raised + [Alert(VolatilitySpike, symbol, High, r.volatility.value, prev.value)];
        }
        previousData := previousData[VolatilityKey(symbol) := r.volatility.value];
      }
      ghost var v := AlertIf(r.volatility.Some? && IsSpike(pv, r.volatility.value, alertThresholds),
                             VolatilitySpike, symbol, High, r.volatility, pv);
      assert raised == v;
      if r.sentiment.Some? {
        var prev := Lookup(previousData, SentimentKey(symbol));
        assert prev == ps;
        if IsShift(prev, r.sentiment.value, alertThresholds) {
          raised := raised + [Alert(SentimentShift, symbol, Medium, r.sentiment.value, prev.value)];
        }
        previousData := previousData[SentimentKey(symbol) := r.sentiment.value];
      }
      ghost var sv := AlertIf(r.sentiment.Some? && IsShift(ps, r.sentiment.value, alertThresholds),
                              SentimentShift, symbol, Medium, r.sentiment, ps);
      assert raised == v + sv;
      if r.price.Some? {
        var prev := Lookup(previousData, PriceKey(symbol));
        assert prev == pp;
        if IsGap(prev, r.price.value, alertThresholds) {
          raised := raised + [Alert(PriceGap, symbol, High, r.price.value, prev.value)];
        }
        previousData := previousData[PriceKey(symbol) := r.price.value];
      }
      assert raised == v + sv + AlertIf(r.price.Some? && IsGap(pp, r.price.value, alertThresholds),
                                        PriceGap, symbol, High, r.price, pp);
    }

    /** Appends an alert, dropping the oldest once more than `MaxAlerts` are held.
        The broadcast to connected clients is not modelled. */
    method EmitAlert(a: Alert)
      requires Valid()
      modifies this`alerts
      ensures Valid()
      ensures alerts == LastN(old(alerts) + [a], MaxAlerts)
    {
      alerts := alerts + [a];
      if |alerts| > MaxAlerts {
        alerts := alerts[1..];
      }
    }

    /** `alerts.slice(-limit)`: the last `limit` alerts for a positive limit, all of
        them for 0, and all but the first `-limit` for a negative limit. */
    method GetRecentAlerts(limit: int := DefaultRecentLimit) returns (recent: seq<Alert>)
      ensures limit > 0 ==> recent == LastN(alerts, limit)
      ensures limit == 0 ==> recent == alerts
      ensures limit < 0 ==> recent == alerts[(if -limit < |alerts| then -limit else |alerts|)..]
    {
      recent := SliceFrom(alerts, -limit);
    }

    method UpdateThresholds(patch: ThresholdPatch)
      requires Valid()
      modifies this`alertThresholds
      ensures Valid()
      ensures alertThresholds == ApplyPatch(old(alertThresholds), patch)
    {
      alertThresholds := ApplyPatch(alertThresholds, patch);
    }

    /** Forgets every previous value whose key starts with `symbol + "_"`. */
    method ClearSymbolData(symbol: string)
      requires Valid()
      modifies this`previousData
      ensures Valid()
      ensures previousData == map k | k in old(previousData) && !StartsWith(k, symbol + "_") :: old(previousData)[k]
    {
      var keysToDelete: set<string> := {};
      var pending := previousData.Keys;
      while pending != {}
        invariant pending <= previousData.Keys
        invariant keysToDelete == set k | k in previousData && k !in pending && StartsWith(k, symbol + "_")
        decreases pending
      {
        var k :| k in pending;
        if StartsWith(k, symbol + "_") {
          keysToDelete := keysToDelete + {k};
        }
        pending := pending - {k};
      }
      previousData := previousData - keysToDelete;
    }
  }
}
