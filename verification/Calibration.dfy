/** The load cell's zero-point calibration (pad_server/src/sensors.c), over reals. */
module Calibration {
  import opened Protocol

  const READINGS := 10

  /** Conversion to `long`: truncation toward zero. */
  function Truncate(x: real): (n: int)
    ensures x >= 0.0 ==> n as real <= x < n as real + 1.0
    ensures x <= 0.0 ==> n as real - 1.0 < x <= n as real
  {
    if x >= 0.0 then x.Floor else -((-x).Floor)
  }

  /** The readings among the first `n` fetches; a fetch may yield nothing. */
  function Readings(fetches: seq<Option<real>>): seq<real> {
    if fetches == [] then []
    else
      Readings(fetches[..|fetches| - 1]) +
      match fetches[|fetches| - 1] case Some(x) => [x] case None => []
  }

  /** The accumulator after adding a tenth of each reading and truncating each time. */
  function ZeroPoint(rs: seq<real>): int {
    if rs == [] then 0 else Truncate(ZeroPoint(rs[..|rs| - 1]) as real + rs[|rs| - 1] / 10.0)
  }

  function Sum(rs: seq<real>): real {
    if rs == [] then 0.0 else Sum(rs[..|rs| - 1]) + rs[|rs| - 1]
  }

  /** Each addition loses less than one. */
  lemma {:induction false} TruncationLoss(rs: seq<real>)
    ensures -(|rs| as real) <= ZeroPoint(rs) as real - Sum(rs) / 10.0 <= |rs| as real
    ensures rs != [] ==> -(|rs| as real) < ZeroPoint(rs) as real - Sum(rs) / 10.0 < |rs| as real
    ensures (forall i | 0 <= i < |rs| :: rs[i] >= 0.0) ==> 0 <= ZeroPoint(rs) && ZeroPoint(rs) as real <= Sum(rs) / 10.0
  {
    if rs != [] {
      var init := rs[..|rs| - 1];
      TruncationLoss(init);
      var x := ZeroPoint(init) as real + rs[|rs| - 1] / 10.0;
      assert Sum(rs) / 10.0 == Sum(init) / 10.0 + rs[|rs| - 1] / 10.0;
      assert -1.0 < Truncate(x) as real - x < 1.0;
    }
  }

  /** Ten readings: the zero point is less than ten away from their mean, and never above it
      when no reading is negative. */
  lemma CalibrationBound(rs: seq<real>)
    requires |rs| == READINGS
    ensures -10.0 < ZeroPoint(rs) as real - Sum(rs) / 10.0 < 10.0
    ensures (forall i | 0 <= i < |rs| :: rs[i] >= 0.0) ==> ZeroPoint(rs) as real <= Sum(rs) / 10.0
  {
    TruncationLoss(rs);
  }

  /** Any steady reading below ten is lost altogether, so no bound smaller than ten holds. */
  lemma {:induction false} SteadyReadingIsLost(x: real, n: nat)
    requires 0.0 <= x < 10.0
    ensures ZeroPoint(seq(n, _ => x)) == 0
    ensures Sum(seq(n, _ => x)) == n as real * x
  {
    if n > 0 {
      SteadyReadingIsLost(x, n - 1);
      assert seq(n, _ => x)[..n - 1] == seq(n - 1, _ => x);
    }
  }

  lemma BoundIsTight(bound: real)
    requires bound < 10.0
    ensures exists rs: seq<real> :: |rs| == READINGS && Sum(rs) / 10.0 - ZeroPoint(rs) as real >= bound && Sum(rs) / 10.0 < 10.0
  {
    var x := if bound < 0.0 then 0.0 else bound;
    SteadyReadingIsLost(x, 10);
    var rs := seq(10, _ => x);
    assert |rs| == READINGS;
  }

  lemma {:induction false} ReadingsSplit(a: seq<Option<real>>, b: seq<Option<real>>)
    ensures Readings(a + b) == Readings(a) + Readings(b)
    decreases |b|
  {
    if b == [] {
      assert a + b == a;
    } else {
      var n := |b| - 1;
      ReadingsSplit(a, b[..n]);
      assert (a + b)[..|a + b| - 1] == a + b[..n];
    }
  }

  /** Every fetch that yields a sample is a reading, whatever its value, and no other is. */
  lemma ReadingsOfOne(fetch: Option<real>)
    ensures Readings([fetch]) == if fetch.Some? then [fetch.value] else []
  {
    assert [fetch][..0] == [];
  }

  /** A reading is added, a tenth of it, to what was kept so far, and the sum truncated. */
  lemma ZeroPointNext(rs: seq<real>, x: real)
    ensures ZeroPoint([]) == 0
    ensures var sum := ZeroPoint(rs) as real + x / 10.0;
            ZeroPoint(rs + [x]) == if sum >= 0.0 then sum.Floor else -((-sum).Floor)
  {
    assert (rs + [x])[..|rs|] == rs;
  }

  /** One more fetch, and what it adds to the readings and to the sum of those after the flush. */
  lemma NextReading(fetches: seq<Option<real>>, used: nat)
    requires used < |fetches|
    ensures var rs, rs' := Readings(fetches[..used]), Readings(fetches[..used + 1]);
            && (fetches[used].None? ==> rs' == rs)
            && (fetches[used].Some? ==> rs' == rs + [fetches[used].value])
            && (fetches[used].Some? && |rs| >= READINGS ==>
                  ZeroPoint(rs'[READINGS..]) == Truncate(ZeroPoint(rs[READINGS..]) as real + fetches[used].value / 10.0))
  {
    assert fetches[..used + 1][..used] == fetches[..used];
    var rs := Readings(fetches[..used]);
    if fetches[used].Some? && |rs| >= READINGS {
      var x := fetches[used].value;
      assert (rs + [x])[READINGS..] == rs[READINGS..] + [x];
      assert (rs[READINGS..] + [x])[..|rs| - READINGS] == rs[READINGS..];
    }
  }

  /** Before the first fetch, and before the first reading to be accumulated. */
  lemma NothingRead(fetches: seq<Option<real>>)
    ensures Readings(fetches[..0]) == []
    ensures forall rs: seq<real> | |rs| == READINGS :: ZeroPoint(rs[READINGS..]) == 0
  {
  }

  class MassSensor {
    var zeroPoint: int
    var force: real

    /** `sensor_mass_fetch`: a failed fetch leaves the last sample in place. */
    method Fetch(sample: Option<real>) returns (err: int)
      modifies `force
      ensures if sample.Some? then err == 0 && force == sample.value else err == -1 && force == old(force)
    {
      match sample {
        case Some(x) =>
          force := x;
          err := 0;
        case None => err := -1;
      }
    }

    /** Ten readings flushed, then ten accumulated, every failed fetch retried. `fetches` is
        what the sensor will yield; `done` is false if it yields too few readings to finish. */
    method Calibrate(fetches: seq<Option<real>>) returns (done: bool, used: nat)
      modifies this
      ensures used <= |fetches|
      ensures done <==> |Readings(fetches)| >= 2 * READINGS
      ensures done ==>
                var rs := Readings(fetches[..used]);
                && |rs| == 2 * READINGS && fetches[used - 1].Some? && zeroPoint == ZeroPoint(rs[READINGS..])
                && -10.0 < zeroPoint as real - Sum(rs[READINGS..]) / 10.0 < 10.0
    {
      hide Readings, ZeroPoint, Sum, Truncate;
      NothingRead(fetches);
      used := 0;
      var i := 0;
      while i < READINGS
        invariant 0 <= i <= READINGS && used <= |fetches| && |Readings(fetches[..used])| == i
        decreases |fetches| - used
      {
        if used == |fetches| {
          assert fetches[..used] == fetches;
          return false, used;
        }
        NextReading(fetches, used);
        var err := Fetch(fetches[used]);
        used := used + 1;
        if err < 0 {
          i := i - 1;
        }
        i := i + 1;
      }
      ghost var flushed := Readings(fetches[..used]);
      zeroPoint := 0;
      i := 0;
      while i < READINGS
        invariant 0 <= i <= READINGS && used <= |fetches|
        invariant flushed <= Readings(fetches[..used]) && |flushed| == READINGS
        invariant |Readings(fetches[..used])| == READINGS + i
        invariant zeroPoint == ZeroPoint(Readings(fetches[..used])[READINGS..])
        invariant i == READINGS ==> used > 0 && fetches[used - 1].Some?
        decreases |fetches| - used
      {
        if used == |fetches| {
          assert fetches[..used] == fetches;
          return false, used;
        }
        NextReading(fetches, used);
        var err := Fetch(fetches[used]);
        used := used + 1;
        if err < 0 {
          i := i - 1;
        } else {
          zeroPoint := Truncate(zeroPoint as real + force / 10.0);
        }
        i := i + 1;
      }
      assert fetches == fetches[..used] + fetches[used..];
      ReadingsSplit(fetches[..used], fetches[used..]);
      CalibrationBound(Readings(fetches[..used])[READINGS..]);
      done := true;
    }
  }
}
