/** The motor dimensioning engine: one motor's cable, breaker, contactor and
    starter, and the project-wide summary over a list of motors. Currents and
    powers are exact reals; labels are datatypes that carry their numbers. */
module Calculations {
  import opened Wrappers

  /** A catalog motor record. Only `cv` and `currentIn` drive the engine. */
  datatype Motor = Motor(
    cv: real,
    kw: real,
    model: string,
    currentIn: real,
    efficiency: real,
    powerFactor: real,
    frame: string,
    weight: real,
    rpm: real)

  /** One row of the cable table: cross-section in mm² and ampacity in A. */
  datatype CableRow = CableRow(size: real, amp: real)

  const CableCapacity: seq<CableRow> := [
    CableRow(1.5, 15.5),
    CableRow(2.5, 21.0),
    CableRow(4.0, 28.0),
    CableRow(6.0, 36.0),
    CableRow(10.0, 50.0),
    CableRow(16.0, 68.0),
    CableRow(25.0, 89.0),
    CableRow(35.0, 110.0),
    CableRow(50.0, 134.0),
    CableRow(70.0, 171.0),
    CableRow(95.0, 207.0),
    CableRow(120.0, 239.0),
    CableRow(150.0, 272.0)
  ]

  /** Required cable ampacity per ampere of nominal current. */
  const CableMargin: real := 1.5
  /** Molded-case breaker rating per ampere of nominal current. */
  const DwaMargin: real := 1.4
  /** Largest cv that still gets the MPW40 motor-protection breaker. */
  const MpwMaxCv: real := 40.0
  /** Main-breaker headroom over the total nominal current. */
  const MainBreakerMargin: real := 1.25
  /** Fixed cv-to-kW conversion of the summary. */
  const KwPerCv: real := 0.735
  const MainBreakerRatings: seq<int> := [40, 63, 100, 125, 160, 200, 250, 400, 630, 800]
  const MainBreakerFallback: int := 1250

  const ProtectionType: string := "W22 IE3"
  const SoftStarterModel: string := "SSW07"
  const InverterModel: string := "CFW500"

  /** The motor breaker: MPW40 carrying the nominal current, or DWA with its rating in A. */
  datatype Breaker = MPW40(current: real) | DWA(rating: int)

  /** The contactor ladder, smallest first. */
  datatype Contactor = CWM9 | CWM12 | CWM18 | CWM25 | CWM32 | CWM40 | CWM50

  const ContactorLadder: seq<Contactor> := [CWM9, CWM12, CWM18, CWM25, CWM32, CWM40, CWM50]

  /** The current (A) in a contactor's code. */
  function Rating(c: Contactor): nat
  {
    match c
    case CWM9 => 9
    case CWM12 => 12
    case CWM18 => 18
    case CWM25 => 25
    case CWM32 => 32
    case CWM40 => 40
    case CWM50 => 50
  }

  /** What the engine recommends for one motor. The cable is its cross-section
      in mm²; `softStarter` and `inverter` are the optional starter models. */
  datatype DimensioningResult = DimensioningResult(
    motor: Motor,
    circuitBreaker: Breaker,
    cableSize: real,
    contactor: Contactor,
    protectionType: string,
    softStarter: Option<string>,
    inverter: Option<string>)

  /** The project-wide summary. Totals are the exact sums, before the one-decimal rounding. */
  datatype ProjectSummary = ProjectSummary(
    motorCount: nat,
    totalCv: real,
    totalKw: real,
    totalIn: real,
    mainBreaker: int,
    details: seq<DimensioningResult>)

  // ---------------------------------------------------------------------------
  // Array.prototype.find / findIndex

  /** The index of the first element at or after `from` that satisfies `p`. */
  function Find<T>(s: seq<T>, p: T -> bool, from: nat): (r: Option<nat>)
    requires from <= |s|
    ensures r.Some? ==> from <= r.value < |s| && p(s[r.value])
    ensures r.Some? ==> forall j :: from <= j < r.value ==> !p(s[j])
    ensures r.None? ==> forall j :: from <= j < |s| ==> !p(s[j])
    decreases |s| - from
  {
    if from == |s| then None
    else if p(s[from]) then Some(from)
    else Find(s, p, from + 1)
  }

  /** A row whose ampacity covers `target`. */
  function Fits(target: real): CableRow -> bool
  {
    (c: CableRow) => c.amp >= target
  }

  /** A row of the given cross-section. */
  function HasSize(size: real): CableRow -> bool
  {
    (c: CableRow) => c.size == size
  }

  /** A contactor rated for `current`. */
  function Covers(current: real): Contactor -> bool
  {
    (c: Contactor) => Rating(c) as real >= current
  }

  /** A main-breaker rating at least `need`. */
  function AtLeast(need: real): int -> bool
  {
    (r: int) => r as real >= need
  }

  // ---------------------------------------------------------------------------
  // Cable

  /** Both columns of the cable table increase strictly. */
  lemma CableTableAscending()
    ensures forall i, j :: 0 <= i < j < |CableCapacity| ==>
      CableCapacity[i].size < CableCapacity[j].size && CableCapacity[i].amp < CableCapacity[j].amp
  {
  }

  /** The ampacity-driven choice: the first row covering 1.5 × In, else the largest row. */
  function BaseCableIndex(currentIn: real): (i: nat)
    ensures i < |CableCapacity|
    ensures (exists j :: 0 <= j < |CableCapacity| && CableCapacity[j].amp >= currentIn * CableMargin) ==>
      CableCapacity[i].amp >= currentIn * CableMargin
      && forall j :: 0 <= j < i ==> CableCapacity[j].amp < currentIn * CableMargin
    ensures (forall j :: 0 <= j < |CableCapacity| ==> CableCapacity[j].amp < currentIn * CableMargin) ==>
      i == |CableCapacity| - 1
  {
    match Find(CableCapacity, Fits(currentIn * CableMargin), 0)
    case Some(i) => i
    case None => |CableCapacity| - 1
  }

  function BaseCable(currentIn: real): CableRow
  {
    CableCapacity[BaseCableIndex(currentIn)]
  }

  /** The minimum cross-section (mm²) of the motor's cv band; no floor above 100 cv. */
  function BandFloor(cv: real): (floor: Option<real>)
    ensures floor.Some? <==> cv <= 100.0
    ensures floor.Some? ==> 1.5 <= floor.value <= 50.0
  {
    if cv <= 1.0 then Some(1.5)
    else if cv <= 4.0 then Some(2.5)
    else if cv <= 6.0 then Some(4.0)
    else if cv <= 12.5 then Some(6.0)
    else if cv <= 20.0 then Some(10.0)
    else if cv <= 30.0 then Some(16.0)
    else if cv <= 50.0 then Some(25.0)
    else if cv <= 75.0 then Some(35.0)
    else if cv <= 100.0 then Some(50.0)
    else None
  }

  function Max(a: real, b: real): real
  {
    if a < b then b else a
  }

  /** The recommended cross-section: the ampacity-driven size raised to the band floor. */
  function CableSize(cv: real, currentIn: real): (size: real)
    ensures size >= BaseCable(currentIn).size
    ensures BandFloor(cv).Some? ==> size >= BandFloor(cv).value
    ensures size == BaseCable(currentIn).size || (BandFloor(cv).Some? && size == BandFloor(cv).value)
  {
    match BandFloor(cv)
    case None => BaseCable(currentIn).size
    case Some(floor) => Max(BaseCable(currentIn).size, floor)
  }

  /** The table row of a given cross-section (the source's `find(...)!`). */
  function RowOfSize(size: real): (r: CableRow)
    requires exists k :: 0 <= k < |CableCapacity| && CableCapacity[k].size == size
    ensures r in CableCapacity && r.size == size
  {
    var i := Find(CableCapacity, HasSize(size), 0);
    CableCapacity[i.value]
  }

  /** Every floor is a cross-section of the table. */
  lemma FloorInTable(cv: real)
    requires BandFloor(cv).Some?
    ensures exists k :: 0 <= k < |CableCapacity| && CableCapacity[k].size == BandFloor(cv).value
  {
    var f := BandFloor(cv).value;
    var k :=
      if f == 1.5 then 0 else if f == 2.5 then 1 else if f == 4.0 then 2
      else if f == 6.0 then 3 else if f == 10.0 then 4 else if f == 16.0 then 5
      else if f == 25.0 then 6 else if f == 35.0 then 7 else 8;
    assert CableCapacity[k].size == f;
  }

  /** The recommended cross-section is always a row of the table, never below the band floor
      and never below the ampacity-driven choice. */
  lemma CableSizeInTable(cv: real, currentIn: real)
    ensures exists k :: 0 <= k < |CableCapacity| && CableCapacity[k].size == CableSize(cv, currentIn)
    ensures BandFloor(cv).Some? ==> CableSize(cv, currentIn) >= BandFloor(cv).value
    ensures CableSize(cv, currentIn) >= BaseCable(currentIn).size
  {
    var base := BaseCableIndex(currentIn);
    if BandFloor(cv).Some? && BaseCable(currentIn).size < BandFloor(cv).value {
      FloorInTable(cv);
    } else {
      assert CableCapacity[base].size == CableSize(cv, currentIn);
    }
  }

  /** Whenever some row of the table carries 1.5 × In, the recommended row does too: raising
      the cable to the band floor never loses ampacity. */
  lemma CableCarriesCurrent(cv: real, currentIn: real)
    requires currentIn * CableMargin <= CableCapacity[|CableCapacity| - 1].amp
    ensures exists k :: 0 <= k < |CableCapacity|
                     && CableCapacity[k].size == CableSize(cv, currentIn)
                     && CableCapacity[k].amp >= currentIn * CableMargin
  {
    var base := BaseCableIndex(currentIn);
    assert CableCapacity[base].amp >= currentIn * CableMargin;
    if BandFloor(cv).Some? && BaseCable(currentIn).size < BandFloor(cv).value {
      FloorInTable(cv);
      var k :| 0 <= k < |CableCapacity| && CableCapacity[k].size == BandFloor(cv).value;
      CableTableAscending();
      assert base < k;
      assert CableCapacity[k].amp >= currentIn * CableMargin;
    } else {
      assert CableCapacity[base].size == CableSize(cv, currentIn);
    }
  }

  /** A larger current never gets an earlier row of the table. */
  lemma BaseCableIndexMonotone(in1: real, in2: real)
    requires in1 <= in2
    ensures BaseCableIndex(in1) <= BaseCableIndex(in2)
  {
    var i2 := BaseCableIndex(in2);
    if CableCapacity[i2].amp >= in2 * CableMargin {
      assert CableCapacity[i2].amp >= in1 * CableMargin;
    }
  }

  /** A larger current never gets a thinner ampacity-driven cable. */
  lemma BaseCableMonotone(in1: real, in2: real)
    requires in1 <= in2
    ensures BaseCable(in1).size <= BaseCable(in2).size
  {
    BaseCableIndexMonotone(in1, in2);
    CableTableAscending();
  }

  /** For a fixed cv, the cross-section does not decrease as In grows. */
  lemma CableSizeMonotoneInCurrent(cv: real, in1: real, in2: real)
    requires in1 <= in2
    ensures CableSize(cv, in1) <= CableSize(cv, in2)
  {
    BaseCableMonotone(in1, in2);
  }

  /** The band floor does not decrease with cv while a floor applies. */
  lemma BandFloorMonotone(cv1: real, cv2: real)
    requires cv1 <= cv2 <= 100.0
    ensures BandFloor(cv1).Some? && BandFloor(cv2).Some?
    ensures BandFloor(cv1).value <= BandFloor(cv2).value
  {
  }

  /** For a fixed In, the cross-section does not decrease as cv grows, as long as both
      motors are on the same side of 100 cv. */
  lemma CableSizeMonotoneInCv(cv1: real, cv2: real, currentIn: real)
    requires cv1 <= cv2
    requires cv2 <= 100.0 || cv1 > 100.0
    ensures CableSize(cv1, currentIn) <= CableSize(cv2, currentIn)
  {
    if cv2 <= 100.0 {
      BandFloorMonotone(cv1, cv2);
    }
  }

  /** Above 100 cv no floor applies, so a larger motor can get a smaller cable than a
      100 cv motor with the same current. */
  lemma NoFloorAbove100Cv()
    ensures CableSize(100.0, 1.0) == 50.0
    ensures CableSize(101.0, 1.0) == 1.5
  {
    assert BaseCableIndex(1.0) == 0;
  }

  // ---------------------------------------------------------------------------
  // Breaker, contactor, starters

  /** Math.ceil on exact reals. */
  function Ceil(x: real): (r: int)
    ensures x <= r as real < x + 1.0
  {
    -((-x).Floor)
  }

  /** MPW40 up to and including 40 cv, carrying In; above, DWA rated at the least whole
      ampere covering 1.4 × In. */
  function BreakerFor(motor: Motor): (b: Breaker)
    ensures b.MPW40? <==> motor.cv <= 40.0
    ensures b.MPW40? ==> b.current == motor.currentIn
    ensures b.DWA? ==> motor.currentIn * 1.4 <= b.rating as real < motor.currentIn * 1.4 + 1.0
  {
    if motor.cv <= MpwMaxCv then MPW40(motor.currentIn)
    else DWA(Ceil(motor.currentIn * DwaMargin))
  }

  /** The ladder step for In: the first contactor rated for In, or CWM50 above the top. */
  function ContactorFor(currentIn: real): (c: Contactor)
    ensures c in ContactorLadder
    ensures Rating(c) as real >= currentIn || c == CWM50
  {
    match Find(ContactorLadder, Covers(currentIn), 0)
    case Some(i) => ContactorLadder[i]
    case None => CWM50
  }

  /** CWM9 up to 9 A, CWM50 above 40 A, otherwise the smallest step rated for In. */
  lemma ContactorSteps(currentIn: real)
    ensures currentIn <= 9.0 ==> ContactorFor(currentIn) == CWM9
    ensures currentIn > 40.0 ==> ContactorFor(currentIn) == CWM50
    ensures currentIn <= 50.0 ==> Rating(ContactorFor(currentIn)) as real >= currentIn
    ensures forall c :: c in ContactorLadder && Rating(c) as real >= currentIn ==>
      Rating(ContactorFor(currentIn)) <= Rating(c)
  {
    var r := Find(ContactorLadder, Covers(currentIn), 0);
    if currentIn <= 9.0 {
      assert Covers(currentIn)(ContactorLadder[0]);
    }
    if currentIn <= 50.0 {
      assert Covers(currentIn)(ContactorLadder[6]);
    }
    forall c | c in ContactorLadder && Rating(c) as real >= currentIn
      ensures Rating(ContactorFor(currentIn)) <= Rating(c)
    {
      var k :| 0 <= k < |ContactorLadder| && ContactorLadder[k] == c;
      assert Covers(currentIn)(ContactorLadder[k]);
    }
  }

  /** A larger current never gets a smaller contactor. */
  lemma ContactorMonotone(in1: real, in2: real)
    requires in1 <= in2
    ensures Rating(ContactorFor(in1)) <= Rating(ContactorFor(in2))
  {
    var r2 := Find(ContactorLadder, Covers(in2), 0);
    if r2.Some? {
      assert Covers(in1)(ContactorLadder[r2.value]);
    }
  }

  /** The full recommendation for one motor, stated declaratively. */
  function Dimension(motor: Motor): (r: DimensioningResult)
    ensures r.circuitBreaker.MPW40? <==> motor.cv <= 40.0
    ensures r.softStarter.Some? <==> motor.cv >= 10.0
    ensures r.inverter.Some? <==> 1.0 <= motor.cv < 10.0
  {
    DimensioningResult(
      motor,
      BreakerFor(motor),
      CableSize(motor.cv, motor.currentIn),
      ContactorFor(motor.currentIn),
      ProtectionType,
      if motor.cv >= 10.0 then Some(SoftStarterModel) else None,
      if 1.0 <= motor.cv < 10.0 then Some(InverterModel) else None)
  }

  /** Soft-starter from 10 cv, inverter in [1, 10) cv, never both, neither below 1 cv. */
  lemma StarterBands(motor: Motor)
    ensures !(Dimension(motor).softStarter.Some? && Dimension(motor).inverter.Some?)
    ensures Dimension(motor).softStarter.None? && Dimension(motor).inverter.None? <==> motor.cv < 1.0
    ensures Dimension(motor).protectionType == "W22 IE3"
  {
  }

  /** Lines 24-34 step by step: the first fitting row, then nine independent guarded
      raises to the band floor. Together they pick the larger of the two sizes. */
  method SelectCable(cv: real, currentIn: real) returns (selected: CableRow)
    ensures selected in CableCapacity
    ensures selected.size == CableSize(cv, currentIn)
  {
    selected := BaseCable(currentIn);
    if BandFloor(cv).Some? { FloorInTable(cv); }

    if cv <= 1.0 && selected.size < 1.5 { selected := RowOfSize(1.5); }
    if cv > 1.0 && cv <= 4.0 && selected.size < 2.5 { selected := RowOfSize(2.5); }
    if cv > 4.0 && cv <= 6.0 && selected.size < 4.0 { selected := RowOfSize(4.0); }
    if cv > 6.0 && cv <= 12.5 && selected.size < 6.0 { selected := RowOfSize(6.0); }
    if cv > 12.5 && cv <= 20.0 && selected.size < 10.0 { selected := RowOfSize(10.0); }
    if cv > 20.0 && cv <= 30.0 && selected.size < 16.0 { selected := RowOfSize(16.0); }
    if cv > 30.0 && cv <= 50.0 && selected.size < 25.0 { selected := RowOfSize(25.0); }
    if cv > 50.0 && cv <= 75.0 && selected.size < 35.0 { selected := RowOfSize(35.0); }
    if cv > 75.0 && cv <= 100.0 && selected.size < 50.0 { selected := RowOfSize(50.0); }
  }

  /** Lines 39-45 step by step: six sequential tests that each may bump the contactor. */
  method SelectContactor(currentIn: real) returns (contactor: Contactor)
    ensures contactor == ContactorFor(currentIn)
  {
    contactor := CWM9;
    if currentIn > 9.0 { contactor := CWM12; }
    if currentIn > 12.0 { contactor := CWM18; }
    if currentIn > 18.0 { contactor := CWM25; }
    if currentIn > 25.0 { contactor := CWM32; }
    if currentIn > 32.0 { contactor := CWM40; }
    if currentIn > 40.0 { contactor := CWM50; }
    ContactorSteps(currentIn);
  }

  /** `calculateDimensioning`: the source's computation, which agrees with `Dimension`. */
  method CalculateDimensioning(motor: Motor) returns (r: DimensioningResult)
    ensures r == Dimension(motor)
  {
    var currentIn := motor.currentIn;
    var selected := SelectCable(motor.cv, currentIn);
    var breakerVal := Ceil(currentIn * DwaMargin);
    var breaker := if motor.cv <= MpwMaxCv then MPW40(currentIn) else DWA(breakerVal);
    var contactor := SelectContactor(currentIn);
    assert breaker == BreakerFor(motor);
    r := DimensioningResult(
      motor,
      breaker,
      selected.size,
      contactor,
      ProtectionType,
      if motor.cv >= 10.0 then Some(SoftStarterModel) else None,
      if motor.cv >= 1.0 && motor.cv < 10.0 then Some(InverterModel) else None);
  }

  // ---------------------------------------------------------------------------
  // Project summary

  /** Left fold of `reduce((acc, m) => acc + m.cv, 0)`. */
  function SumCv(motors: seq<Motor>): (total: real)
    ensures motors == [] ==> total == 0.0
    ensures (forall i :: 0 <= i < |motors| ==> motors[i].cv >= 0.0) ==> total >= 0.0
  {
    if motors == [] then 0.0 else SumCv(motors[..|motors| - 1]) + motors[|motors| - 1].cv
  }

  /** Left fold of `reduce((acc, m) => acc + m.currentIn, 0)`. */
  function SumIn(motors: seq<Motor>): (total: real)
    ensures motors == [] ==> total == 0.0
    ensures (forall i :: 0 <= i < |motors| ==> motors[i].currentIn >= 0.0) ==> total >= 0.0
  {
    if motors == [] then 0.0 else SumIn(motors[..|motors| - 1]) + motors[|motors| - 1].currentIn
  }

  /** The two sums split over a concatenation. */
  lemma {:induction false} SumsAppend(a: seq<Motor>, b: seq<Motor>)
    ensures SumCv(a + b) == SumCv(a) + SumCv(b)
    ensures SumIn(a + b) == SumIn(a) + SumIn(b)
    decreases |b|
  {
    if b == [] {
      assert a + b == a;
    } else {
      var last := b[|b| - 1];
      assert (a + b)[..|a + b| - 1] == a + b[..|b| - 1];
      SumsAppend(a, b[..|b| - 1]);
    }
  }

  /** The main breaker: the first standard rating covering 1.25 × total In, else 1250 A. */
  function MainBreaker(totalIn: real): (r: int)
    ensures r in MainBreakerRatings || r == MainBreakerFallback
    ensures r == MainBreakerFallback <==>
      forall k :: 0 <= k < |MainBreakerRatings| ==> (MainBreakerRatings[k] as real) < totalIn * MainBreakerMargin
  {
    match Find(MainBreakerRatings, AtLeast(totalIn * MainBreakerMargin), 0)
    case Some(i) => MainBreakerRatings[i]
    case None => MainBreakerFallback
  }

  /** The standard ratings increase strictly. */
  lemma RatingsAscending()
    ensures forall i, j :: 0 <= i < j < |MainBreakerRatings| ==> MainBreakerRatings[i] < MainBreakerRatings[j]
  {
  }

  /** The main breaker covers 1.25 × total In unless the fallback is used, and it is the
      smallest standard rating that does. */
  lemma MainBreakerIsSmallestSufficient(totalIn: real)
    ensures MainBreaker(totalIn) != MainBreakerFallback ==> MainBreaker(totalIn) as real >= totalIn * 1.25
    ensures forall k :: 0 <= k < |MainBreakerRatings| && MainBreakerRatings[k] as real >= totalIn * 1.25 ==>
      MainBreaker(totalIn) <= MainBreakerRatings[k]
  {
    RatingsAscending();
  }

  /** A larger total current never gets a smaller main breaker. */
  lemma MainBreakerMonotone(t1: real, t2: real)
    requires t1 <= t2
    ensures MainBreaker(t1) <= MainBreaker(t2)
  {
    var r2 := Find(MainBreakerRatings, AtLeast(t2 * MainBreakerMargin), 0);
    RatingsAscending();
    if r2.Some? {
      assert AtLeast(t1 * MainBreakerMargin)(MainBreakerRatings[r2.value]);
    }
  }

  /** `calculateGeneralSummary`: totals, main breaker and one detail per motor, in order. */
  function GeneralSummary(motors: seq<Motor>): (s: ProjectSummary)
    ensures |s.details| == |motors|
    ensures forall i :: 0 <= i < |motors| ==> s.details[i] == Dimension(motors[i])
  {
    var totalCv := SumCv(motors);
    var totalIn := SumIn(motors);
    ProjectSummary(
      |motors|,
      totalCv,
      totalCv * KwPerCv,
      totalIn,
      MainBreaker(totalIn),
      Details(motors))
  }

  /** One dimensioning per motor, in the list's order. */
  function Details(motors: seq<Motor>): seq<DimensioningResult>
  {
    seq(|motors|, i requires 0 <= i < |motors| => Dimension(motors[i]))
  }

  /** An empty list: no motors, zero totals, no details, the 40 A main breaker. */
  lemma EmptySummary()
    ensures GeneralSummary([]) == ProjectSummary(0, 0.0, 0.0, 0.0, 40, [])
  {
  }

  /** A one-motor list: the totals are that motor's own ratings. */
  lemma SingleMotorSummary(m: Motor)
    ensures GeneralSummary([m]).motorCount == 1
    ensures GeneralSummary([m]).totalCv == m.cv
    ensures GeneralSummary([m]).totalIn == m.currentIn
    ensures GeneralSummary([m]).totalKw == m.cv * 0.735
    ensures GeneralSummary([m]).details == [Dimension(m)]
  {
    assert [m][..0] == [];
    assert SumCv([m]) == m.cv && SumIn([m]) == m.currentIn;
    var s := GeneralSummary([m]);
    assert |s.details| == 1 && s.details[0] == Dimension(m);
  }

  /** The details of two lists put together are the two detail lists one after the other. */
  lemma DetailsAppend(a: seq<Motor>, b: seq<Motor>)
    ensures GeneralSummary(a + b).details == GeneralSummary(a).details + GeneralSummary(b).details
  {
    var d, da, db := Details(a + b), Details(a), Details(b);
    forall i | 0 <= i < |d| ensures d[i] == (da + db)[i] {
      if i < |a| {
        assert (a + b)[i] == a[i];
      } else {
        assert (a + b)[i] == b[i - |a|];
      }
    }
  }

  /** The summary of two lists put together: counts and totals add up, and the
      details are the two detail lists one after the other. */
  lemma SummaryAppend(a: seq<Motor>, b: seq<Motor>)
    ensures GeneralSummary(a + b).motorCount == GeneralSummary(a).motorCount + GeneralSummary(b).motorCount
    ensures GeneralSummary(a + b).totalCv == GeneralSummary(a).totalCv + GeneralSummary(b).totalCv
    ensures GeneralSummary(a + b).totalIn == GeneralSummary(a).totalIn + GeneralSummary(b).totalIn
    ensures GeneralSummary(a + b).totalKw == GeneralSummary(a).totalKw + GeneralSummary(b).totalKw
    ensures GeneralSummary(a + b).details == GeneralSummary(a).details + GeneralSummary(b).details
  {
    SumsAppend(a, b);
    DetailsAppend(a, b);
  }

  /** Adding a motor that draws current never lowers the main breaker. */
  lemma MainBreakerGrowsWithMotors(motors: seq<Motor>, m: Motor)
    requires m.currentIn >= 0.0
    ensures GeneralSummary(motors).mainBreaker <= GeneralSummary(motors + [m]).mainBreaker
  {
    SumsAppend(motors, [m]);
    assert [m][..0] == [];
    MainBreakerMonotone(SumIn(motors), SumIn(motors + [m]));
  }
}
