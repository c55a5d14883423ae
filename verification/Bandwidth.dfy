/** Stream reservation sizes: how an IP publisher endpoint turns the largest payload of its
    service into the frame size it reserves for every class measurement interval (CMI).
    Lengths are bytes and intervals are exact reals; `overhead` stands for the preamble, start
    frame delimiter, inter-frame gap and safety byte that the reservation table adds per frame. */
module Bandwidth {
  import opened Base

  function Ceil(x: real): int {
    -((-x).Floor)
  }

  lemma CeilIsLeast(x: real, k: int)
    ensures Ceil(x) <= k <==> x <= k as real
  {
  }

  // ------------------------------------------------------------------ normalisation

  /** The frame size shared out over `ratio` intervals, less the overhead that each adds. */
  function PerInterval(framesize: real, ratio: real, overhead: real): real
    requires ratio != 0.0
  {
    var correction := (ratio - 1.0) * overhead;
    (framesize - correction) / ratio
  }

  function NormalizedSize(l2Framesize: nat, interval: real, cmi: real, overhead: nat): int
    requires 0.0 < interval && 0.0 < cmi
  {
    RatioPositive(interval, cmi);
    Ceil(PerInterval(l2Framesize as real, interval / cmi, overhead as real))
  }

  function NormalizeFramesizeForCMI(l2Framesize: nat, interval: real, cmi: real, overhead: nat,
                                    errorOnNegativeResult: bool): Result<int>
    requires 0.0 < interval && 0.0 < cmi
  {
    var framesize := NormalizedSize(l2Framesize, interval, cmi, overhead);
    if errorOnNegativeResult && framesize < 0 then Err(NegativeFramesize) else Ok(framesize)
  }

  /** Reserving n bytes per CMI carries a frame of `l2Framesize` bytes per `interval`. */
  ghost predicate Suffices(n: int, l2Framesize: nat, interval: real, cmi: real, overhead: nat) {
    (n + overhead) as real * interval >= (l2Framesize + overhead) as real * cmi
  }

  lemma MulLe(a: real, b: real, c: real)
    requires 0.0 < c
    ensures a <= b <==> a * c <= b * c
  {
    if b < a {
      assert 0.0 < (a - b) * c;
    } else {
      assert 0.0 <= (b - a) * c;
    }
  }

  lemma DivMul(a: real, b: real)
    requires b != 0.0
    ensures a / b * b == a
  {
  }

  lemma ScaleRatio(y: real, i: real, m: real, r: real)
    requires r * m == i
    ensures (y * r) * m == y * i
  {
    assert (y * r) * m == y * (r * m);
  }

  lemma QuotientBound(l: real, c: real, r: real, n: real)
    requires 0.0 < r
    ensures PerInterval(l, r, c) <= n <==> l + c <= (n + c) * r
  {
    var q := (l - (r - 1.0) * c) / r;
    DivMul(l - (r - 1.0) * c, r);
    assert q * r == l - (r - 1.0) * c;
    MulLe(q, n, r);
    assert (r - 1.0) * c == r * c - c;
    assert (n + c) * r == n * r + r * c;
  }

  lemma RatioPositive(interval: real, cmi: real)
    requires 0.0 < interval && 0.0 < cmi
    ensures 0.0 < interval / cmi && interval / cmi * cmi == interval
  {
    DivMul(interval, cmi);
    MulLe(interval / cmi, 0.0, cmi);
  }

  /** The normalised size is the least that suffices: never too little, never a byte too much. */
  lemma NormalizedSizeIsLeast(l: nat, interval: real, cmi: real, overhead: nat, n: int)
    requires 0.0 < interval && 0.0 < cmi
    ensures NormalizedSize(l, interval, cmi, overhead) <= n <==> Suffices(n, l, interval, cmi, overhead)
  {
    var r, c := interval / cmi, overhead as real;
    var x, y := l as real + c, n as real + c;
    RatioPositive(interval, cmi);
    CeilIsLeast(PerInterval(l as real, r, c), n);
    QuotientBound(l as real, c, r, n as real);
    assert NormalizedSize(l, interval, cmi, overhead) <= n <==> x <= y * r;
    MulLe(x, y * r, cmi);
    ScaleRatio(y, interval, cmi, r);
    assert x <= y * r <==> x * cmi <= y * interval;
    assert (n + overhead) as real == y && (l + overhead) as real == x;
  }

  /** Longer frames and longer measurement intervals never need less. */
  lemma NormalizedSizeIsMonotone(l: nat, l': nat, interval: real, cmi: real, cmi': real, overhead: nat)
    requires l <= l' && 0.0 < interval && 0.0 < cmi <= cmi'
    ensures NormalizedSize(l, interval, cmi, overhead) <= NormalizedSize(l', interval, cmi', overhead)
  {
    var n := NormalizedSize(l', interval, cmi', overhead);
    NormalizedSizeIsLeast(l', interval, cmi', overhead, n);
    var a, b := (l + overhead) as real, (l' + overhead) as real;
    assert a * cmi <= b * cmi' by {
      MulLe(a, b, cmi);
      assert 0.0 <= b * (cmi' - cmi);
    }
    NormalizedSizeIsLeast(l, interval, cmi, overhead, n);
  }

  // ------------------------------------------------------------------ payload splitting

  datatype Split = Split(numFrames: nat, avgPayload: nat)

  /** The division is an integer division, so the rounding up that follows it does nothing. */
  function SplitPayload(payload: nat, maxPayload: nat): Split
    requires 0 < maxPayload
  {
    if maxPayload < payload then
      var numFrames := payload / maxPayload;
      Split(numFrames, payload / numFrames)
    else
      Split(1, payload)
  }

  lemma QuotientIsPositive(payload: nat, maxPayload: nat)
    requires 0 < maxPayload < payload
    ensures 0 < payload / maxPayload
    ensures payload == maxPayload * (payload / maxPayload) + payload % maxPayload
  {
    var q := payload / maxPayload;
    assert q * maxPayload + payload % maxPayload == payload;
    assert q <= 0 ==> q * maxPayload <= 0;
  }

  lemma MulLeInt(a: int, b: int, c: int)
    requires 0 <= c && a <= b
    ensures a * c <= b * c
  {
  }

  lemma CancelFactor(q: int, a: int, b: int)
    requires 0 < q && q * a < q * b
    ensures a < b
  {
    if b <= a {
      MulLeInt(b, a, q);
    }
  }

  lemma AverageBounds(payload: nat, m: nat, q: nat, r: nat, avg: nat, rest: nat)
    requires 0 < q && payload == m * q + r && r < m && payload == q * avg + rest && rest < q
    ensures m <= avg < 2 * m
  {
    assert q * (avg + 1) == q * avg + q;
    CancelFactor(q, m, avg + 1);
    MulLeInt(1, q, m);
    assert q * (2 * m) == m * q + m * q;
    CancelFactor(q, avg, 2 * m);
  }

  /** Nearly all of the payload is covered, and no frame is ever twice the largest. */
  lemma SplitCoversPayload(payload: nat, maxPayload: nat)
    requires 0 < maxPayload < payload
    ensures var s := SplitPayload(payload, maxPayload);
            && 0 < s.numFrames
            && payload - s.numFrames < s.numFrames * s.avgPayload <= payload
            && maxPayload <= s.avgPayload < 2 * maxPayload
  {
    var q := payload / maxPayload;
    QuotientIsPositive(payload, maxPayload);
    AverageBounds(payload, maxPayload, q, payload % maxPayload, payload / q, payload % q);
  }

  /** What the split is for, frames no longer than the largest, fails for a payload one byte over. */
  lemma SplitCanExceedTheFrame(maxPayload: nat)
    requires 1 < maxPayload
    ensures SplitPayload(maxPayload + 1, maxPayload) == Split(1, maxPayload + 1)
  {
    QuotientIsPositive(maxPayload + 1, maxPayload);
    var q := (maxPayload + 1) / maxPayload;
    if 2 <= q {
      MulLeInt(2, q, maxPayload);
      assert false;
    }
  }

  /** The exact condition under which every frame of a payload fits. */
  lemma SplitFitsExactlyWhen(payload: nat, maxPayload: nat)
    requires 0 < maxPayload
    ensures SplitPayload(payload, maxPayload).avgPayload <= maxPayload
            <==> payload <= maxPayload || payload % maxPayload < payload / maxPayload
  {
    if maxPayload < payload {
      var q, r := payload / maxPayload, payload % maxPayload;
      QuotientIsPositive(payload, maxPayload);
      SplitCoversPayload(payload, maxPayload);
      var avg := payload / q;
      var rest := payload % q;
      assert payload == q * avg + rest && 0 <= rest < q;
      assert q * (avg - maxPayload) == q * avg - q * maxPayload;
      assert q * (avg - maxPayload) == r - rest;
      if avg == maxPayload {
        assert r == rest;
      } else {
        MulLeInt(1, avg - maxPayload, q);
        assert q <= r - rest;
      }
    }
  }

  // ------------------------------------------------------------------ registering a talker

  datatype SrClass = ClassA | ClassB

  datatype Talker = Talker(srClass: SrClass, framesize: nat, numFrames: nat, interval: real)

  /** The endpoint's parameters: header bytes (and what a multicast endpoint adds to the frame but
      not to its header bytes), largest frame, the intervals of the two classes, and either the
      stream interval itself or the measurement interval of its priority. */
  datatype Endpoint = Endpoint(
    headerBytes: nat,
    extraBytes: nat,
    maxFrame: nat,
    overhead: nat,
    cmiA: real,
    cmiB: real,
    streamIntervalAsCMI: bool,
    pcpInterval: real)
  {
    ghost predicate Valid() {
      && headerBytes < maxFrame
      && 0.0 < cmiA <= cmiB
      && 0.0 < pcpInterval
    }
  }

  /** The layer 2 size computed for a payload, in 16 bits as the functions that pass it on. */
  function L2Framesize(e: Endpoint, payload: nat): nat {
    U16(U16(e.headerBytes + U16(payload)) + e.extraBytes)
  }

  function RegisterTalker(e: Endpoint, payloadMax: nat, intervalMin: real): Result<Talker>
    requires e.Valid()
  {
    var split := SplitPayload(payloadMax, e.maxFrame - e.headerBytes);
    var full := L2Framesize(e, split.avgPayload);
    if e.streamIntervalAsCMI then
      Ok(Talker(ClassA, U16(full), split.numFrames, intervalMin))
    else
      var sizeA :- NormalizeFramesizeForCMI(full, e.pcpInterval, e.cmiA, e.overhead, false);
      if 0 <= sizeA then
        Ok(Talker(ClassA, U16(sizeA), split.numFrames, -1.0))
      else
        var sizeB :- NormalizeFramesizeForCMI(full, e.pcpInterval, e.cmiB, e.overhead, true);
        Ok(Talker(ClassB, U16(sizeB), split.numFrames, -1.0))
  }

  function FullSize(e: Endpoint, payloadMax: nat): nat
    requires e.Valid()
  {
    L2Framesize(e, SplitPayload(payloadMax, e.maxFrame - e.headerBytes).avgPayload)
  }

  /** The fallback from class A to class B fails exactly when class B itself comes out negative. */
  lemma RegistrationFailsExactlyWhen(e: Endpoint, payloadMax: nat, intervalMin: real)
    requires e.Valid()
    ensures RegisterTalker(e, payloadMax, intervalMin).Err?
            <==> !e.streamIntervalAsCMI
                 && NormalizedSize(FullSize(e, payloadMax), e.pcpInterval, e.cmiB, e.overhead) < 0
  {
    NormalizedSizeIsMonotone(FullSize(e, payloadMax), FullSize(e, payloadMax), e.pcpInterval,
                             e.cmiA, e.cmiB, e.overhead);
  }

  function CmiOf(e: Endpoint, c: SrClass): real {
    if c.ClassA? then e.cmiA else e.cmiB
  }

  /** What is registered never reserves a byte too much, and carries one full frame per interval
      exactly when the largest 16 bit size would. */
  lemma ReservationIsExact(e: Endpoint, payloadMax: nat, intervalMin: real)
    requires e.Valid() && !e.streamIntervalAsCMI && RegisterTalker(e, payloadMax, intervalMin).Ok?
    ensures var t := RegisterTalker(e, payloadMax, intervalMin).value;
            var full := FullSize(e, payloadMax);
            var cmi := CmiOf(e, t.srClass);
            && (Suffices(t.framesize, full, e.pcpInterval, cmi, e.overhead)
                <==> Suffices(0xFFFF, full, e.pcpInterval, cmi, e.overhead))
            && (forall n: int :: n < t.framesize ==> !Suffices(n, full, e.pcpInterval, cmi, e.overhead))
  {
    var t := RegisterTalker(e, payloadMax, intervalMin).value;
    var full, cmi := FullSize(e, payloadMax), CmiOf(e, t.srClass);
    var size := NormalizedSize(full, e.pcpInterval, cmi, e.overhead);
    assert 0 <= size && t.framesize == U16(size);
    NormalizedSizeIsLeast(full, e.pcpInterval, cmi, e.overhead, t.framesize);
    NormalizedSizeIsLeast(full, e.pcpInterval, cmi, e.overhead, 0xFFFF);
    forall n: int | n < t.framesize
      ensures !Suffices(n, full, e.pcpInterval, cmi, e.overhead)
    {
      NormalizedSizeIsLeast(full, e.pcpInterval, cmi, e.overhead, n);
    }
  }

  /** Class A is taken whenever its own size is not negative, and class B only otherwise. */
  lemma ClassAExactlyWhen(e: Endpoint, payloadMax: nat, intervalMin: real)
    requires e.Valid() && RegisterTalker(e, payloadMax, intervalMin).Ok?
    ensures RegisterTalker(e, payloadMax, intervalMin).value.srClass.ClassA?
            <==> e.streamIntervalAsCMI || !Suffices(-1, FullSize(e, payloadMax), e.pcpInterval, e.cmiA, e.overhead)
  {
    NormalizedSizeIsLeast(FullSize(e, payloadMax), e.pcpInterval, e.cmiA, e.overhead, -1);
  }

  /** The number of frames is the whole number of times the largest payload fits, and at least one. */
  lemma FramesOfTalker(e: Endpoint, payloadMax: nat, intervalMin: real)
    requires e.Valid() && RegisterTalker(e, payloadMax, intervalMin).Ok?
    ensures var t, room := RegisterTalker(e, payloadMax, intervalMin).value, e.maxFrame - e.headerBytes;
            if payloadMax <= room then t.numFrames == 1
            else 1 <= t.numFrames && t.numFrames * room <= payloadMax < (t.numFrames + 1) * room
  {
    var room := e.maxFrame - e.headerBytes;
    if room < payloadMax {
      QuotientIsPositive(payloadMax, room);
      var q := payloadMax / room;
      assert (q + 1) * room == room * q + room && q * room == room * q;
    }
  }

  /** A stream whose interval is its measurement interval is registered as it is: the full frame, at
      the application's interval; any other carries no interval. */
  lemma IntervalOfTalker(e: Endpoint, payloadMax: nat, intervalMin: real)
    requires e.Valid() && RegisterTalker(e, payloadMax, intervalMin).Ok?
    ensures var t := RegisterTalker(e, payloadMax, intervalMin).value;
            if e.streamIntervalAsCMI then t.interval == intervalMin && t.framesize == FullSize(e, payloadMax)
            else t.interval == -1.0
  {
    assert FullSize(e, payloadMax) < 0x1_0000;
  }

  /** The full frame is header and average payload, and what a multicast endpoint adds, in 16 bits. */
  lemma FullFrame(e: Endpoint, payloadMax: nat)
    requires e.Valid()
    ensures var room := e.maxFrame - e.headerBytes;
            var payload := if payloadMax <= room then payloadMax else payloadMax / (payloadMax / room);
            FullSize(e, payloadMax) == (e.headerBytes + payload + e.extraBytes) % 0x1_0000
  {
    var room := e.maxFrame - e.headerBytes;
    if room < payloadMax {
      QuotientIsPositive(payloadMax, room);
    }
    FrameWraps(e.headerBytes, SplitPayload(payloadMax, room).avgPayload, e.extraBytes);
    hide U16;
  }

  lemma WrappedTwice(a: nat, b: nat)
    ensures U16(a + U16(b)) == U16(a + b)
  {
    assert a + b == a + U16(b) + 0x1_0000 * (b / 0x1_0000);
  }

  lemma FrameWraps(header: nat, payload: nat, extra: nat)
    ensures U16(U16(header + U16(payload)) + extra) == (header + payload + extra) % 0x1_0000
  {
    WrappedTwice(header, payload);
    WrappedTwice(extra, header + payload);
  }

  /** An endpoint whose class A size is positive: 142 bytes, although class B would be accepted. */
  lemma ClassAIsTaken()
    ensures var e := Endpoint(42, 0, 1522, 21, 125.0, 250.0, false, 125.0);
            e.Valid() && RegisterTalker(e, 100, 0.0) == Ok(Talker(ClassA, 142, 1, -1.0))
  {
    var e := Endpoint(42, 0, 1522, 21, 125.0, 250.0, false, 125.0);
    FullFrame(e, 100);
    NormalizedSizeIsLeast(142, 125.0, 125.0, 21, 142);
    NormalizedSizeIsLeast(142, 125.0, 125.0, 21, 141);
  }
}
