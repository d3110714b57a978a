/**
 * The device numbers its encrypted frames with a 32-bit counter but sends only the low 16 bits;
 * the receiver rebuilds the high half by watching the low half wrap.
 */
module CounterTracking {
  import opened Common

  const HALF := 0x1_0000
  const WRAP_GAP := 32768
  const MIN_FRAME := 6

  /** The receiver's memory: high half, and low half of the last frame. */
  datatype Tracker = Tracker(hi: nat, lo: nat)

  const START := Tracker(0, 0)

  /** The counter the tracker stands at. */
  function Value(t: Tracker): nat {
    t.hi * HALF + t.lo
  }

  function Track(t: Tracker, low: nat): Tracker {
    Tracker(if low < t.lo && t.lo - low > WRAP_GAP then t.hi + 1 else t.hi, low)
  }

  function LowOf(frame: seq<Byte>): nat
    requires |frame| >= MIN_FRAME
  {
    var a: nat, b: nat := frame[0], frame[1];
    a + 256 * b
  }

  /** All frames since the channel was set up; frames too short to be encrypted are passed over. */
  function TrackAll(frames: seq<seq<Byte>>): Tracker {
    if frames == [] then START
    else
      var t, f := TrackAll(frames[..|frames| - 1]), frames[|frames| - 1];
      if |f| < MIN_FRAME then t else Track(t, LowOf(f))
  }

  /** The counters used to decrypt, one per frame long enough. */
  function Counters(frames: seq<seq<Byte>>): seq<nat> {
    if frames == [] then []
    else
      Counters(frames[..|frames| - 1])
      + if |frames[|frames| - 1]| < MIN_FRAME then [] else [Value(TrackAll(frames))]
  }

  /** The frames carry the low halves of the device's counters c. */
  predicate Carries(frames: seq<seq<Byte>>, c: seq<nat>) {
    if frames == [] then c == []
    else
      var f := frames[|frames| - 1];
      if |f| < 6 then Carries(frames[..|frames| - 1], c)
      else
        && c != [] && (f[0] as int) + 256 * (f[1] as int) == c[|c| - 1] % 65536
        && Carries(frames[..|frames| - 1], c[..|c| - 1])
  }

  predicate NonDecreasing(c: seq<nat>) {
    forall i, j :: 0 <= i <= j < |c| ==> c[i] <= c[j]
  }

  function Before(c: seq<nat>, k: nat): nat
    requires k <= |c|
  {
    if k == 0 then 0 else c[k - 1]
  }

  /** An advance from p to q shows: the low half does not wrap, or it falls by more than half its range. */
  predicate Visible(p: nat, q: nat)
    requires p <= q
  {
    p % 65536 + (q - p) < 65536 || q - p < 32768
  }

  /** One frame: from the right counter the tracker reaches the right counter exactly when the
      advance shows. */
  lemma TrackIsRightIffVisible(t: Tracker, p: nat, q: nat)
    requires t.lo < HALF && Value(t) == p && p <= q
    ensures Value(Track(t, q % HALF)) == q <==> Visible(p, q)
    ensures Track(t, q % HALF).lo < HALF
  {
    var d, lo := q - p, q % HALF;
    assert p % HALF == t.lo;
    var carry := (t.lo + d) / HALF;
    assert lo == t.lo + d - carry * HALF;
    assert q == (t.hi + carry) * HALF + lo;
  }

  /** Every advance of the run shows. */
  predicate AllVisible(c: seq<nat>)
    requires NonDecreasing(c)
  {
    forall k :: 0 <= k < |c| ==> Before(c, k) <= c[k] && Visible(Before(c, k), c[k])
  }

  lemma {:induction false} LastTracked(frames: seq<seq<Byte>>, c: seq<nat>)
    requires Carries(frames, c)
    ensures |Counters(frames)| == |c|
    ensures TrackAll(frames).lo < HALF
    ensures c == [] ==> TrackAll(frames) == START
    ensures c != [] ==> Value(TrackAll(frames)) == Counters(frames)[|c| - 1]
  {
    if frames != [] {
      var init, f := frames[..|frames| - 1], frames[|frames| - 1];
      if |f| < MIN_FRAME {
        LastTracked(init, c);
        assert Counters(frames) == Counters(init);
      } else {
        LastTracked(init, c[..|c| - 1]);
      }
    }
  }

  /**
   * The rebuilt counters of a whole run are all right exactly when every advance shows.  The
   * device's counter starts at 0 and never goes back; frames in between may be too short.
   */
  lemma {:induction false} CountersRightIffVisible(frames: seq<seq<Byte>>, c: seq<nat>)
    requires Carries(frames, c) && NonDecreasing(c)
    ensures Counters(frames) == c <==> AllVisible(c)
  {
    hide Visible, Track, Value, AllVisible;
    if frames == [] {
      NothingToSee(c);
    } else {
      var init, f := frames[..|frames| - 1], frames[|frames| - 1];
      if |f| < MIN_FRAME {
        CountersRightIffVisible(init, c);
      } else {
        var n := |c| - 1;
        AllVisibleStep(c);
        CountersRightIffVisible(init, c[..n]);
        LastTracked(init, c[..n]);
        FrameStep(frames);
        LastCounter(init, f, c);
      }
    }
  }

  lemma NothingToSee(c: seq<nat>)
    requires c == []
    ensures AllVisible(c)
  {}

  /** A further frame: its counter is right, given that the ones before are, if its advance shows. */
  lemma {:induction false} LastCounter(init: seq<seq<Byte>>, f: seq<Byte>, c: seq<nat>)
    requires |f| >= MIN_FRAME && c != [] && LowOf(f) == c[|c| - 1] % HALF && Before(c, |c| - 1) <= c[|c| - 1]
    requires Carries(init, c[..|c| - 1]) && |Counters(init)| == |c| - 1
    ensures var n := |c| - 1;
            Counters(init + [f]) == c <==> Counters(init) == c[..n] && Visible(Before(c, n), c[n])
  {
    hide Visible, LowOf;
    var n := |c| - 1;
    var head, t := c[..n], TrackAll(init);
    LastTracked(init, head);
    assert (init + [f])[..|init|] == init;
    hide Value, Track;
    assert Counters(init + [f]) == Counters(init) + [Value(Track(t, LowOf(f)))];
    assert c == head + [c[n]];
    if Counters(init) == head {
      assert n > 0 ==> head[n - 1] == c[n - 1];
      StartCountsZero();
      TrackIsRightIffVisible(t, Before(c, n), c[n]);
    }
  }

  lemma StartCountsZero()
    ensures Value(START) == 0
  {}

  lemma FrameStep(frames: seq<seq<Byte>>)
    requires frames != []
    ensures frames == frames[..|frames| - 1] + [frames[|frames| - 1]]
  {
  }

  lemma AllVisibleStep(c: seq<nat>)
    requires NonDecreasing(c) && c != []
    ensures var n := |c| - 1;
            && NonDecreasing(c[..n]) && Before(c, n) <= c[n]
            && (AllVisible(c) <==> AllVisible(c[..n]) && Visible(Before(c, n), c[n]))
  {
    hide Visible;
    var n := |c| - 1;
    var h := c[..n];
    forall k | 0 <= k < n ensures h[k] == c[k] && Before(h, k) == Before(c, k) {}
    assert NonDecreasing(h);
    if AllVisible(h) && Visible(Before(c, n), c[n]) {
      forall k | 0 <= k < |c| ensures Before(c, k) <= c[k] && Visible(Before(c, k), c[k]) {
        if k < n { assert Visible(Before(h, k), h[k]); }
      }
    }
    if AllVisible(c) {
      forall k | 0 <= k < n ensures Before(h, k) <= h[k] && Visible(Before(h, k), h[k]) {
        assert Visible(Before(c, k), c[k]);
      }
    }
  }

  /** Counters that advance by less than half the range per received frame are always rebuilt. */
  lemma {:induction false} SmallAdvancesAreRebuilt(frames: seq<seq<Byte>>, c: seq<nat>)
    requires Carries(frames, c) && NonDecreasing(c)
    requires forall k :: 0 <= k < |c| ==> c[k] - Before(c, k) <= 32767
    ensures Counters(frames) == c
  {
    CountersRightIffVisible(frames, c);
    forall k | 0 <= k < |c| ensures Before(c, k) <= c[k] {
      if k > 0 { assert c[k - 1] <= c[k]; }
    }
  }

  /** The bound is tight: an advance of exactly half the range across a wrap is never seen. */
  lemma HalfRangeAdvanceIsMissed(t: Tracker)
    requires 32768 <= t.lo < 65536
    ensures Value(Track(t, (Value(t) + 32768) % 65536)) != Value(t) + 32768
  {
    assert Value(t) % 65536 == t.lo;
    TrackIsRightIffVisible(t, Value(t), Value(t) + 32768);
  }
}

/** The controller's decryption state. */
module SecureChannel {
  import opened Common
  import opened CounterTracking

  /** What a decryption comes to: no plaintext, or an exception from packing a 33-bit counter. */
  datatype Decrypted = Plain(text: seq<Byte>) | Nothing | CounterOverflow

  /** AES-CCM with the session keys, opaque: counter and ciphertext to plaintext, if authentic. */
  type Cipher = (nat, seq<Byte>) -> Option<seq<Byte>>

  function Outcome(cipher: Cipher, counter: nat, ct: seq<Byte>): Decrypted {
    if counter >= 0x1_0000_0000 then CounterOverflow
    else match cipher(counter, ct) case Some(p) => Plain(p) case None => Nothing
  }

  /** While the device's counter advances by less than half the range per frame, every frame is decrypted
      with the device's own counter, down to the frame at which that no longer fits 32 bits. */
  lemma {:induction false} DecryptsWithTrueCounter(frames: seq<seq<Byte>>, c: seq<nat>, cipher: Cipher)
    requires frames != [] && |frames[|frames| - 1]| >= 6 && Carries(frames, c) && NonDecreasing(c)
    requires forall k :: 0 <= k < |c| ==> c[k] - Before(c, k) <= 32767
    ensures var n, ct := c[|c| - 1], frames[|frames| - 1][2..];
            var r := Outcome(cipher, Counters(frames)[|Counters(frames)| - 1], ct);
            && (r == CounterOverflow <==> n >= 4294967296)
            && (n < 4294967296 ==> r == if cipher(n, ct).Some? then Plain(cipher(n, ct).value) else Nothing)
  {
    SmallAdvancesAreRebuilt(frames, c);
  }

  class Controller {
    var devItHi: nat
    var lastDevItLo: nat
    ghost var received: seq<seq<Byte>>

    /** The fields are those of a tracker that has seen every frame since the channel was set up. */
    ghost predicate Valid()
      reads this
    {
      Tracker(devItHi, lastDevItLo) == TrackAll(received)
    }

    constructor ()
      ensures Valid() && received == []
    {
      devItHi, lastDevItLo, received := 0, 0, [];
    }

    method SetupCmdChannel()
      modifies this
      ensures Valid() && received == []
    {
      devItHi := 0;
      lastDevItLo := 0;
      received := [];
    }

    method Decrypt(data: seq<Byte>, cipher: Cipher) returns (r: Decrypted)
      requires Valid()
      modifies this
      ensures Valid() && received == old(received) + [data]
      ensures r == if |data| < MIN_FRAME then Nothing
                   else Outcome(cipher, Counters(received)[|Counters(received)| - 1], data[2..])
    {
      received := received + [data];
      assert received[..|received| - 1] == old(received);
      if |data| < MIN_FRAME {
        return Nothing;
      }
      var itLo := LowOf(data);
      if itLo < lastDevItLo && lastDevItLo - itLo > WRAP_GAP {
        devItHi := devItHi + 1;
      }
      lastDevItLo := itLo;
      var counter := devItHi * HALF + itLo;
      if counter >= 0x1_0000_0000 {
        return CounterOverflow;
      }
      var pt := cipher(counter, data[2..]);
      return if pt.Some? then Plain(pt.value) else Nothing;
    }
  }
}
