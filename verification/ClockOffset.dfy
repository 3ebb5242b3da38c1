/** The two-step offset arithmetic of the PTP handshake (clauses 11.2 and 11.3 of IEEE 1588-2008) as
    latency.probe computes it on wrapping 64-bit words, and the error it leaves in a mailbox latency.

    Delays are signed: the probe reads t1 and t3 after the message they time has been stored, so a
    message can be seen before its own timestamp. */
module ClockOffset {
  import opened Words

  // add the sign bit, then shift right arithmetically by one
  function Halve(w: Word): Word {
    var signBit := w / TWO63;
    Wrap(Signed(Add(w, signBit)) / 2)
  }

  // The offset the follower stores and reports, from the four handshake times.
  function Offset(t1: Word, t2: Word, t3: Word, t4: Word): Word {
    Halve(Sub(Sub(t2, t1), Sub(t4, t3)))
  }

  // The one-way latency it reports beside it.
  function PathLatency(t1: Word, t2: Word, t3: Word, t4: Word): Word {
    Halve(Add(Sub(t4, t3), Sub(t2, t1)))
  }

  /** The shift-and-add code is halving toward zero, for every word. */
  lemma HalveTruncates(w: Word)
    ensures var v := Signed(w);
            Signed(Halve(w)) == if v >= 0 then v / 2 else -((-v) / 2)
  {
    var v := Signed(w);
    var a := Add(w, w / TWO63);
    if v >= 0 {
      assert a == w;
    } else {
      assert w / TWO63 == 1;
      if w == TWO64 - 1 {
        assert a == 0;
      } else {
        assert a == w + 1;
      }
      assert Signed(a) == v + 1;
    }
    SignedOfWrap(Signed(a) / 2);
  }

  // A reading of a clock that runs `theta` ticks ahead of the root clock.
  function Reading(rootTime: int, theta: int): Word {
    Wrap(rootTime + theta)
  }

  // Differences of readings only depend on the true times, up to wrap-around.
  lemma ReadingDifference(a: int, b: int)
    ensures Sub(Wrap(a), Wrap(b)) == Wrap(a - b)
  {
    var w: int := Wrap(b);
    WrapAdd(a, -w);
    WrapSub(a, b);
  }

  lemma ReadingSum(a: int, b: int)
    ensures Add(Wrap(a), Wrap(b)) == Wrap(a + b)
  {
    WrapAdd(a, Wrap(b));
    WrapAdd(b, a);
  }

  /** With the follower's clock `theta` ahead of the root clock and one-way delays d1 (leader to follower)
      and d2 (back), of either sign, the offset misses theta by half the delay asymmetry, up to half a
      tick of rounding. The true times r1..r4 are those of the four clock readings. */
  lemma OffsetError(r1: int, r2: int, r3: int, r4: int, theta: int)
    requires var d1, d2 := r2 - r1, r4 - r3; -TWO63 <= 2 * theta + d1 - d2 < TWO63
    ensures var o := Signed(Offset(Wrap(r1), Reading(r2, theta), Reading(r3, theta), Wrap(r4)));
            var d1, d2 := r2 - r1, r4 - r3;
            -1 <= 2 * (o - theta) - (d1 - d2) <= 1
  {
    ReadingDifference(r2 + theta, r1);
    ReadingDifference(r4, r3 + theta);
    ReadingDifference(r2 + theta - r1, r4 - (r3 + theta));
    var v := 2 * theta + (r2 - r1) - (r4 - r3);
    assert r2 + theta - r1 - (r4 - (r3 + theta)) == v;
    SignedOfWrap(v);
    HalveTruncates(Wrap(v));
  }

  /** The latency reported beside it is the mean of the two delays, truncated, whatever the clock's lead. */
  lemma PathLatencyError(r1: int, r2: int, r3: int, r4: int, theta: int)
    requires -TWO63 <= (r2 - r1) + (r4 - r3) < TWO63
    ensures var l := Signed(PathLatency(Wrap(r1), Reading(r2, theta), Reading(r3, theta), Wrap(r4)));
            var d := (r2 - r1) + (r4 - r3);
            l == if d >= 0 then d / 2 else -((-d) / 2)
  {
    ReadingDifference(r2 + theta, r1);
    ReadingDifference(r4, r3 + theta);
    ReadingSum(r4 - (r3 + theta), r2 + theta - r1);
    var d := (r2 - r1) + (r4 - r3);
    assert r4 - (r3 + theta) + (r2 + theta - r1) == d;
    SignedOfWrap(d);
    HalveTruncates(Wrap(d));
  }

  // The mailbox latency: the sender moves its clock reading to root time, the receiver moves that to
  // its own clock and subtracts it from its own reading.
  function PublishedTime(sendReading: Word, senderOffset: Word): Word {
    Sub(sendReading, senderOffset)
  }

  function MailboxLatency(recvReading: Word, published: Word, receiverOffset: Word): Word {
    Sub(recvReading, Add(published, receiverOffset))
  }

  // How far one rank's stored offset is from its clock's lead over the root clock.
  function ClockError(offset: Word, theta: int): int {
    theta - Signed(offset)
  }

  function Abs(n: int): nat {
    if n < 0 then -n else n
  }

  /** The saved latency is the true root-clock difference plus the receiver's clock error minus the
      sender's, whenever that value fits a signed word. */
  lemma LatencyError(sent: int, received: int, os: Word, thetaS: int, or: Word, thetaR: int)
    requires var v := received - sent + ClockError(or, thetaR) - ClockError(os, thetaS); -TWO63 <= v < TWO63
    ensures var saved := MailboxLatency(Reading(received, thetaR), PublishedTime(Reading(sent, thetaS), os), or);
            Signed(saved) == received - sent + ClockError(or, thetaR) - ClockError(os, thetaS)
  {
    WrapOfSigned(os);
    WrapOfSigned(or);
    ReadingDifference(sent + thetaS, Signed(os));
    ReadingSum(sent + thetaS - Signed(os), Signed(or));
    ReadingDifference(received + thetaR, sent + thetaS - Signed(os) + Signed(or));
    SignedOfWrap(received - sent + ClockError(or, thetaR) - ClockError(os, thetaS));
  }

  // One completed handshake: the true root times of its four readings and the follower's clock lead.
  datatype Exchange = Exchange(r1: int, r2: int, r3: int, r4: int, theta: int) {
    function Asymmetry(): int {
      (r2 - r1) - (r4 - r3)
    }

    predicate InRange() {
      -TWO63 <= 2 * theta + Asymmetry() < TWO63
    }

    function Stored(): Word {
      Offset(Wrap(r1), Reading(r2, theta), Reading(r3, theta), Wrap(r4))
    }
  }

  // The clock of a rank: the root itself keeps offset slot 0 at zero, any other rank stores what its
  // last handshake gave.
  datatype Rank = Root | Follower(last: Exchange) {
    function Theta(): int {
      if Root? then 0 else last.theta
    }

    function Slot0(): Word {
      if Root? then 0 else last.Stored()
    }

    // Twice the bound on this rank's clock error.
    function DoubleBound(): nat {
      if Root? then 0 else Abs(last.Asymmetry()) + 1
    }

    predicate InRange() {
      Follower? ==> last.InRange()
    }
  }

  /** End to end: a latency saved between any two calibrated ranks, the root included, differs from the
      true root-clock difference by at most half the delay asymmetries of the two ranks' handshakes plus
      half a tick for each rank that is not the root. */
  lemma CalibratedLatencyError(sent: int, received: int, sender: Rank, receiver: Rank)
    requires sender.InRange() && receiver.InRange()
    requires 2 * Abs(received - sent) + sender.DoubleBound() + receiver.DoubleBound() < TWO64
    ensures var saved := MailboxLatency(Reading(received, receiver.Theta()),
                                        PublishedTime(Reading(sent, sender.Theta()), sender.Slot0()),
                                        receiver.Slot0());
            2 * Abs(Signed(saved) - (received - sent)) <= sender.DoubleBound() + receiver.DoubleBound()
  {
    RankError(sender);
    RankError(receiver);
    BoundedLatencyError(sent, received, sender.Slot0(), sender.Theta(), receiver.Slot0(), receiver.Theta(),
                        sender.DoubleBound(), receiver.DoubleBound());
  }

  // The same for any two stored offsets whose clock errors are bounded.
  lemma BoundedLatencyError(sent: int, received: int, os: Word, thetaS: int, or: Word, thetaR: int, bs: nat, br: nat)
    requires 2 * Abs(ClockError(os, thetaS)) <= bs && 2 * Abs(ClockError(or, thetaR)) <= br
    requires 2 * Abs(received - sent) + bs + br < TWO64
    ensures var saved := MailboxLatency(Reading(received, thetaR), PublishedTime(Reading(sent, thetaS), os), or);
            2 * Abs(Signed(saved) - (received - sent)) <= bs + br
  {
    Triangle(received - sent, ClockError(os, thetaS), ClockError(or, thetaR), bs, br);
    LatencyError(sent, received, os, thetaS, or, thetaR);
  }

  lemma Triangle(d: int, es: int, er: int, bs: int, br: int)
    requires 2 * Abs(es) <= bs && 2 * Abs(er) <= br && 2 * Abs(d) + bs + br < TWO64
    ensures -TWO63 <= d + er - es < TWO63 && 2 * Abs(er - es) <= bs + br
  {
  }

  lemma RankError(rank: Rank)
    requires rank.InRange()
    ensures 2 * Abs(ClockError(rank.Slot0(), rank.Theta())) <= rank.DoubleBound()
  {
    if rank.Follower? {
      var e := rank.last;
      OffsetError(e.r1, e.r2, e.r3, e.r4, e.theta);
    }
  }
}
