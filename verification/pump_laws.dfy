/** When the pump makes a full pass and when it stops, over its whole life and in the
    words of its own history. */
module PumpLaws {
  import opened Prelude
  import opened Protocol
  import opened PumpTick

  /** The last pass that succeeded. */
  predicate LastGood(done: seq<Attempt>, k: nat) {
    k < |done| && done[k].ok && forall j :: k < j < |done| ==> !done[j].ok
  }

  predicate NoneGood(done: seq<Attempt>) {
    forall i :: 0 <= i < |done| ==> !done[i].ok
  }

  /** A pass is due: an interval after the last good one ended; and as long as there
      is none, at once, or when the backoff of the failures so far has passed. */
  ghost predicate DueBy(done: seq<Attempt>, start: int, now: int, interval: nat) {
    || (exists k: nat :: LastGood(done, k) && (interval == 0 || now >= done[k].end + interval))
    || (NoneGood(done) && now >= if done == [] then start else done[|done| - 1].end + BackoffAfter(|done|))
  }

  /** What the books hold of the passes made. */
  ghost predicate Books(v: PumpView, start: int, done: seq<Attempt>) {
    && (v.fullOk ==> exists k: nat :: LastGood(done, k) && v.lastSuccess == done[k].end)
    && (!v.fullOk ==> NoneGood(done) && v.fullAttempts == |done|
                      && v.nextFull == if done == [] then start else done[|done| - 1].end + BackoffAfter(|done|))
  }

  lemma OneLastGood(done: seq<Attempt>, j: nat, k: nat)
    requires LastGood(done, j) && LastGood(done, k)
    ensures j == k
  {
  }

  lemma BooksSay(v: PumpView, start: int, done: seq<Attempt>, now: int, interval: nat)
    requires Books(v, start, done)
    ensures Due(v, now, interval) <==> DueBy(done, start, now, interval)
  {
    hide BackoffAfter;
    if v.fullOk {
      var k: nat :| LastGood(done, k) && v.lastSuccess == done[k].end;
      assert !NoneGood(done);
      forall j: nat | LastGood(done, j) ensures j == k {
        OneLastGood(done, j, k);
      }
    } else {
      assert forall k: nat :: !LastGood(done, k);
    }
  }

  lemma GoodSnoc(done: seq<Attempt>, a: Attempt)
    ensures a.ok ==> LastGood(done + [a], |done|)
    ensures forall k: nat :: !a.ok && LastGood(done, k) ==> LastGood(done + [a], k) && (done + [a])[k] == done[k]
    ensures !a.ok && NoneGood(done) ==> NoneGood(done + [a])
  {
  }

  lemma BooksNext(v: PumpView, start: int, done: seq<Attempt>, t: Tick, interval: nat)
    requires Books(v, start, done) && Ticked(v, t, interval).1 == GoOn
    ensures Books(Ticked(v, t, interval).0, start, done + Own(v, t, interval))
  {
    hide BackoffAfter, Due;
    if Attempts(v, t, interval) {
      var a, w := AttemptOf(t), Ticked(v, t, interval).0;
      GoodSnoc(done, a);
      assert (done + [a])[|done|] == a;
      if v.fullOk && !a.ok {
        var k: nat :| LastGood(done, k) && v.lastSuccess == done[k].end;
        assert LastGood(done + [a], k) && w.lastSuccess == (done + [a])[k].end;
      }
    } else {
      assert done + [] == done;
    }
  }

  lemma {:induction false} BooksAfter(v: PumpView, start: int, done: seq<Attempt>, ticks: seq<Tick>, interval: nat)
    requires Books(v, start, done) && EndsIn(v, ticks, interval).1 == GoOn
    ensures Books(EndsIn(v, ticks, interval).0, start, done + Made(v, ticks, interval))
    decreases |ticks|
  {
    hide Books, Own, Ticked;
    if ticks == [] {
      assert done + [] == done;
    } else {
      var (next, c) := Ticked(v, ticks[0], interval);
      var own := Own(v, ticks[0], interval);
      BooksNext(v, start, done, ticks[0], interval);
      BooksAfter(next, start, done + own, ticks[1..], interval);
      Regroup(done, own, Made(next, ticks[1..], interval));
    }
  }

  lemma Opening(start: int)
    ensures Books(PumpView(false, 0, start, start), start, [])
  {
  }

  /** Over any life of the pump: the next tick makes a pass exactly if its drain did not
      stop the pump and a pass is due by what has been made so far; the pass it makes is
      that tick's; and the pump stops exactly if the drain stopped it, or if it made a
      pass and the kernel revoked the generation. */
  lemma PassExactly(start: int, ticks: seq<Tick>, t: Tick, interval: nat)
    requires EndsIn(PumpView(false, 0, start, start), ticks, interval).1 == GoOn
    ensures var v := PumpView(false, 0, start, start);
            var done, more := Made(v, ticks, interval), Made(v, ticks + [t], interval);
            var pass := t.drain != Ok(Stop) && DueBy(done, start, t.now, interval);
            && more == done + (if pass then [Attempt(t.now, t.later, t.full.Ok?)] else [])
            && (EndsIn(v, ticks + [t], interval).1 == Stop <==> t.drain == Ok(Stop) || (pass && t.full == Err(PassRevoked)))
  {
    var v := PumpView(false, 0, start, start);
    var w, done := EndsIn(v, ticks, interval).0, Made(v, ticks, interval);
    Opening(start);
    BooksAfter(v, start, [], ticks, interval);
    assert [] + done == done;
    BooksSay(w, start, done, t.now, interval);
    OneMore(v, ticks, t, interval);
    hide Books, DueBy, Due, EndsIn, Made;
  }

  /** How a pass ends: well if there is no scheduler to compare with, or if the table can
      be read and the kernel lists its schedules; by revocation only if the table can be
      read and the kernel says so. */
  lemma PassEndsSay(p: Play, scheduler: bool)
    ensures PassEnds(p, scheduler) == Ok(()) <==> !scheduler || (!p.passFails && p.listFails == None)
    ensures PassEnds(p, scheduler) == Err(PassRevoked) <==> scheduler && !p.passFails && p.listFails.Some? && p.listFails.value.Revoked?
  {
  }
}
