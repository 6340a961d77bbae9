/** The progress-callback contract shared by every stage, and the shape of a
    stage result that may end in a Python exception. */
module Report {
  import opened Text

  datatype Option<T> = None | Some(value: T)

  /** One `progress_callback(percent, message)` call. */
  datatype Progress = Progress(percent: int, message: string)

  /** The value a stage returns, or the message of the exception it raised. */
  datatype Raised<T> = Returned(value: T) | Raised(error: string)

  /** `int(100 * done / total)`: the percentage rounded down. */
  function Percent(done: nat, total: nat): (p: nat)
    requires total > 0
    ensures p * total <= 100 * done < (p + 1) * total
  {
    (100 * done) / total
  }

  /** Multiplying by a non-negative factor keeps the order. */
  lemma {:induction false} MulMono(a: int, b: int, t: nat)
    requires a <= b
    ensures a * t <= b * t
    decreases t
  {
    if t > 0 {
      MulMono(a, b, t - 1);
      assert a * t == a * (t - 1) + a;
      assert b * t == b * (t - 1) + b;
    }
  }

  /** A completed fraction is reported within 0..100, and 100 exactly when done. */
  lemma PercentInRange(done: nat, total: nat)
    requires 0 < total && done <= total
    ensures Percent(done, total) <= 100
    ensures Percent(done, total) == 100 <==> done == total
  {
    var p := Percent(done, total);
    assert p * total <= 100 * done < (p + 1) * total;
    if 100 < p {
      MulMono(101, p, total);
      assert false;
    }
    if p == 100 && done < total {
      assert false;
    }
    if done == total && p < 100 {
      MulMono(p + 1, 100, total);
      assert false;
    }
  }

  /** More work done is never reported as a smaller percentage. */
  lemma PercentMonotone(a: nat, b: nat, total: nat)
    requires 0 < total && a <= b
    ensures Percent(a, total) <= Percent(b, total)
  {
    var pa, pb := Percent(a, total), Percent(b, total);
    assert pa * total <= 100 * a && 100 * b < (pb + 1) * total;
    if pb < pa {
      MulMono(pb + 1, pa, total);
      assert false;
    }
  }

  /** The tick `"<caption><done>/<total>"` reported after the `done`-th of `total` items. */
  function Tick(caption: string, done: nat, total: nat): Progress
    requires 0 < total
  {
    Progress(Percent(done, total), caption + NatToString(done) + "/" + NatToString(total))
  }

  /** The ticks reported by a loop over `total` items, one after each item. */
  function Ticks(caption: string, total: nat): (r: seq<Progress>)
    ensures |r| == total
    ensures forall c :: 0 <= c < total ==> r[c] == Tick(caption, c + 1, total)
  {
    seq(total, c requires 0 <= c < total => Tick(caption, c + 1, total))
  }

  /** Every tick of a counted loop lies within 0..100, ticks never go down, and
      only the last one reports 100. */
  lemma TicksInRange(caption: string, total: nat)
    ensures forall c :: 0 <= c < total ==> 0 <= Ticks(caption, total)[c].percent <= 100
    ensures forall c, d :: 0 <= c <= d < total ==> Ticks(caption, total)[c].percent <= Ticks(caption, total)[d].percent
    ensures forall c :: 0 <= c < total ==> (Ticks(caption, total)[c].percent == 100 <==> c == total - 1)
  {
    var r := Ticks(caption, total);
    forall c | 0 <= c < total
      ensures 0 <= r[c].percent <= 100
      ensures r[c].percent == 100 <==> c == total - 1
    {
      PercentInRange(c + 1, total);
    }
    forall c, d | 0 <= c <= d < total
      ensures r[c].percent <= r[d].percent
    {
      PercentMonotone(c + 1, d + 1, total);
    }
  }

  /** The ticks after `i + 1` items extend the ticks after `i` items by one. */
  lemma TicksAppend(caption: string, total: nat, i: nat)
    requires i < total
    ensures Ticks(caption, total)[..i] + [Tick(caption, i + 1, total)] == Ticks(caption, total)[..i + 1]
  {
  }

  /** A stage callback wrapped in a lambda that prefixes every message with `prefix`. */
  function Prefixed(prefix: string, events: seq<Progress>): (r: seq<Progress>)
    ensures |r| == |events|
    ensures forall i :: 0 <= i < |events| ==> r[i] == Progress(events[i].percent, prefix + events[i].message)
  {
    seq(|events|, i requires 0 <= i < |events| => Progress(events[i].percent, prefix + events[i].message))
  }

  lemma PrefixedAppend(prefix: string, a: seq<Progress>, b: seq<Progress>)
    ensures Prefixed(prefix, a + b) == Prefixed(prefix, a) + Prefixed(prefix, b)
  {
  }
}
