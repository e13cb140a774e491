/** The sensor's control bus as the driver sees it. Every write message the
    driver sends is appended, in order, to a log; whether the sensor
    acknowledges a message depends only on its position in that log (the set
    `nak` of positions that fail), which is how the model stands in for the
    hardware it cannot see. */
module Bus {
  import opened Registers

  /** One register write as the driver issues it: address, width in bytes
      and value. */
  datatype Msg = Msg(reg: u16, len: nat, val: u32)

  /** The bytes a write puts on the bus (imx477_write_reg). */
  function Bytes(m: Msg): (b: seq<u8>)
    requires m.len <= 4
    ensures |b| == m.len + 2
  {
    WriteFrame(m.reg, m.len, m.val)
  }

  /** A write read back: the register address and the value cut to the
      message width. */
  lemma BytesDecode(m: Msg)
    requires m.len <= 4
    ensures FromBigEndian(Bytes(m)[..2]) == m.reg
    ensures ReadValue(Bytes(m)[2..]) == m.val % Pow256(m.len)
    ensures m.val < Pow256(m.len) ==> ReadValue(Bytes(m)[2..]) == m.val
  {
    WriteThenRead(m.reg, m.len, m.val);
    if m.val < Pow256(m.len) {
      WriteThenReadFits(m.reg, m.len, m.val);
    }
  }

  /** Every message of `plan`, sent from log position `at` on, is acknowledged. */
  ghost predicate Delivered(nak: set<nat>, at: nat, plan: seq<Msg>)
  {
    forall k :: at <= k < at + |plan| ==> k !in nak
  }

  /** What reaches the bus when `plan` is sent one message at a time from log
      position `at`, stopping after the first message that is not acknowledged. */
  ghost function Attempt(nak: set<nat>, at: nat, plan: seq<Msg>): (sent: seq<Msg>)
    ensures |sent| <= |plan|
    ensures plan != [] ==> sent != []
    decreases |plan|
  {
    if plan == [] then []
    else if at in nak then [plan[0]]
    else [plan[0]] + Attempt(nak, at + 1, plan[1..])
  }

  /** What is sent is the beginning of the plan, never more than the plan. */
  lemma {:induction false} AttemptIsPrefix(nak: set<nat>, at: nat, plan: seq<Msg>)
    ensures Attempt(nak, at, plan) == plan[..|Attempt(nak, at, plan)|]
    decreases |plan|
  {
    if plan != [] && at !in nak {
      AttemptIsPrefix(nak, at + 1, plan[1..]);
      assert plan == [plan[0]] + plan[1..];
    }
  }

  /** The status such a sequence reports: 0, or -EIO from the failed message. */
  ghost function Status(nak: set<nat>, at: nat, plan: seq<Msg>): (ret: int)
    ensures ret == 0 || ret == -EIO
    ensures ret == 0 <==> Delivered(nak, at, plan)
  {
    if Delivered(nak, at, plan) then 0 else -EIO
  }

  /** A delivered plan is sent whole; otherwise the sending stops at the first
      refused message: everything before it was acknowledged, it was refused,
      and nothing after it was sent. */
  lemma {:induction false} AttemptStopsAtFailure(nak: set<nat>, at: nat, plan: seq<Msg>)
    ensures Delivered(nak, at, plan) ==> Attempt(nak, at, plan) == plan
    ensures !Delivered(nak, at, plan) ==>
      var sent := Attempt(nak, at, plan);
      sent != [] && at + |sent| - 1 in nak && Delivered(nak, at, sent[..|sent| - 1])
    decreases |plan|
  {
    if plan != [] && at !in nak {
      AttemptStopsAtFailure(nak, at + 1, plan[1..]);
      var rest := Attempt(nak, at + 1, plan[1..]);
      if !Delivered(nak, at, plan) {
        assert !Delivered(nak, at + 1, plan[1..]);
        assert ([plan[0]] + rest)[..|rest|] == [plan[0]] + rest[..|rest| - 1];
      }
    }
  }

  /** A plan made of two parts is delivered iff both parts are. */
  lemma DeliveredAppend(nak: set<nat>, at: nat, p: seq<Msg>, q: seq<Msg>)
    ensures Delivered(nak, at, p + q) <==> Delivered(nak, at, p) && Delivered(nak, at + |p|, q)
  {
  }

  /** Sending `p + q` is sending `p` and, only if all of `p` got through, `q`
      right after it. This is what makes a sequence of writers that each give
      up on the first error one writer that gives up on the first error. */
  lemma {:induction false} AttemptAppend(nak: set<nat>, at: nat, p: seq<Msg>, q: seq<Msg>)
    ensures Attempt(nak, at, p + q) ==
      if Delivered(nak, at, p) then p + Attempt(nak, at + |p|, q) else Attempt(nak, at, p)
    decreases |p|
  {
    if p != [] {
      assert (p + q)[0] == p[0] && (p + q)[1..] == p[1..] + q;
      if at !in nak {
        AttemptAppend(nak, at + 1, p[1..], q);
        assert [p[0]] + p[1..] == p;
      }
    } else {
      assert p + q == q;
    }
  }

  /** The step a sequencer is at: `done` went through, and it now sends `step`
      and, only if that goes through too, `rest`. If `step` fails, what reaches
      the bus is `done` and the attempt at `step`, and the whole sequence fails. */
  lemma AttemptAfterPrefix(nak: set<nat>, at: nat, done: seq<Msg>, step: seq<Msg>, rest: seq<Msg>)
    requires Delivered(nak, at, done)
    ensures Delivered(nak, at + |done|, step) ==> Delivered(nak, at, done + step)
    ensures !Delivered(nak, at + |done|, step) ==>
      Attempt(nak, at, done + step + rest) == done + Attempt(nak, at + |done|, step) &&
      !Delivered(nak, at, done + step + rest)
  {
    DeliveredAppend(nak, at, done, step);
    if !Delivered(nak, at + |done|, step) {
      assert done + step + rest == done + (step + rest);
      AttemptAppend(nak, at, done, step + rest);
      AttemptAppend(nak, at + |done|, step, rest);
      DeliveredAppend(nak, at, done + step, rest);
    }
  }

  /** Sending `p` and then, only if all of `p` went through, `q`: what reaches
      the bus and the status are those of sending `p + q`. */
  lemma AttemptThen(nak: set<nat>, at: nat, p: seq<Msg>, q: seq<Msg>)
    ensures Delivered(nak, at, p) ==> Attempt(nak, at, p) == p
    ensures Attempt(nak, at, p + q) ==
      if Delivered(nak, at, p) then p + Attempt(nak, at + |p|, q) else Attempt(nak, at, p)
    ensures Status(nak, at, p + q) ==
      if Delivered(nak, at, p) then Status(nak, at + |p|, q) else Status(nak, at, p)
  {
    AttemptStopsAtFailure(nak, at, p);
    AttemptAppend(nak, at, p, q);
    DeliveredAppend(nak, at, p, q);
  }

  /** One step of a sequencer: `done` went through and the attempt at `step`
      has just been logged after `before`. Either `step` went through and the
      log holds `next == done + step`, or the log holds the whole attempt at
      `all`, which `next` begins, and `all` fails. */
  lemma PrefixStep(nak: set<nat>, at: nat, before: seq<Msg>, done: seq<Msg>, step: seq<Msg>,
                   next: seq<Msg>, all: seq<Msg>, rest: seq<Msg>, wire: seq<Msg>)
    requires next == done + step && all == next + rest
    requires Delivered(nak, at, done)
    requires wire == before + done + Attempt(nak, at + |done|, step)
    ensures Delivered(nak, at + |done|, step) ==> wire == before + next && Delivered(nak, at, next)
    ensures !Delivered(nak, at + |done|, step) ==>
      wire == before + Attempt(nak, at, all) && !Delivered(nak, at, all)
  {
    if Delivered(nak, at + |done|, step) {
      StepDelivered(nak, at, done, step);
      assert wire == before + next;
    } else {
      StepFailed(nak, at, done, step, rest);
      assert wire == before + (done + Attempt(nak, at + |done|, step));
    }
  }

  lemma StepDelivered(nak: set<nat>, at: nat, done: seq<Msg>, step: seq<Msg>)
    requires Delivered(nak, at, done) && Delivered(nak, at + |done|, step)
    ensures Attempt(nak, at + |done|, step) == step && Delivered(nak, at, done + step)
  {
    AttemptStopsAtFailure(nak, at + |done|, step);
    DeliveredAppend(nak, at, done, step);
  }

  lemma StepFailed(nak: set<nat>, at: nat, done: seq<Msg>, step: seq<Msg>, rest: seq<Msg>)
    requires Delivered(nak, at, done) && !Delivered(nak, at + |done|, step)
    ensures Attempt(nak, at, done + step + rest) == done + Attempt(nak, at + |done|, step)
    ensures !Delivered(nak, at, done + step + rest)
  {
    AttemptAfterPrefix(nak, at, done, step, rest);
  }

  /** The messages of a sequence of steps, sent one step after the other. */
  function Concat(parts: seq<seq<Msg>>): seq<Msg>
    decreases |parts|
  {
    if parts == [] then [] else Concat(parts[..|parts| - 1]) + parts[|parts| - 1]
  }

  lemma {:induction false} ConcatAppend(a: seq<seq<Msg>>, b: seq<seq<Msg>>)
    ensures Concat(a + b) == Concat(a) + Concat(b)
    decreases |b|
  {
    if b == [] {
      assert a + b == a;
    } else {
      var b' := b[..|b| - 1];
      assert (a + b)[..|a + b| - 1] == a + b';
      assert (a + b)[|a + b| - 1] == b[|b| - 1];
      ConcatAppend(a, b');
    }
  }

  /** One step of a sequencer over `parts`, with `before` the log when it
      started: the first `i` steps went through and step `i` has just been
      attempted after the log `mid`, reporting `ret`. Either it went through and the log holds
      the first `i + 1` steps, or the log holds the whole attempt at all the
      steps, and `ret` is the status of that attempt. */
  lemma ConcatStep(nak: set<nat>, before: seq<Msg>, mid: seq<Msg>, parts: seq<seq<Msg>>, i: nat,
                    wire: seq<Msg>, ret: int)
    requires i < |parts|
    requires mid == before + Concat(parts[..i]) && Delivered(nak, |before|, Concat(parts[..i]))
    requires wire == mid + Attempt(nak, |mid|, parts[i])
    requires ret == Status(nak, |mid|, parts[i])
    ensures ret == 0 ==>
      wire == before + Concat(parts[..i + 1]) && Delivered(nak, |before|, Concat(parts[..i + 1]))
    ensures ret != 0 ==>
      wire == before + Attempt(nak, |before|, Concat(parts)) && ret == Status(nak, |before|, Concat(parts)) &&
      !Delivered(nak, |before|, Concat(parts[..i + 1]))
  {
    ConcatSplit(parts, i);
    PrefixStep(nak, |before|, before, Concat(parts[..i]), parts[i], Concat(parts[..i + 1]),
               Concat(parts), Concat(parts[i + 1..]), wire);
  }

  /** The messages of a sequence of steps, split around step `i`. */
  lemma ConcatSplit(parts: seq<seq<Msg>>, i: nat)
    requires i < |parts|
    ensures Concat(parts[..i + 1]) == Concat(parts[..i]) + parts[i]
    ensures Concat(parts) == Concat(parts[..i + 1]) + Concat(parts[i + 1..])
  {
    var front := parts[..i + 1];
    assert front[..|front| - 1] == parts[..i] && front[|front| - 1] == parts[i];
    assert front + parts[i + 1..] == parts;
    ConcatAppend(front, parts[i + 1..]);
  }

  /** A sequence of two steps that gives up when the first fails: the log
      and the status of a failed first step are those of the whole. */
  lemma ThenFailed(nak: set<nat>, before: seq<Msg>, p: seq<Msg>, q: seq<Msg>, wire: seq<Msg>, ret: int)
    requires wire == before + Attempt(nak, |before|, p) && ret == Status(nak, |before|, p) && ret != 0
    ensures wire == before + Attempt(nak, |before|, p + q) && ret == Status(nak, |before|, p + q)
  {
    AttemptThen(nak, |before|, p, q);
  }

  /** ... and once the first step went through, the log and the status of the
      second step, sent right after it, are those of the whole. */
  lemma ThenDone(nak: set<nat>, before: seq<Msg>, p: seq<Msg>, q: seq<Msg>, mid: seq<Msg>,
                 wire: seq<Msg>, ret: int)
    requires mid == before + Attempt(nak, |before|, p) && Status(nak, |before|, p) == 0
    requires wire == mid + Attempt(nak, |mid|, q) && ret == Status(nak, |mid|, q)
    ensures wire == before + Attempt(nak, |before|, p + q) && ret == Status(nak, |before|, p + q)
  {
    var at := |before|;
    var rest := Attempt(nak, |mid|, q);
    assert mid == before + p && |mid| == at + |p| by {
      AttemptStopsAtFailure(nak, at, p);
    }
    assert Attempt(nak, at, p + q) == p + rest && Status(nak, at, p + q) == ret by {
      AttemptAppend(nak, at, p, q);
      DeliveredAppend(nak, at, p, q);
    }
    assert wire == before + (p + rest) by {
      AppendAssoc(before, p, rest);
    }
  }

  lemma AppendAssoc(a: seq<Msg>, b: seq<Msg>, c: seq<Msg>)
    ensures (a + b) + c == a + (b + c)
  {
  }
}
