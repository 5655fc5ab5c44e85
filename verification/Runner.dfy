/**
 Starting controllers: the barrier between all `Init`s and all `Run`s, with the wait for the cache that
 may not end, and the error channel an `Init` may block on.
 */
module Runner {
  import opened Wrappers
  import opened Sequences

  datatype Init = Unstarted | Running | Reporting | Returned

  /** How the wait for the cache ends in an `Init`: synced, given up, or not at all. */
  datatype Wait = Synced | Failed | Stalled

  /** The wait of each runnable, the capacity of the error channel, and whether it is read. */
  datatype Config = Config(waits: seq<Wait>, room: nat, reading: bool)

  datatype State = State(
    inits: seq<Init>,
    launched: nat,    // Inits started, in order
    passed: bool,     // the wait group has been waited for
    started: nat,     // Runs started, in order
    room: nat         // room left in the error channel
  )

  datatype Label =
    | StartInit(i: nat)
    | Succeed(i: nat)    // Init returns
    | Fail(i: nat)       // Init has an error to send
    | Send(i: nat)       // into the buffer, and Init returns
    | Handoff(i: nat)    // to a reader, and Init returns
    | Receive            // a reader makes room
    | Pass
    | StartRun(i: nat)
  {
    predicate Returns(j: nat) { (Succeed? || Send? || Handoff?) && i == j }
  }

  function Start(c: Config): State {
    State(seq(|c.waits|, _ => Unstarted), 0, false, 0, c.room)
  }

  predicate Enabled(c: Config, s: State, l: Label) {
    match l
    case StartInit(i) => i == s.launched < |s.inits|
    case Succeed(i) => i < |s.inits| == |c.waits| && s.inits[i] == Running && c.waits[i].Synced?
    case Fail(i) => i < |s.inits| == |c.waits| && s.inits[i] == Running && c.waits[i].Failed?
    case Send(i) => i < |s.inits| && s.inits[i] == Reporting && s.room > 0
    case Handoff(i) => i < |s.inits| && s.inits[i] == Reporting && c.reading
    case Receive => c.reading && s.room < c.room
    case Pass => !s.passed && s.launched == |s.inits| && AllReturned(s)
    case StartRun(i) => s.passed && i == s.started < |s.inits|
  }

  predicate AllReturned(s: State) {
    forall i | 0 <= i < |s.inits| :: s.inits[i] == Returned
  }

  function Apply(c: Config, s: State, l: Label): State
    requires Enabled(c, s, l)
  {
    match l
    case StartInit(i) => s.(inits := s.inits[i := Running], launched := i + 1)
    case Succeed(i) => s.(inits := s.inits[i := Returned])
    case Fail(i) => s.(inits := s.inits[i := Reporting])
    case Send(i) => s.(inits := s.inits[i := Returned], room := s.room - 1)
    case Handoff(i) => s.(inits := s.inits[i := Returned])
    case Receive => s.(room := s.room + 1)
    case Pass => s.(passed := true)
    case StartRun(i) => s.(started := i + 1)
  }

  function Run(c: Config, trace: seq<Label>): Option<State> {
    if trace == [] then Some(Start(c))
    else
      match Run(c, trace[..|trace| - 1])
      case None => None
      case Some(s) =>
        var l := trace[|trace| - 1];
        if Enabled(c, s, l) then Some(Apply(c, s, l)) else None
  }

  function Is(l: Label): Label -> bool {
    (m: Label) => m == l
  }

  function Progresses(): Label -> bool {
    (m: Label) => !m.Receive?
  }

  // The barrier

  ghost predicate Inv(c: Config, s: State) {
    && |s.inits| == |c.waits|
    && s.launched <= |s.inits| && s.started <= |s.inits|
    && (forall i | 0 <= i < |s.inits| :: s.inits[i] == Unstarted <==> s.launched <= i)
    && (forall i | 0 <= i < |s.inits| :: s.inits[i] == Reporting ==> c.waits[i].Failed?)
    && (forall i | 0 <= i < |s.inits| :: s.inits[i] == Returned ==> !c.waits[i].Stalled?)
    && (s.passed ==> AllReturned(s))
    && (s.started > 0 ==> s.passed)
  }

  lemma {:induction false} BarrierRun(c: Config, trace: seq<Label>, s: State)
    requires Run(c, trace) == Some(s)
    ensures Inv(c, s)
    ensures forall i | 0 <= i < |s.inits| && s.inits[i] == Returned ::
              exists j :: 0 <= j < |trace| && trace[j].Returns(i)
  {
    if trace != [] {
      var n := |trace| - 1;
      var before := Run(c, trace[..n]).value;
      BarrierRun(c, trace[..n], before);
      forall i | 0 <= i < |s.inits| && s.inits[i] == Returned
        ensures exists j :: 0 <= j < |trace| && trace[j].Returns(i)
      {
        if before.inits[i] == Returned {
          var j :| 0 <= j < n && trace[..n][j].Returns(i);
          assert trace[j].Returns(i);
        } else {
          assert trace[n].Returns(i);
        }
      }
    }
  }

  lemma {:induction false} StartedOnce(c: Config, trace: seq<Label>, s: State, i: nat)
    requires Run(c, trace) == Some(s)
    ensures Count(trace, Is(StartInit(i))) == if i < s.launched then 1 else 0
    ensures Count(trace, Is(StartRun(i))) == if i < s.started then 1 else 0
  {
    if trace != [] {
      StartedOnce(c, trace[..|trace| - 1], Run(c, trace[..|trace| - 1]).value, i);
    }
  }

  /** No Run starts before every Init has returned, and each is started at most once. */
  lemma InitBarrier(c: Config, trace: seq<Label>, s: State, r: nat, i: nat)
    requires Run(c, trace) == Some(s) && i < |c.waits|
    ensures Count(trace, Is(StartInit(i))) <= 1 && Count(trace, Is(StartRun(i))) <= 1
    ensures r < |trace| && trace[r].StartRun? ==> exists j :: 0 <= j < r && trace[j].Returns(i)
  {
    StartedOnce(c, trace, s, i);
    if r < |trace| && trace[r].StartRun? {
      var before := PrefixRuns(c, trace, r);
      BarrierRun(c, trace[..r], before);
      assert before.inits[i] == Returned;
      var j :| 0 <= j < r && trace[..r][j].Returns(i);
      assert trace[j].Returns(i);
    }
  }

  lemma {:induction false} PrefixRuns(c: Config, trace: seq<Label>, r: nat) returns (before: State)
    requires Run(c, trace).Some? && r < |trace|
    ensures Run(c, trace[..r]) == Some(before) && Enabled(c, before, trace[r])
    decreases |trace|
  {
    var n := |trace| - 1;
    if r == n {
      before := Run(c, trace[..n]).value;
    } else {
      assert trace[..n][..r] == trace[..r];
      before := PrefixRuns(c, trace[..n], r);
    }
  }

  // Progress

  function Rank(p: Init): nat {
    match p
    case Unstarted => 3
    case Running => 2
    case Reporting => 1
    case Returned => 0
  }

  function Left(s: State): int {
    Sum(s.inits, Rank) + (if s.passed then 0 else 1) + |s.inits| - s.started
  }

  /** The actions other than reads of the channel are bounded: 4n+1 for n runnables. */
  lemma {:induction false} ProgressIsBounded(c: Config, trace: seq<Label>, s: State)
    requires Run(c, trace) == Some(s)
    ensures Left(s) >= 0 && Count(trace, Progresses()) + Left(s) <= 4 * |c.waits| + 1
  {
    BarrierRun(c, trace, s);
    if trace == [] {
      SumBound(s.inits, Rank, 3);
    } else {
      var n := |trace| - 1;
      var before, l := Run(c, trace[..n]).value, trace[n];
      ProgressIsBounded(c, trace[..n], before);
      BarrierRun(c, trace[..n], before);
      if !l.Receive? && !l.Pass? && !l.StartRun? {
        SumUpdate(before.inits, Rank, l.i, s.inits[l.i]);
      }
    }
  }

  function Failing(waits: seq<Wait>): nat {
    if waits == [] then 0 else Failing(waits[..|waits| - 1]) + if waits[|waits| - 1].Failed? then 1 else 0
  }

  /** The Inits that have sent an error. */
  function Sent(waits: seq<Wait>, inits: seq<Init>): nat
    requires |waits| == |inits|
  {
    if waits == [] then 0
    else
      var n := |waits| - 1;
      Sent(waits[..n], inits[..n]) + if waits[n].Failed? && inits[n] == Returned then 1 else 0
  }

  lemma {:induction false} SentUpdate(waits: seq<Wait>, inits: seq<Init>, i: nat, p: Init)
    requires i < |inits| == |waits| && inits[i] != Returned
    ensures Sent(waits, inits[i := p]) == Sent(waits, inits) + if waits[i].Failed? && p == Returned then 1 else 0
  {
    var n := |waits| - 1;
    if i < n {
      SentUpdate(waits[..n], inits[..n], i, p);
      assert inits[i := p][..n] == inits[..n][i := p];
    } else {
      assert inits[i := p][..n] == inits[..n];
    }
  }

  lemma {:induction false} SentBound(waits: seq<Wait>, inits: seq<Init>)
    requires |inits| == |waits|
    ensures Sent(waits, inits) <= Failing(waits)
    ensures (forall i | 0 <= i < |inits| :: inits[i] == Returned) ==> Sent(waits, inits) == Failing(waits)
    ensures (exists i :: 0 <= i < |inits| && waits[i].Failed? && inits[i] != Returned)
            ==> Sent(waits, inits) < Failing(waits)
  {
    if waits != [] {
      SentBound(waits[..|waits| - 1], inits[..|waits| - 1]);
    }
  }

  /** Without a reader, each error sent takes room for good. */
  lemma {:induction false} RoomRun(c: Config, trace: seq<Label>, s: State)
    requires Run(c, trace) == Some(s) && !c.reading
    ensures |s.inits| == |c.waits| && s.room + Sent(c.waits, s.inits) == c.room
  {
    BarrierRun(c, trace, s);
    if trace == [] {
      NoneSent(c.waits, s.inits);
    } else {
      var n := |trace| - 1;
      var before, l := Run(c, trace[..n]).value, trace[n];
      BarrierRun(c, trace[..n], before);
      RoomRun(c, trace[..n], before);
      if !l.Receive? && !l.Pass? && !l.StartRun? {
        SentUpdate(c.waits, before.inits, l.i, s.inits[l.i]);
      }
    }
  }

  lemma {:induction false} NoneSent(waits: seq<Wait>, inits: seq<Init>)
    requires |inits| == |waits| && forall i | 0 <= i < |inits| :: inits[i] != Returned
    ensures Sent(waits, inits) == 0
  {
    if waits != [] {
      NoneSent(waits[..|waits| - 1], inits[..|waits| - 1]);
    }
  }

  /** Every wait ends, and the error channel is read, or has room for every failing Init. */
  predicate CanStart(c: Config) {
    Stalled !in c.waits && (c.reading || Failing(c.waits) <= c.room)
  }

  /**
   All Runs are started exactly when no wait stalls and the error channel suffices: if so, a run that
   has not started them all can go on, with one of the boundedly many actions that are not reads; if
   not, no run ever starts one.
   */
  lemma AllRunsStartIff(c: Config, trace: seq<Label>, s: State)
    requires Run(c, trace) == Some(s)
    ensures CanStart(c) && s.started < |c.waits| ==> exists l: Label :: !l.Receive? && Enabled(c, s, l)
    ensures !CanStart(c) ==> s.started == 0
  {
    BarrierRun(c, trace, s);
    if !c.reading {
      RoomRun(c, trace, s);
      SentBound(c.waits, s.inits);
    }
    if CanStart(c) && s.started < |c.waits| {
      var l :=
        if s.passed then StartRun(s.started)
        else if s.launched < |s.inits| then StartInit(s.launched)
        else if AllReturned(s) then Pass
        else
          var i: nat :| i < |s.inits| && s.inits[i] != Returned;
          if s.inits[i] == Reporting then if c.reading then Handoff(i) else Send(i)
          else if c.waits[i].Failed? then Fail(i) else Succeed(i);
      assert !l.Receive? && Enabled(c, s, l);
    }
  }
}
