/** Errors that wrap errors, and how they are matched. */
module Errors {
  import opened Wrappers

  /** An error with its identity; what it wraps makes a finite tree. */
  datatype Err =
    | Leaf(id: nat)                       // a plain error
    | Error(id: nat, err: Option<Err>)    // an `Error` around one; wrapping nil leaves it empty
    | Single(id: nat, inner: Err)         // formatted with one wrapped error
    | Multi(id: nat, errs: seq<Err>)      // formatted with several, or joined

  /** Formats a specific error of a base error, wrapping further errors after it. */
  function New(id: nat, base: Err, wrapped: seq<Err>): Err {
    if wrapped == [] then Single(id, base) else Multi(id, [base] + wrapped)
  }

  /** Like `New` with a final error, and nil when there is none. */
  function Wrap(id: nat, base: Err, wrapped: seq<Err>, last: Option<Err>): Option<Err> {
    if last.None? then None else Some(New(id, base, wrapped + [last.value]))
  }

  /** The matcher: the error itself, then its own `Is`, then what it unwraps to. */
  predicate Matches(e: Err, target: Err)
    decreases e, 1
  {
    || e == target
    || (e.Error? && ErrorIs(e, target))
    || match e
       case Leaf(_) => false
       case Error(_, err) => err.Some? && Matches(err.value, target)
       case Single(_, inner) => Matches(inner, target)
       case Multi(_, errs) => exists i :: 0 <= i < |errs| && Matches(errs[i], target)
  }

  /** `Error.Is` compares the underlying error. */
  predicate ErrorIs(e: Err, target: Err)
    requires e.Error?
    decreases e, 0
  {
    e.err.Some? && Matches(e.err.value, target)
  }

  /** Unwrapping one step. */
  predicate Unwraps(e: Err, c: Err) {
    match e
    case Leaf(_) => false
    case Error(_, err) => err == Some(c)
    case Single(_, inner) => inner == c
    case Multi(_, errs) => c in errs
  }

  predicate Path(path: seq<Err>, e: Err, target: Err) {
    && path != [] && path[0] == e && path[|path| - 1] == target
    && forall i | 0 <= i < |path| - 1 :: Unwraps(path[i], path[i + 1])
  }

  lemma ExtendPath(e: Err, c: Err, path: seq<Err>, target: Err)
    requires Unwraps(e, c) && Path(path, c, target)
    ensures Path([e] + path, e, target)
  {
  }

  lemma {:induction false} MatchHasPath(e: Err, target: Err) returns (path: seq<Err>)
    requires Matches(e, target)
    ensures Path(path, e, target)
    decreases e
  {
    if e == target {
      return [e];
    }
    match e {
      case Error(_, err) =>
        path := MatchHasPath(err.value, target);
      case Single(_, inner) =>
        path := MatchHasPath(inner, target);
      case Multi(_, errs) =>
        var i :| 0 <= i < |errs| && Matches(errs[i], target);
        path := MatchHasPath(errs[i], target);
    }
    ExtendPath(e, path[0], path, target);
    path := [e] + path;
  }

  lemma {:induction false} PathMatches(path: seq<Err>, e: Err, target: Err)
    requires Path(path, e, target)
    ensures Matches(e, target)
  {
    if |path| > 1 {
      assert Unwraps(path[0], path[1]);
      PathMatches(path[1..], path[1], target);
    }
  }

  /** Matching is reachability: an error matches exactly the errors it unwraps to, in any number of steps. */
  lemma MatchesIffReachable(e: Err, target: Err)
    ensures Matches(e, target) <==> exists path :: Path(path, e, target)
  {
    if Matches(e, target) {
      var path := MatchHasPath(e, target);
    } else if path :| Path(path, e, target) {
      PathMatches(path, e, target);
    }
  }

  /** Matching is transitive. */
  lemma {:induction false} MatchesTransitive(e: Err, mid: Err, target: Err)
    requires Matches(e, mid) && Matches(mid, target)
    ensures Matches(e, target)
  {
    var p := MatchHasPath(e, mid);
    var q := MatchHasPath(mid, target);
    var path := p + q[1..];
    assert forall i | |p| - 1 <= i < |path| :: path[i] == q[i - (|p| - 1)];
    PathMatches(path, e, target);
  }

  /** An `Error` matches itself and what the error it wraps matches; an empty one matches nothing else. */
  lemma ErrorMatchesIff(id: nat, err: Option<Err>, target: Err)
    ensures Matches(Error(id, err), target) <==> target == Error(id, err) || (err.Some? && Matches(err.value, target))
  {
  }

  /** A new error matches itself, and what its base or one of the errors it wraps matches. */
  lemma NewMatchesIff(id: nat, base: Err, wrapped: seq<Err>, target: Err)
    ensures Matches(New(id, base, wrapped), target) <==>
            || target == New(id, base, wrapped)
            || Matches(base, target)
            || exists i :: 0 <= i < |wrapped| && Matches(wrapped[i], target)
  {
    var all := [base] + wrapped;
    assert all[0] == base && forall i | 0 <= i < |wrapped| :: all[i + 1] == wrapped[i];
    assert forall i | 1 <= i < |all| :: all[i] == wrapped[i - 1];
  }

  /** A wrapped error is nil exactly without a final error, which it matches otherwise, as `New` does. */
  lemma WrapMatchesIff(id: nat, base: Err, wrapped: seq<Err>, last: Option<Err>, target: Err)
    ensures var e := Wrap(id, base, wrapped, last);
            && (e.None? <==> last.None?)
            && (e.Some? ==>
                  (Matches(e.value, target) <==>
                     || target == e.value
                     || Matches(base, target)
                     || (exists i :: 0 <= i < |wrapped| && Matches(wrapped[i], target))
                     || Matches(last.value, target)))
  {
    if last.Some? {
      var all := wrapped + [last.value];
      NewMatchesIff(id, base, all, target);
      assert all[|wrapped|] == last.value && forall i | 0 <= i < |wrapped| :: all[i] == wrapped[i];
    }
  }

  /** The notification of a dropped event: it wraps the handler's error, and only mentions the rejection. */
  function DropNotice(id: nat, controller: Err, inner: nat, cause: Err): Err {
    New(id, controller, [New(inner, controller, [cause])])
  }

  /**
   So it matches an error apart from the controller's own exactly when the handler's error does: it
   does not tell the exhausted retries unless the handler's error happens to.
   */
  lemma DropNoticeMatchesIff(id: nat, controller: Err, inner: nat, cause: Err, target: Err)
    requires target != DropNotice(id, controller, inner, cause) && target != New(inner, controller, [cause])
    requires !Matches(controller, target)
    ensures Matches(DropNotice(id, controller, inner, cause), target) <==> Matches(cause, target)
  {
    NewMatchesIff(id, controller, [New(inner, controller, [cause])], target);
    NewMatchesIff(inner, controller, [cause], target);
    assert [cause][0] == cause;
    assert [New(inner, controller, [cause])][0] == New(inner, controller, [cause]);
  }

  const CONTROLLER := Error(1, Some(Leaf(0)))
  const QUEUE := Error(3, Some(Leaf(2)))
  const MAX_RETRIES := New(4, QUEUE, [])

  /** The notification tells the exhausted retries exactly when the handler's error does, so with a plain one not. */
  lemma NoticeHidesMaxRetries(id: nat, inner: nat, cause: Err, plain: nat)
    ensures Matches(DropNotice(id, CONTROLLER, inner, cause), MAX_RETRIES) <==> Matches(cause, MAX_RETRIES)
    ensures !Matches(DropNotice(id, CONTROLLER, inner, Leaf(plain)), MAX_RETRIES)
  {
    DropNoticeMatchesIff(id, CONTROLLER, inner, cause, MAX_RETRIES);
    DropNoticeMatchesIff(id, CONTROLLER, inner, Leaf(plain), MAX_RETRIES);
  }
}
