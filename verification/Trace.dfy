/** The event stream of a run (internal/runner/runner.go), and when it is well bracketed. */
module Trace {
  import opened Config

  datatype Event =
    | RunStart(target: string)
    | RunEnd(ok: bool)
    | TargetStart(target: string)
    | TargetEnd(target: string, ok: bool)
    | CacheSkip(target: string)
    | WhenSkip(target: string)
    | StepStart(target: string, step: nat)
    | StepEnd(target: string, step: nat, ok: bool)

  predicate OfTarget(e: Event, n: string) {
    !e.RunStart? && !e.RunEnd? && e.target == n
  }

  predicate Closing(e: Event) {
    e.TargetEnd? || e.CacheSkip? || e.WhenSkip?
  }

  /** How far the events of one target have come: not begun, open after step `last`,
      inside step `step`, after a failed step, closed, or out of order. */
  datatype Bracket = Fresh | Open(last: nat) | Inside(step: nat) | Broken | Closed | Bad

  function Advance(b: Bracket, e: Event): Bracket {
    match (b, e)
    case (Fresh, TargetStart(_)) => Open(0)
    case (Open(last), StepStart(_, k)) => if k > last then Inside(k) else Bad
    case (Inside(k), StepEnd(_, l, ok)) => if k != l then Bad else if ok then Open(k) else Broken
    case (Open(_), TargetEnd(_, _)) => Closed
    case (Open(last), CacheSkip(_)) => if last == 0 then Closed else Bad
    case (Open(last), WhenSkip(_)) => if last == 0 then Closed else Bad
    case (Broken, TargetEnd(_, ok)) => if ok then Bad else Closed
    case _ => Bad
  }

  function Scan(trace: seq<Event>, n: string): Bracket {
    if trace == [] then Fresh
    else
      var e := trace[|trace| - 1];
      var b := Scan(trace[..|trace| - 1], n);
      if OfTarget(e, n) then Advance(b, e) else b
  }

  lemma {:induction false} ScanAppend(trace: seq<Event>, e: Event, n: string)
    ensures Scan(trace + [e], n) == if OfTarget(e, n) then Advance(Scan(trace, n), e) else Scan(trace, n)
  {
    assert (trace + [e])[..|trace|] == trace;
  }

  /** `run_start` first, and no other run event so far. */
  ghost predicate Begun(trace: seq<Event>, t: string) {
    && |trace| > 0 && trace[0] == RunStart(t)
    && forall i :: 0 < i < |trace| ==> !trace[i].RunStart? && !trace[i].RunEnd?
  }

  /** A finished stream: one `run_start`, first; one `run_end`, last; every target's events
      either absent or a complete bracket. */
  ghost predicate WellBracketed(trace: seq<Event>, t: string, ok: bool) {
    && |trace| > 1
    && Begun(trace[..|trace| - 1], t)
    && trace[|trace| - 1] == RunEnd(ok)
    && forall n :: Scan(trace, n) == Fresh || Scan(trace, n) == Closed
  }

  /** The events of `n` seen so far, written without the automaton. */
  ghost predicate Silent(trace: seq<Event>, n: string) {
    forall i :: 0 <= i < |trace| ==> !OfTarget(trace[i], n)
  }

  /** One start at `a`, nothing of `n` before it, only step events of `n` after it. */
  ghost predicate OpenedAt(trace: seq<Event>, n: string, a: nat) {
    && a < |trace| && trace[a] == TargetStart(n)
    && forall i :: 0 <= i < |trace| && i != a && OfTarget(trace[i], n) ==>
      a < i && (trace[i].StepStart? || trace[i].StepEnd?)
  }

  ghost predicate OpenedSomewhere(trace: seq<Event>, n: string) {
    exists a :: OpenedAt(trace, n, a)
  }

  /** One start at `a`, one closing event at `b`, everything else of `n` is a step event between them. */
  ghost predicate BracketAt(trace: seq<Event>, n: string, a: nat, b: nat) {
    && a < b < |trace| && trace[a] == TargetStart(n) && OfTarget(trace[b], n) && Closing(trace[b])
    && forall i :: 0 <= i < |trace| && i != a && i != b && OfTarget(trace[i], n) ==>
                     a < i < b && (trace[i].StepStart? || trace[i].StepEnd?)
  }

  ghost predicate BracketSomewhere(trace: seq<Event>, n: string) {
    exists a, b :: BracketAt(trace, n, a, b)
  }

  /** The automaton says what the indices say. */
  lemma {:induction false} ScanMeaning(trace: seq<Event>, n: string)
    ensures match Scan(trace, n)
            case Fresh => Silent(trace, n)
            case Open(_) => OpenedSomewhere(trace, n)
            case Inside(_) => OpenedSomewhere(trace, n)
            case Broken => OpenedSomewhere(trace, n)
            case Closed => BracketSomewhere(trace, n)
            case Bad => true
    decreases |trace|
  {
    if trace != [] {
      var e := trace[|trace| - 1];
      var rest := trace[..|trace| - 1];
      var last := |trace| - 1;
      ScanMeaning(rest, n);
      var b := Scan(rest, n);
      if !OfTarget(e, n) {
        if OpenedSomewhere(rest, n) {
          var a :| OpenedAt(rest, n, a);
          assert OpenedAt(trace, n, a);
        }
        if BracketSomewhere(rest, n) {
          var a, c :| BracketAt(rest, n, a, c);
          assert BracketAt(trace, n, a, c);
        }
      } else if b.Fresh? && e.TargetStart? {
        assert OpenedAt(trace, n, last);
      } else if b.Open? || b.Inside? || b.Broken? {
        var a :| OpenedAt(rest, n, a);
        if Scan(trace, n).Closed? {
          assert BracketAt(trace, n, a, last);
        } else if !Scan(trace, n).Bad? {
          assert OpenedAt(trace, n, a);
        }
      }
    }
  }

  /** In a finished stream every target that appears has exactly one complete bracket. */
  lemma {:induction false} WellBracketedMeaning(trace: seq<Event>, t: string, ok: bool, n: string)
    requires WellBracketed(trace, t, ok)
    ensures Silent(trace, n) || BracketSomewhere(trace, n)
  {
    ScanMeaning(trace, n);
  }
}
