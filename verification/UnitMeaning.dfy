/** What the runner reads off a target, said by the clauses of the Bakefile (internal/runner/runner.go). */
module UnitMeaning {
  import C = Config
  import opened Ast
  import opened Compile
  import opened BodyMeaning
  import opened ParallelRun
  import opened ParallelTheorems

  function LastText(s: seq<string>): string {
    LastOr("", s)
  }

  /** A target is guarded exactly if some `when` clause has a command word or the last one with a variable names one;
      cached exactly if it has an input and an output; run in a container exactly if its last image is not empty and it
      does not say `unsafe`. Its pool and mutex are the last ones, and the steps of a preset replace its own. */
  lemma {:induction false} UnitOfBody(name: string, body: seq<BodyEntry>, filePrivate: bool, presetSteps: nat)
    ensures var u := UnitFor(TargetOf(name, Braced(body), filePrivate), presetSteps);
      && (u.guarded <==>
            (exists e :: e in body && e.WhenCmd? && e.argv != []) || LastText(Gather(VariableParts, body)) != "")
      && (u.cached <==>
            && (exists e :: e in body && e.Inputs? && e.paths != [])
            && (exists e :: e in body && e.Outputs? && e.paths != []))
      && (u.contained <==> LastText(Gather(ImageParts, body)) != "" && Unsafe !in body)
      && u.pool == LastText(Gather(PoolParts, body))
      && u.mutex == LastText(Gather(MutexParts, body))
      && u.steps == if presetSteps > 0 then presetSteps else |Gather(StepParts, body)|
  {
    var blank := C.BlankTarget(name, filePrivate);
    FieldsAreLast(blank, body);
    ListsAreCollected(blank, body);
    PathsSaid(body);
    GuardSaid(body);
  }

  lemma {:induction false} PathsSaid(body: seq<BodyEntry>)
    ensures Gather(InputParts, body) != [] <==> exists e :: e in body && e.Inputs? && e.paths != []
    ensures Gather(OutputParts, body) != [] <==> exists e :: e in body && e.Outputs? && e.paths != []
  {
    GathersSomething(InputParts, body);
    GathersSomething(OutputParts, body);
    assert forall e :: InputParts(e) != [] <==> e.Inputs? && e.paths != [];
    assert forall e :: OutputParts(e) != [] <==> e.Outputs? && e.paths != [];
  }

  lemma {:induction false} GuardSaid(body: seq<BodyEntry>)
    ensures Gather(GuardParts, body) != [] <==> exists e :: e in body && e.WhenCmd? && e.argv != []
  {
    GathersSomething(GuardParts, body);
    assert forall e :: GuardParts(e) != [] <==> e.WhenCmd? && e.argv != [];
  }
}
