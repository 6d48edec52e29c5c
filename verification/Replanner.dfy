/** One replan: gate, planner, next version, materiality. The planner's answer and the gate's are parameters. */
module Replanner {
  import opened Domain
  import opened Wrappers
  import Materiality
  import MoveGraph
  import Versioning

  datatype Outcome =
    | PlannerFailed
    | Gated
    | Evaluated(material: bool, reason: Materiality.Reason, candidate: Versioning.PlanVersion)

  /** The version a planner's proposal would become. */
  ghost function Candidate(current: Versioning.PlanVersion, proposal: seq<RankedMove>): Versioning.PlanVersion {
    Versioning.PlanVersion(current.planID, current.version + 1, MoveGraph.Sanitize(proposal))
  }

  /** Whatever the planner proposes, the candidate is version N+1 of the same plan over the sanitised proposal, and it
      is not material exactly when the evaluator finds nothing changed. */
  method Replan(slug: Materiality.Slug, delta: real, current: Versioning.PlanVersion, proceed: bool,
                planned: Option<seq<RankedMove>>)
    returns (r: Outcome)
    ensures r == Gated <==> !proceed
    ensures r == PlannerFailed <==> proceed && planned.None?
    ensures r.Evaluated? ==>
              && planned.Some? && r.candidate == Candidate(current, planned.value)
              && MoveGraph.Sanitized(planned.value, r.candidate.moves)
              && (r.material <==>
                    !Materiality.Immaterial(slug, Materiality.Threshold(delta), current.moves, r.candidate.moves))
  {
    hide MoveGraph.Sanitize, MoveGraph.Sanitized, Materiality.Immaterial;
    if !proceed {
      return Gated;
    }
    if planned.None? {
      return PlannerFailed;
    }
    var moves := MoveGraph.SanitizeMoveGraph(planned.value);
    var candidate := Versioning.PlanVersion(current.planID, current.version + 1, moves);
    var material, reason := Materiality.IsMaterial(slug, delta, current.moves, candidate.moves);
    return Evaluated(material, reason, candidate);
  }

  /** MAIN: a job that wrote its version is run again while that version is current, with a planner that makes the same
      raw proposal, whatever it is: the second run is immaterial, and creates no duplicate version, exactly when the
      proposal has moves and, once sanitised, its moves sharing a key agree in their execution structure. */
  lemma RerunOfWrittenVersion(slug: Materiality.Slug, delta: real, current: Versioning.PlanVersion,
                              proposal: seq<RankedMove>)
    ensures var written := Candidate(current, proposal);
            Materiality.Immaterial(slug, Materiality.Threshold(delta), written.moves,
                                   Candidate(written, proposal).moves)
            <==> proposal != [] && Materiality.SelfConsistent(slug, MoveGraph.Sanitize(proposal))
  {
    hide MoveGraph.Sanitize, Materiality.Immaterial, Materiality.SelfConsistent;
    MoveGraph.SanitizeCorrect(proposal);
    Materiality.RerunCreatesNoVersionIff(slug, Materiality.Threshold(delta), MoveGraph.Sanitize(proposal));
  }

  /** A planner that echoes the current moves, whichever version is current: sanitising is idempotent, so the only moves
      that become a version again are those that differ from themselves. */
  lemma EchoOfCurrentVersion(slug: Materiality.Slug, delta: real, current: Versioning.PlanVersion,
                             proposal: seq<RankedMove>)
    requires current.moves == MoveGraph.Sanitize(proposal)
    ensures Materiality.Immaterial(slug, Materiality.Threshold(delta), current.moves,
                                   Candidate(current, current.moves).moves)
            <==> current.moves != [] && Materiality.SelfConsistent(slug, current.moves)
  {
    hide MoveGraph.Sanitize, Materiality.Immaterial, Materiality.SelfConsistent;
    MoveGraph.SanitizeIdempotent(proposal);
    MoveGraph.SanitizeCorrect(proposal);
    Materiality.RerunCreatesNoVersionIff(slug, Materiality.Threshold(delta), current.moves);
  }
}
