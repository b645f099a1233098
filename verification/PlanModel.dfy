/** The steps of a normalized plan (src/dispatcher/plan.py), with the fields the model reads. */
module PlanModel {
  import opened WritableScopes

  type Id = string

  datatype Lock = Lock(resource: string, write: bool)

  datatype Review = Review(required: bool, reviewers: seq<string>, acceptances: nat)

  /** `producers` are the producing steps that the required inputs name, `evidence` the required
      artifacts, `needsApproval` the authorization's operator approval. */
  datatype PlanStep = PlanStep(
    id: Id, ordinal: nat, repository: string, dependsOn: seq<Id>, producers: seq<Id>, outputs: seq<string>,
    locks: seq<Lock>, paths: seq<Scope>, evidence: seq<string>, review: Review, riskTags: seq<string>,
    maxReviews: nat, needsApproval: bool)

  /** No step is listed twice. */
  predicate DistinctIds(steps: seq<PlanStep>) {
    forall i, j | 0 <= i < j < |steps| :: steps[i].id != steps[j].id
  }
}
