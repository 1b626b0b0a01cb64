/** The parts of an accepted operation plan, of a package image and of the
    execution control that application reads.  The types themselves belong to
    libpkgplan and libpkgimage, whose sources are not part of this model. */
module Plans {
  import opened Wrappers
  import opened Paths

  datatype ActiveOutcome =
    | ActivateIncoming
    | RetainObserved
    | RemoveObserved
    | RemoveDirectoryIfEmpty
    | RemainAbsent

  datatype RejectedOutcome = NoRejected | StageIncoming | StageOld

  datatype EntryKind =
    | Regular
    | Hardlink
    | Directory
    | Symlink
    | Fifo
    | CharacterDevice
    | BlockDevice

  type EntryId = nat

  datatype ImageEntry = ImageEntry(path: Path, kind: EntryKind, hardlinkTarget: Option<Path>)

  type Image = map<EntryId, ImageEntry>

  /** One path of a plan.  `present` is the planned observation of the path. */
  datatype Decision = Decision(
    path: Path,
    active: ActiveOutcome,
    rejected: RejectedOutcome,
    incoming: Option<EntryId>,
    present: bool)

  type Plan = seq<Decision>

  datatype RecoveryRequirement = NoRecovery | BestEffort | ExactPriorState

  datatype DurabilityRequirement = VisibilityOnly | JournalAndRecovery | AllDomains

  datatype Control = Control(recovery: RecoveryRequirement, durability: DurabilityRequirement)

  function PlanPaths(plan: Plan): (paths: seq<Path>)
    ensures |paths| == |plan|
  {
    seq(|plan|, i requires 0 <= i < |plan| => plan[i].path)
  }

  /** Plans list their decisions in canonical path order. */
  ghost predicate Canonical(plan: Plan) {
    Ascending(PlanPaths(plan))
  }

  lemma CanonicalDistinct(plan: Plan)
    requires Canonical(plan)
    ensures forall i, j :: 0 <= i < j < |plan| ==> plan[i].path != plan[j].path
  {
    AscendingDistinct(PlanPaths(plan));
    assert forall i :: 0 <= i < |plan| ==> PlanPaths(plan)[i] == plan[i].path;
  }

  function DecisionOf(plan: Plan, p: Path): (d: Option<Decision>)
    ensures d.Some? ==> d.value in plan && d.value.path == p
    ensures d.None? ==> forall e :: e in plan ==> e.path != p
  {
    if plan == [] then None
    else if plan[|plan| - 1].path == p then Some(plan[|plan| - 1])
    else DecisionOf(plan[..|plan| - 1], p)
  }

  /** Only conditional directory removal may retain its object. */
  predicate MayRetain(plan: Plan, p: Path) {
    var d := DecisionOf(plan, p);
    d.Some? && d.value.active.RemoveDirectoryIfEmpty?
  }
}
