/** What the external-command cycle does next, and how often it may ask again. */
module NextSteps {
  import opened Ports
  import opened ExternalProfiles

  datatype Step = StepConfirm | StepAwait | StepRetry | StepFail | StepQuery | StepReconcile | StepSuspend
  {
    /** The two steps the profile's query ceiling bounds. */
    predicate Asks() {
      StepAwait? || StepQuery?
    }
  }

  function AwaitOrReconcile(p: Profile, queriesDone: int): Step {
    if queriesDone < p.maxQueries then StepAwait else StepReconcile
  }

  function QueryOrReconcile(p: Profile, queryAvailable: bool, queriesDone: int): Step {
    if queryAvailable && queriesDone < p.maxQueries then StepQuery else StepReconcile
  }

  function StepForFinding(finding: Finding, p: Profile, queryAvailable: bool, queriesDone: int): Step {
    match finding
    case FindingApplied => StepConfirm
    case FindingRejected => StepFail
    case FindingAbsent =>
      if p.keySemantics.KeyNative? || p.keySemantics.KeyHeader? || p.authoritativeAbsence then StepRetry else StepReconcile
    case FindingPending => AwaitOrReconcile(p, queriesDone)
    case _ => QueryOrReconcile(p, queryAvailable, queriesDone)
  }

  /** A finding prevails over the class, because it is what resolves the doubt. */
  function NextStep(cls: ExternalClass, finding: Finding, p: Profile, queryAvailable: bool, queriesDone: int): Step {
    if finding != FindingNone then StepForFinding(finding, p, queryAvailable, queriesDone)
    else match cls
      case ClassAccepted =>
        if p.efficacy.EfficacyOnSubmit? then StepConfirm else AwaitOrReconcile(p, queriesDone)
      case ClassRetryableTransport => StepRetry
      case ClassRetryableUpstream => StepRetry
      case ClassFinalValidation => StepFail
      case ClassFinalBusiness => StepFail
      case ClassFinalAuthorization => StepFail
      case ClassSchemaMismatch => StepSuspend
      case _ => QueryOrReconcile(p, queryAvailable, queriesDone)
  }

  predicate Resendable(p: Profile) {
    p.keySemantics.KeyNative? || p.keySemantics.KeyHeader? || p.authoritativeAbsence
  }

  /** No finding, and a class that leaves open whether the partner acted. */
  predicate Uncertain(cls: ExternalClass, finding: Finding) {
    finding == FindingNone && (cls.ClassUnknownSent? || cls.ClassUnknownAmbiguous? || !cls.Valid())
  }

  /** Which doubt each step answers, each exactly when; reconciliation is what remains. */
  lemma StepMeaning(cls: ExternalClass, finding: Finding, p: Profile, queryAvailable: bool, queriesDone: int)
    ensures var step := NextStep(cls, finding, p, queryAvailable, queriesDone);
      && (step == StepConfirm <==>
            finding == FindingApplied || (finding == FindingNone && cls == ClassAccepted && p.efficacy.EfficacyOnSubmit?))
      && (step == StepFail <==>
            finding == FindingRejected ||
            (finding == FindingNone && (cls.ClassFinalValidation? || cls.ClassFinalBusiness? || cls.ClassFinalAuthorization?)))
      && (step == StepSuspend <==> finding == FindingNone && cls == ClassSchemaMismatch)
      && (step == StepRetry <==>
            (finding == FindingNone && cls.Retryable()) || (finding == FindingAbsent && Resendable(p)))
      && (step == StepAwait <==>
            && queriesDone < p.maxQueries
            && (finding == FindingPending || (finding == FindingNone && cls == ClassAccepted && !p.efficacy.EfficacyOnSubmit?)))
      && (step == StepQuery <==>
            && queryAvailable && queriesDone < p.maxQueries
            && (finding == FindingInconclusive || finding == FindingUndeclared || Uncertain(cls, finding)))
  {
  }
}
