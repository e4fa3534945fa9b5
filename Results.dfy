/** What an analysis produces for one class: a three-way verdict and an ordered
    list of located reasons. */
module Results {
  import opened Locations

  /** The verdict on a class (`IsImmutable`). */
  datatype IsImmutable = Immutable | EffectivelyImmutable | NotImmutable

  /** The closed catalogue of structural defects a reason can name (`MutabilityReason`). */
  datatype MutabilityReason =
    | NotDeclaredFinal
    | PublishedNonFinalField
    | MutableTypeToField
    | EscapedThisReference
    | FieldCanBeReassigned
    | AbstractTypeToField
    | CollectionFieldNotCopied

  /** One located, coded explanation (`MutableReasonDetail`). */
  datatype MutableReasonDetail = MutableReasonDetail(message: string, codeLocation: CodeLocation, reason: MutabilityReason)

  /** The result of analysing one class (`AnalysisResult.analysisResult`); reasons keep their insertion order. */
  datatype AnalysisResult = AnalysisResult(dottedClassName: string, isImmutable: IsImmutable, reasons: seq<MutableReasonDetail>)
}
