/**
 * The description a transformation node hands to the build-operation executor for one
 * computation: a display name, a progress name whose prefix external log consumers
 * match on, and the TRANSFORM category. The executor itself is not modelled.
 */
module BuildOperations {

  /** The progress prefix external tooling filters on; it must stay exactly this text. */
  const TransformingProgressPrefix: string := "Transforming "

  const TransformDisplayPrefix: string := "Transform "

  const WithSeparator: string := " with "

  /** BuildOperationCategory.TRANSFORM. */
  datatype Category = Transform

  /** ExecuteScheduledTransformationStepBuildOperationType.RESULT, the fixed result marker. */
  datatype OperationResult = ExecuteScheduledTransformationStepResult

  const StepResult: OperationResult := ExecuteScheduledTransformationStepResult

  datatype Descriptor = Descriptor(displayName: string, progressDisplayName: string, category: Category)

  /**
   * `description()`: the display name reads "Transform <subject> with <transformer>"; the
   * progress name is the same text with "Transform " swapped for the fixed progress prefix.
   */
  function Description(subjectName: string, transformerName: string): (d: Descriptor)
    ensures |TransformDisplayPrefix| <= |d.displayName|
    ensures d.displayName[..|TransformDisplayPrefix|] == TransformDisplayPrefix
    ensures d.progressDisplayName == TransformingProgressPrefix + d.displayName[|TransformDisplayPrefix|..]
    ensures var suffix := WithSeparator + transformerName;
      && |suffix| <= |d.displayName| && |suffix| <= |d.progressDisplayName|
      && d.displayName[|d.displayName| - |suffix|..] == suffix
      && d.progressDisplayName[|d.progressDisplayName| - |suffix|..] == suffix
    ensures |TransformDisplayPrefix| + |subjectName| + |WithSeparator + transformerName| == |d.displayName|
    ensures d.displayName[|TransformDisplayPrefix|..|d.displayName| - |WithSeparator + transformerName|] == subjectName
    ensures d.category == Transform
  {
    var basicName := subjectName + WithSeparator + transformerName;
    assert TransformDisplayPrefix + basicName == TransformDisplayPrefix + subjectName + (WithSeparator + transformerName);
    Descriptor(TransformDisplayPrefix + basicName, TransformingProgressPrefix + basicName, Transform)
  }

  /** For one transformer, the display name tells which subject was being transformed. */
  lemma {:induction false} DisplayNameDeterminesSubject(s1: string, s2: string, transformerName: string)
    requires Description(s1, transformerName).displayName == Description(s2, transformerName).displayName
    ensures s1 == s2
  {
    var suffix := WithSeparator + transformerName;
    var d1 := Description(s1, transformerName).displayName;
    var d2 := Description(s2, transformerName).displayName;
    assert d1 == TransformDisplayPrefix + s1 + suffix;
    assert d2 == TransformDisplayPrefix + s2 + suffix;
    assert |s1| == |s2|;
    assert s1 == d1[|TransformDisplayPrefix|..|TransformDisplayPrefix| + |s1|];
    assert s2 == d2[|TransformDisplayPrefix|..|TransformDisplayPrefix| + |s2|];
  }
}
