/**
 * What the transformation node promises: its place in the order, the input set of a
 * chain, the order in which it reports dependencies, how failures travel along a chain,
 * and how each computation is described to the build-operation executor.
 */
module TransformationNodeProperties {

  import opened Results
  import JavaStrings
  import opened BuildOperations
  import opened TransformationNodes

  // ---- ordering ----

  /** The Chained class name sorts before the Initial one: 'C' - 'I'. */
  lemma ChainedClassNameFirst()
    ensures JavaStrings.CompareTo(ChainedClassName, InitialClassName) == 'C' as int - 'I' as int
    ensures JavaStrings.CompareTo(InitialClassName, ChainedClassName) == 'I' as int - 'C' as int
  {
    JavaStrings.CompareToCommonPrefix(ClassNamePrefix, "ChainedTransformationNode", "InitialTransformationNode");
    JavaStrings.CompareToCommonPrefix(ClassNamePrefix, "InitialTransformationNode", "ChainedTransformationNode");
  }

  /** Nodes of one class compare by creation order; a Chained node sorts before an Initial one. */
  lemma CompareByKindThenOrder(a: TransformationNode, b: TransformationNode)
    ensures a.kind.InitialNode? == b.kind.InitialNode? ==> a.CompareTo(Transformation(b)) == a.order - b.order
    ensures a.kind.ChainedNode? && b.kind.InitialNode? ==> a.CompareTo(Transformation(b)) < 0
    ensures a.kind.InitialNode? && b.kind.ChainedNode? ==> a.CompareTo(Transformation(b)) > 0
  {
    ChainedClassNameFirst();
  }

  /** Against a node of another class, the class names decide. */
  lemma CompareWithOtherClass(a: TransformationNode, className: string, id: int)
    requires OtherNode(className, id).HasOwnClass()
    ensures a.CompareTo(OtherNode(className, id)) == JavaStrings.CompareTo(a.ClassName(), className)
    ensures a.CompareTo(OtherNode(className, id)) != 0
  {
  }

  /** Swapping two transformation nodes negates the comparison. */
  lemma CompareAntisymmetric(a: TransformationNode, b: TransformationNode)
    ensures a.CompareTo(Transformation(b)) == -b.CompareTo(Transformation(a))
  {
    JavaStrings.CompareToAntisymmetric(a.ClassName(), b.ClassName());
  }

  /** "Sorts before" is transitive across transformation nodes. */
  lemma CompareTransitive(a: TransformationNode, b: TransformationNode, c: TransformationNode)
    requires a.CompareTo(Transformation(b)) < 0 && b.CompareTo(Transformation(c)) < 0
    ensures a.CompareTo(Transformation(c)) < 0
  {
    ChainedClassNameFirst();
  }

  /** Nodes numbered by one counter never tie: the comparison is zero only for a node with itself. */
  lemma NoTwoNodesTie(counter: OrderCounter, a: TransformationNode, b: TransformationNode)
    requires counter.Valid() && a in counter.issued && b in counter.issued
    ensures a.CompareTo(Transformation(b)) == 0 <==> a == b
  {
    ChainedClassNameFirst();
  }

  /** Along a chain, every node was created after the nodes before it. */
  lemma {:induction false} ChainInCreationOrder(n: TransformationNode, i: nat, j: nat)
    requires n.Linked() && i < j < |n.Chain()|
    ensures n.Chain()[i].order < n.Chain()[j].order
    decreases n.depth
  {
    var chain := n.Chain();
    if j < |chain| - 1 {
      var p := n.kind.previous;
      assert chain[..|chain| - 1] == p.Chain();
      ChainInCreationOrder(p, i, j);
    } else if i < j - 1 {
      var p := n.kind.previous;
      assert p.Chain() == chain[..|chain| - 1];
      ChainInCreationOrder(p, i, j - 1);
      assert chain[j - 1] == p;
    }
  }

  // ---- dependencies ----

  /** The nodes handed to the hard-successor callback, in order. */
  function Reported(calls: seq<Call>): (nodes: seq<GraphNode>) {
    if calls == [] then []
    else (if calls[0].HardSuccessorReported? then [calls[0].successor] else []) + Reported(calls[1..])
  }

  lemma {:induction false} ReportedAppend(a: seq<Call>, b: seq<Call>)
    ensures Reported(a + b) == Reported(a) + Reported(b)
    decreases |a|
  {
    if a == [] {
      assert a + b == b;
    } else {
      assert (a + b)[0] == a[0];
      assert (a + b)[1..] == a[1..] + b;
      ReportedAppend(a[1..], b);
    }
  }

  /** Every dependency is reported once, in order; none is dropped or merged. */
  lemma {:induction false} ReportedProcessCalls(dependencies: seq<GraphNode>)
    ensures Reported(ProcessCalls(dependencies)) == dependencies
    decreases |dependencies|
  {
    if dependencies != [] {
      var d := dependencies[0];
      ReportedAppend([SuccessorAdded(d), HardSuccessorReported(d)], ProcessCalls(dependencies[1..]));
      ReportedProcessCalls(dependencies[1..]);
      assert Reported([SuccessorAdded(d), HardSuccessorReported(d)]) == [d];
    }
  }

  /** The k-th dependency is added as a successor, then handed to the callback, at calls 2k and 2k+1. */
  lemma {:induction false} ProcessCallsInterleave(dependencies: seq<GraphNode>, k: nat)
    requires k < |dependencies|
    ensures ProcessCalls(dependencies)[2 * k] == SuccessorAdded(dependencies[k])
    ensures ProcessCalls(dependencies)[2 * k + 1] == HardSuccessorReported(dependencies[k])
    decreases k
  {
    if k > 0 {
      ProcessCallsInterleave(dependencies[1..], k - 1);
    }
  }

  /**
   * The successors of a node, piece by piece: the step's own dependencies, then the
   * resolver-computed ones, then the artifact set's task dependencies (Initial) or the
   * previous node alone (Chained).
   */
  lemma DependencyNodesParts(n: TransformationNode, resolver: TaskDependencyResolver)
    ensures
      var nodes := n.DependencyNodes(resolver);
      var own := resolver.resolveDependenciesFor(OfStep(n.step));
      var computed := resolver.resolveDependenciesFor(n.dependenciesResolver.computeDependencyNodes(n.step));
      var common := |own| + |computed|;
      && common <= |nodes|
      && nodes[..|own|] == own
      && nodes[|own|..common] == computed
      && (n.kind.InitialNode? ==> nodes[common..] == resolver.resolveDependenciesFor(n.kind.artifacts.taskDependencies))
      && (n.kind.ChainedNode? ==> nodes[common..] == [Transformation(n.kind.previous)])
  {
  }

  /**
   * `resolveDependencies` reports the step's own dependencies, then the resolver-computed
   * ones, then the artifact set's task dependencies (Initial) or the previous node (Chained).
   */
  lemma DependenciesInOrder(n: TransformationNode, resolver: TaskDependencyResolver)
    ensures
      var own := resolver.resolveDependenciesFor(OfStep(n.step));
      var computed := resolver.resolveDependenciesFor(n.dependenciesResolver.computeDependencyNodes(n.step));
      Reported(ProcessCalls(n.DependencyNodes(resolver))) ==
        own + computed + match n.kind
          case InitialNode(artifacts) => resolver.resolveDependenciesFor(artifacts.taskDependencies)
          case ChainedNode(previous) => [Transformation(previous)]
  {
    ReportedProcessCalls(n.DependencyNodes(resolver));
  }

  /** A chained node's last two calls add and report the previous node. */
  lemma ChainedReportsPreviousLast(n: TransformationNode, resolver: TaskDependencyResolver)
    requires n.kind.ChainedNode?
    ensures var calls := ProcessCalls(n.DependencyNodes(resolver));
      && |calls| >= 2
      && calls[|calls| - 2] == SuccessorAdded(Transformation(n.kind.previous))
      && calls[|calls| - 1] == HardSuccessorReported(Transformation(n.kind.previous))
  {
    var nodes := n.DependencyNodes(resolver);
    ProcessCallsInterleave(nodes, |nodes| - 1);
  }

  // ---- computation ----

  /** A failed predecessor is the chained node's outcome, and its step is never invoked. */
  lemma ChainedFailureShortCircuits(n: TransformationNode, context: Option<Context>, e: Error)
    requires n.kind.ChainedNode? && n.kind.previous.result == Some(Failure(e))
    ensures n.Outcome(context) == Failure(e)
    ensures n.InvocationCalls(context) == []
  {
  }

  /** A successful predecessor's value goes to the step exactly once, and its result is the outcome. */
  lemma ChainedSuccessInvokesOnce(n: TransformationNode, context: Option<Context>, s: Subject, messageOf: Error -> string)
    requires n.kind.ChainedNode? && n.kind.previous.result == Some(Success(s))
    ensures n.Outcome(context) == n.step.invoke(s, n.dependenciesResolver.id, context)
    ensures n.CalculationCalls(context, messageOf) ==
      [OperationStarted(Description(s.displayName, n.step.displayName)),
       OperationResultSet(StepResult),
       StepInvoked(n.step, s, n.dependenciesResolver, context)]
  {
  }

  /**
   * Initial node: a ResolveException from materialising the set propagates unchanged, any
   * other RuntimeException is wrapped, and neither reaches the step.
   */
  lemma InitialMaterializationFailure(n: TransformationNode, context: Option<Context>, e: Error)
    requires n.kind.InitialNode? && n.kind.artifacts.calculatedSubject == Failure(e)
    ensures e.IsResolveException() ==> n.Outcome(context) == Failure(e)
    ensures e.IsRuntimeException() && !e.IsResolveException() ==>
      n.Outcome(context) == Failure(ArtifactResolveFailure("artifacts", n.step.displayName, "artifact transform", [e]))
    ensures n.Outcome(context).Failure? && n.Outcome(context).failure.IsRuntimeException() == e.IsRuntimeException()
    ensures n.InvocationCalls(context) == []
  {
  }

  /** Initial node: once the set is materialised, the step's outcome, failed or not, is the node's. */
  lemma InitialStepOutcomeUnchanged(n: TransformationNode, context: Option<Context>, s: Subject)
    requires n.kind.InitialNode? && n.kind.artifacts.calculatedSubject == Success(s)
    ensures n.Outcome(context) == n.step.invoke(s, n.dependenciesResolver.id, context)
    ensures n.InvocationCalls(context) == [StepInvoked(n.step, s, n.dependenciesResolver, context)]
  {
  }

  /** Every node of a chain has computed its outcome from its predecessor's captured one. */
  ghost predicate Settled(n: TransformationNode)
    reads n, if n.kind.ChainedNode? then {n.kind.previous} else {}
  {
    && n.result.Some?
    && n.ReadyToCalculate()
    && exists context: Option<Context> :: n.result.value == n.Outcome(context)
  }

  /** A failure captured anywhere in a chain is the outcome of every later node that has run. */
  lemma {:induction false} FailurePropagatesAlongChain(n: TransformationNode, k: nat, e: Error)
    requires n.Linked() && k < |n.Chain()|
    requires n.Chain()[k].result == Some(Failure(e))
    requires forall j | k < j < |n.Chain()| :: Settled(n.Chain()[j])
    ensures n.result == Some(Failure(e))
    decreases n.depth
  {
    var chain := n.Chain();
    if k < |chain| - 1 {
      var p := n.kind.previous;
      var before := p.Chain();
      assert chain == before + [n];
      assert before[k] == chain[k];
      forall j | k < j < |before|
        ensures Settled(before[j])
      {
        assert before[j] == chain[j];
      }
      FailurePropagatesAlongChain(p, k, e);
      assert Settled(chain[|chain| - 1]);
      var context: Option<Context> :| n.result.value == n.Outcome(context);
      ChainedFailureShortCircuits(n, context, e);
    }
  }

  // ---- build-operation description ----

  /**
   * A computation first hands over its descriptor, then records RESULT, and only then
   * transforms: every step invocation comes after both.
   */
  lemma DescribeThenResultThenTransform(n: TransformationNode, context: Option<Context>, messageOf: Error -> string)
    requires n.ReadyToCalculate()
    ensures var calls := n.CalculationCalls(context, messageOf);
      && |calls| >= 2
      && calls[0] == OperationStarted(Description(n.SubjectName(messageOf), n.step.displayName))
      && calls[1] == OperationResultSet(StepResult)
      && forall i | 0 <= i < |calls| && calls[i].StepInvoked? :: i == 2
  {
  }

  // ---- scenarios ----

  /** A fresh two-node chain: an Initial node over `artifacts` and a Chained node on top of it. */
  method NewTwoNodeChain(artifacts: LocalArtifactSet, s1: TransformationStep, s2: TransformationStep,
                        resolver: ExecutionGraphDependenciesResolver)
    returns (node1: TransformationNode, node2: TransformationNode)
    ensures fresh(node1) && fresh(node2) && node1 != node2
    ensures node1.step == s1 && node1.dependenciesResolver == resolver && node1.kind == InitialNode(artifacts)
    ensures node2.step == s2 && node2.dependenciesResolver == resolver && node2.kind == ChainedNode(node1)
    ensures node1.Linked() && node1.Valid() && node1.result == None
    ensures node2.Linked() && node2.Valid() && node2.result == None
  {
    var counter := new OrderCounter();
    node1 := new TransformationNode.Initial(s1, artifacts, resolver, counter);
    node2 := new TransformationNode.Chained(s2, node1, resolver, counter);
  }

  /**
   * Initial node over `artifacts` with step `s1`, chained node with `s2` on top, both with
   * `resolver`. When `s1` fails with `e`, both nodes capture `e`, `s2` is never invoked,
   * and running the first node again computes nothing.
   */
  method FailedFirstStep(artifacts: LocalArtifactSet, s1: TransformationStep, s2: TransformationStep,
                         resolver: ExecutionGraphDependenciesResolver, x: Subject, e: Error, messageOf: Error -> string)
    returns (first: Try<Subject>, second: Try<Subject>, calls: seq<Call>)
    requires s1.isolation == None && s2.isolation == None
    requires artifacts.calculatedSubject == Success(x) && s1.invoke(x, resolver.id, None) == Failure(e)
    ensures first == Failure(e) && second == Failure(e)
    ensures calls ==
      [ParametersIsolated(s1),
       OperationStarted(Description(artifacts.displayName, s1.displayName)),
       OperationResultSet(StepResult),
       StepInvoked(s1, x, resolver, None),
       ParametersIsolated(s2),
       OperationStarted(Description(messageOf(e), s2.displayName)),
       OperationResultSet(StepResult)]
  {
    var node1, node2 := NewTwoNodeChain(artifacts, s1, s2, resolver);
    var journal := new Journal();
    var thrown1 := node1.ExecuteIfNotAlready(messageOf, journal);
    assert node1.result == Some(Failure(e));
    assert journal.calls ==
      [ParametersIsolated(s1),
       OperationStarted(Description(artifacts.displayName, s1.displayName)),
       OperationResultSet(StepResult),
       StepInvoked(s1, x, resolver, None)];
    var thrown2 := node2.ExecuteIfNotAlready(messageOf, journal);
    assert node2.result == Some(Failure(e));
    node1.Execute(NodeExecutionContext(1), messageOf, journal);
    assert node1.calculations == 1;
    first := node1.TransformedSubject();
    second := node2.TransformedSubject();
    calls := journal.calls;
  }

  /**
   * Same chain with both steps succeeding: `s1` turns X into Y, `s2` turns Y into Z, and
   * each step is invoked exactly once with its input.
   */
  method SucceedingChain(artifacts: LocalArtifactSet, s1: TransformationStep, s2: TransformationStep,
                         resolver: ExecutionGraphDependenciesResolver, x: Subject, y: Subject, z: Subject,
                         context: Context, messageOf: Error -> string)
    returns (first: Try<Subject>, second: Try<Subject>, calls: seq<Call>)
    requires artifacts.calculatedSubject == Success(x)
    requires s1.invoke(x, resolver.id, Some(context)) == Success(y) && s2.invoke(y, resolver.id, Some(context)) == Success(z)
    ensures first == Success(y) && second == Success(z)
    ensures calls ==
      [OperationStarted(Description(artifacts.displayName, s1.displayName)),
       OperationResultSet(StepResult),
       StepInvoked(s1, x, resolver, Some(context)),
       OperationStarted(Description(y.displayName, s2.displayName)),
       OperationResultSet(StepResult),
       StepInvoked(s2, y, resolver, Some(context))]
  {
    var node1, node2 := NewTwoNodeChain(artifacts, s1, s2, resolver);
    var journal := new Journal();
    node1.Execute(context, messageOf, journal);
    assert node1.result == Some(Success(y));
    assert journal.calls ==
      [OperationStarted(Description(artifacts.displayName, s1.displayName)),
       OperationResultSet(StepResult),
       StepInvoked(s1, x, resolver, Some(context))];
    node2.Execute(context, messageOf, journal);
    assert node2.result == Some(Success(z));
    node2.Execute(context, messageOf, journal);
    first := node1.TransformedSubject();
    second := node2.TransformedSubject();
    calls := journal.calls;
  }
}
