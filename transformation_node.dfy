/**
 * The execution-graph vertex for one artifact-transform step. A node is either Initial,
 * reading a root artifact set, or Chained, reading the output of the node before it. It
 * takes a creation order from a shared counter, reports its dependencies to the scheduler,
 * and computes its output at most once into a result slot that holds a captured `Try`.
 *
 * Collaborators whose code is not part of this model (the transformation step, the artifact
 * set, the two dependency resolvers) are values carrying their observable answers. The
 * calls whose order the model states (successor registration and reporting, parameter
 * isolation, the build operation, the step invocation) are appended to a `Journal`.
 */
module TransformationNodes {

  import opened Results
  import JavaStrings
  import opened BuildOperations

  /**
   * The value flowing through a chain: artifacts after some transform steps. Only its
   * display name is read here; the files it carries are the steps' business.
   */
  datatype Subject = TransformationSubject(displayName: string)

  /** A NodeExecutionContext. */
  datatype Context = NodeExecutionContext(id: int)

  /** The identity of an ExecutionGraphDependenciesResolver object. */
  type ResolverId = int

  /**
   * One transform application. `isolation` is what `isolateParameters()` throws, if
   * anything. `invoke` is what `createInvocation(subject, resolver, context).invoke()`
   * returns, given the resolver's identity; a `None` context stands for the null context.
   */
  datatype TransformationStep = TransformationStep(
    displayName: string,
    owningProject: Option<string>,
    isolation: Option<Error>,
    invoke: (Subject, ResolverId, Option<Context>) -> Try<Subject>)

  /** Something whose task dependencies the scheduler can resolve. */
  datatype TaskDependencyContainer =
    | OfStep(step: TransformationStep)
    | Container(id: int)

  /**
   * The root artifact set of a chain. `calculatedSubject` is what `calculateSubject()`
   * yields: the subject, or the failure it raises.
   */
  datatype LocalArtifactSet = LocalArtifactSet(
    displayName: string,
    calculatedSubject: Try<Subject>,
    taskDependencies: TaskDependencyContainer)

  /** ExecutionGraphDependenciesResolver: the extra dependencies a step needs. */
  datatype ExecutionGraphDependenciesResolver =
    ExecutionGraphDependenciesResolver(id: ResolverId, computeDependencyNodes: TransformationStep -> TaskDependencyContainer)

  /**
   * TaskDependencyResolver: the nodes a container depends on, in the iteration order of the
   * set it returns.
   */
  datatype TaskDependencyResolver =
    TaskDependencyResolver(resolveDependenciesFor: TaskDependencyContainer -> seq<GraphNode>)

  /** `Class.getName()` of the two nested node classes. */
  const ClassNamePrefix: string := "org.gradle.api.internal.artifacts.transform.TransformationNode$"
  const InitialClassName: string := ClassNamePrefix + "InitialTransformationNode"
  const ChainedClassName: string := ClassNamePrefix + "ChainedTransformationNode"

  /** A vertex of the execution graph: a transformation node or a node of another class. */
  datatype GraphNode = Transformation(node: TransformationNode) | OtherNode(className: string, id: int) {
    /** `getClass().getName()` */
    function ClassName(): (name: string) {
      match this
      case Transformation(n) => n.ClassName()
      case OtherNode(c, _) => c
    }

    /** Only transformation nodes are of the two transformation node classes. */
    predicate HasOwnClass() {
      OtherNode? ==> className != InitialClassName && className != ChainedClassName
    }
  }

  datatype NodeKind = InitialNode(artifacts: LocalArtifactSet) | ChainedNode(previous: TransformationNode)

  /** A call from a node into one of its collaborators. */
  datatype Call =
    | SuccessorAdded(successor: GraphNode)
    | HardSuccessorReported(successor: GraphNode)
    | ParametersIsolated(step: TransformationStep)
    | OperationStarted(descriptor: Descriptor)
    | OperationResultSet(result: OperationResult)
    | StepInvoked(step: TransformationStep, subject: Subject,
                  resolver: ExecutionGraphDependenciesResolver, context: Option<Context>)

  /** The calls made so far, oldest first. */
  class Journal {
    var calls: seq<Call>

    constructor ()
      ensures calls == []
    {
      calls := [];
    }

    method Record(call: Call)
      modifies this
      ensures calls == old(calls) + [call]
    {
      calls := calls + [call];
    }
  }

  /** The calls `processDependencies` makes for `dependencies`: add, then report, one by one. */
  function ProcessCalls(dependencies: seq<GraphNode>): (calls: seq<Call>)
    ensures |calls| == 2 * |dependencies|
  {
    if dependencies == [] then []
    else [SuccessorAdded(dependencies[0]), HardSuccessorReported(dependencies[0])] + ProcessCalls(dependencies[1..])
  }

  lemma {:induction false} ProcessCallsAppend(a: seq<GraphNode>, b: seq<GraphNode>)
    ensures ProcessCalls(a + b) == ProcessCalls(a) + ProcessCalls(b)
    decreases |a|
  {
    if a == [] {
      assert a + b == b;
    } else {
      assert (a + b)[0] == a[0];
      assert (a + b)[1..] == a[1..] + b;
      ProcessCallsAppend(a[1..], b);
    }
  }

  /** The shared creation-order counter, ORDER_COUNTER, with the nodes it has numbered. */
  class OrderCounter {
    var value: int
    ghost var issued: set<TransformationNode>

    ghost predicate Valid()
      reads this
    {
      && 0 <= value
      && (forall n | n in issued :: 0 < n.order <= value)
      && (forall a, b | a in issued && b in issued && a != b :: a.order != b.order)
    }

    constructor ()
      ensures Valid() && value == 0 && issued == {}
    {
      value := 0;
      issued := {};
    }

    /** `incrementAndGet()` */
    method IncrementAndGet() returns (next: int)
      requires Valid()
      modifies this`value
      ensures Valid()
      ensures value == old(value) + 1 && next == value
    {
      value := value + 1;
      next := value;
    }
  }

  class TransformationNode {
    const order: int
    const step: TransformationStep
    const dependenciesResolver: ExecutionGraphDependenciesResolver
    const kind: NodeKind
    /** Distance from the chain's initial node; it makes the chain well-founded. */
    ghost const depth: nat

    /** The successors added through addDependencySuccessor (state of the Node base class). */
    var dependencySuccessors: set<GraphNode>
    /** The result slot of the node's CalculatedValueContainer. */
    var result: Option<Try<Subject>>
    /** How many times the slot's computation has run. */
    ghost var calculations: nat

    /** The chain back from this node is finite, and numbered in creation order. */
    ghost predicate Linked()
      decreases depth
    {
      kind.ChainedNode? ==>
        && kind.previous.depth < depth
        && kind.previous.order < order
        && kind.previous.Linked()
    }

    /** The computation has run exactly when the slot is filled. */
    ghost predicate Valid()
      reads this
    {
      calculations == if result.Some? then 1 else 0
    }

    /** A chained node may compute only once its predecessor's outcome is captured. */
    ghost predicate ReadyToCalculate()
      reads if kind.ChainedNode? then {kind.previous} else {}
    {
      kind.ChainedNode? ==> kind.previous.result.Some?
    }

    /** `TransformationNode.initial(...)` */
    constructor Initial(step: TransformationStep, artifacts: LocalArtifactSet,
                        dependenciesResolver: ExecutionGraphDependenciesResolver, counter: OrderCounter)
      requires counter.Valid()
      modifies counter
      ensures counter.Valid() && counter.issued == old(counter.issued) + {this}
      ensures order == counter.value == old(counter.value) + 1
      ensures this.step == step && this.dependenciesResolver == dependenciesResolver
      ensures kind == InitialNode(artifacts)
      ensures Linked() && Valid() && result == None && dependencySuccessors == {}
    {
      var next := counter.IncrementAndGet();
      order := next;
      this.step := step;
      this.dependenciesResolver := dependenciesResolver;
      kind := InitialNode(artifacts);
      depth := 0;
      dependencySuccessors := {};
      result := None;
      calculations := 0;
      new;
      counter.issued := counter.issued + {this};
    }

    /** `TransformationNode.chained(...)`: the predecessor exists, so the chain is acyclic. */
    constructor Chained(step: TransformationStep, previous: TransformationNode,
                        dependenciesResolver: ExecutionGraphDependenciesResolver, counter: OrderCounter)
      requires counter.Valid() && previous in counter.issued && previous.Linked()
      modifies counter
      ensures counter.Valid() && counter.issued == old(counter.issued) + {this}
      ensures order == counter.value == old(counter.value) + 1
      ensures this.step == step && this.dependenciesResolver == dependenciesResolver
      ensures kind == ChainedNode(previous)
      ensures Linked() && Valid() && result == None && dependencySuccessors == {}
    {
      var next := counter.IncrementAndGet();
      order := next;
      this.step := step;
      this.dependenciesResolver := dependenciesResolver;
      kind := ChainedNode(previous);
      depth := previous.depth + 1;
      dependencySuccessors := {};
      result := None;
      calculations := 0;
      new;
      counter.issued := counter.issued + {this};
    }

    // ---- constant node flags ----

    /** `isPublicNode()`: transformation nodes are always public. */
    function IsPublicNode(): (r: bool)
      ensures r
    {
      true
    }

    /** `requiresMonitoring()`: no node needs to watch a transform's outputs. */
    function RequiresMonitoring(): (r: bool)
      ensures !r
    {
      false
    }

    /** `getFinalizers()`: nothing finalizes a transform. */
    function Finalizers(): (r: set<GraphNode>)
      ensures r == {}
    {
      {}
    }

    /** `getProjectToLock()`: transforms need no project state, so no project is locked. */
    function ProjectToLock(): (r: Option<int>)
      ensures r == None
    {
      None
    }

    /** `getResourcesToLock()`: no further resource is locked. */
    function ResourcesToLock(): (r: seq<int>)
      ensures |r| == 0
    {
      []
    }

    /** `getNodeFailure()`: a failed transform is captured in the slot, not reported by the node. */
    function NodeFailure(): (r: Option<Error>)
      ensures r.None?
    {
      None
    }

    /** `rethrowNodeFailure()` throws nothing: transform failures live in the result slot. */
    method RethrowNodeFailure() returns (thrown: Option<Error>)
      ensures thrown == None
    {
      thrown := None;
    }

    // ---- ordering ----

    /** `getClass().getName()`: one name per variant, and the two differ. */
    function ClassName(): (r: string)
      ensures r == InitialClassName <==> kind.InitialNode?
      ensures r == ChainedClassName <==> kind.ChainedNode?
    {
      assert InitialClassName[|ClassNamePrefix|] != ChainedClassName[|ClassNamePrefix|];
      if kind.InitialNode? then InitialClassName else ChainedClassName
    }

    /**
     * `compareTo`: by class name across classes, by creation order within one. It is zero
     * exactly for a node of the same variant with the same order.
     */
    function CompareTo(other: GraphNode): (r: int)
      requires other.HasOwnClass()
      ensures r == 0 <==> other.Transformation? && other.node.ClassName() == ClassName() && other.node.order == order
      ensures other.ClassName() != ClassName() ==> r == JavaStrings.CompareTo(ClassName(), other.ClassName())
      ensures other.ClassName() == ClassName() ==> (r < 0 <==> order < other.node.order)
    {
      if ClassName() != other.ClassName() then JavaStrings.CompareTo(ClassName(), other.ClassName())
      else order - other.node.order
    }

    // ---- input artifacts ----

    /** The nodes of the chain ending here, from its initial node on. */
    ghost function Chain(): (nodes: seq<TransformationNode>)
      requires Linked()
      ensures nodes != [] && nodes[|nodes| - 1] == this
      ensures nodes[0].kind.InitialNode?
      ensures forall i | 0 <= i < |nodes| :: nodes[i].Linked()
      ensures forall i | 0 < i < |nodes| :: nodes[i].kind == ChainedNode(nodes[i - 1])
      ensures kind.ChainedNode? ==> nodes == kind.previous.Chain() + [this]
      decreases depth
    {
      match kind
      case InitialNode(_) => [this]
      case ChainedNode(previous) => previous.Chain() + [this]
    }

    /**
     * `getInputArtifacts()`: after a chain of any length, the artifact set of the chain's
     * initial node. It reads constant fields only, and triggers no computation.
     */
    function InputArtifacts(): (r: LocalArtifactSet)
      requires Linked()
      ensures r == Chain()[0].kind.artifacts
      decreases depth
    {
      match kind
      case InitialNode(artifacts) => artifacts
      case ChainedNode(previous) =>
        var r := previous.InputArtifacts();
        assert Chain() == previous.Chain() + [this];
        r
    }

    // ---- dependencies ----

    /** The successors `resolveDependencies` reports, in the order it reports them. */
    function DependencyNodes(resolver: TaskDependencyResolver): (nodes: seq<GraphNode>)
    {
      resolver.resolveDependenciesFor(OfStep(step))
      + resolver.resolveDependenciesFor(dependenciesResolver.computeDependencyNodes(step))
      + match kind
        case InitialNode(artifacts) => resolver.resolveDependenciesFor(artifacts.taskDependencies)
        case ChainedNode(previous) => [Transformation(previous)]
    }

    /** `addDependencySuccessor` of the Node base class. */
    method AddDependencySuccessor(successor: GraphNode, journal: Journal)
      modifies this`dependencySuccessors, journal
      ensures dependencySuccessors == old(dependencySuccessors) + {successor}
      ensures journal.calls == old(journal.calls) + [SuccessorAdded(successor)]
    {
      dependencySuccessors := dependencySuccessors + {successor};
      journal.Record(SuccessorAdded(successor));
    }

    /** `processDependencies`: add each dependency as a successor, then hand it to the callback. */
    method ProcessDependencies(dependencies: seq<GraphNode>, journal: Journal)
      modifies this`dependencySuccessors, journal
      ensures dependencySuccessors == old(dependencySuccessors) + (set d | d in dependencies)
      ensures journal.calls == old(journal.calls) + ProcessCalls(dependencies)
    {
      for i := 0 to |dependencies|
        invariant dependencySuccessors == old(dependencySuccessors) + (set d | d in dependencies[..i])
        invariant journal.calls == old(journal.calls) + ProcessCalls(dependencies[..i])
      {
        AddDependencySuccessor(dependencies[i], journal);
        journal.Record(HardSuccessorReported(dependencies[i]));
        assert dependencies[..i + 1] == dependencies[..i] + [dependencies[i]];
        ProcessCallsAppend(dependencies[..i], [dependencies[i]]);
      }
      assert dependencies[..|dependencies|] == dependencies;
    }

    /** `resolveDependencies` of the base class: the step's own, then the resolver-computed ones. */
    method ResolveCommonDependencies(resolver: TaskDependencyResolver, journal: Journal)
      modifies this`dependencySuccessors, journal
      ensures
        var nodes := resolver.resolveDependenciesFor(OfStep(step))
          + resolver.resolveDependenciesFor(dependenciesResolver.computeDependencyNodes(step));
        && dependencySuccessors == old(dependencySuccessors) + (set d | d in nodes)
        && journal.calls == old(journal.calls) + ProcessCalls(nodes)
    {
      var own := resolver.resolveDependenciesFor(OfStep(step));
      var computed := resolver.resolveDependenciesFor(dependenciesResolver.computeDependencyNodes(step));
      ProcessDependencies(own, journal);
      ProcessDependencies(computed, journal);
      ProcessCallsAppend(own, computed);
    }

    /**
     * `resolveDependencies` of either variant: the common dependencies, then the artifact set's
     * task dependencies (Initial) or the previous node itself (Chained).
     */
    method ResolveDependencies(resolver: TaskDependencyResolver, journal: Journal)
      modifies this`dependencySuccessors, journal
      ensures dependencySuccessors == old(dependencySuccessors) + (set d | d in DependencyNodes(resolver))
      ensures journal.calls == old(journal.calls) + ProcessCalls(DependencyNodes(resolver))
    {
      ResolveCommonDependencies(resolver, journal);
      var common := resolver.resolveDependenciesFor(OfStep(step))
        + resolver.resolveDependenciesFor(dependenciesResolver.computeDependencyNodes(step));
      var extra: seq<GraphNode>;
      match kind {
        case InitialNode(artifacts) =>
          extra := resolver.resolveDependenciesFor(artifacts.taskDependencies);
          ProcessDependencies(extra, journal);
        case ChainedNode(previous) =>
          extra := [Transformation(previous)];
          AddDependencySuccessor(Transformation(previous), journal);
          journal.Record(HardSuccessorReported(Transformation(previous)));
          assert ProcessCalls(extra) == [SuccessorAdded(Transformation(previous)), HardSuccessorReported(Transformation(previous))];
      }
      assert DependencyNodes(resolver) == common + extra;
      assert (set d | d in common + extra) == (set d | d in common) + (set d | d in extra);
      ProcessCallsAppend(common, extra);
    }

    // ---- computation ----

    /**
     * The outcome the result slot captures: the transform's return value, or what it
     * throws. Initial: a ResolveException (or a Throwable that is no RuntimeException) from
     * `calculateSubject()` as it is, any other RuntimeException wrapped, else the step's
     * outcome. Chained: the predecessor's captured outcome, flat-mapped through the step.
     */
    function Outcome(context: Option<Context>): (r: Try<Subject>)
      reads if kind.ChainedNode? then {kind.previous} else {}
      requires ReadyToCalculate()
      ensures kind.InitialNode? && kind.artifacts.calculatedSubject.Success? ==>
        r == step.invoke(kind.artifacts.calculatedSubject.subject, dependenciesResolver.id, context)
      ensures kind.InitialNode? && kind.artifacts.calculatedSubject.Failure? ==>
        && r.Failure?
        && (r.failure.IsResolveException() || !r.failure.IsRuntimeException())
        && (kind.artifacts.calculatedSubject.failure.IsResolveException() ==> r == kind.artifacts.calculatedSubject)
      ensures kind.ChainedNode? && kind.previous.result.value.Success? ==>
        r == step.invoke(kind.previous.result.value.subject, dependenciesResolver.id, context)
      ensures kind.ChainedNode? && kind.previous.result.value.Failure? ==> r == kind.previous.result.value
    {
      match kind
      case InitialNode(artifacts) =>
        (match artifacts.calculatedSubject
         case Success(subject) => step.invoke(subject, dependenciesResolver.id, context)
         case Failure(e) => Failure(MaterializationFailure(e, step.displayName)))
      case ChainedNode(previous) =>
        previous.result.value.FlatMap((subject: Subject) => step.invoke(subject, dependenciesResolver.id, context))
    }

    /**
     * `describeSubject()`: the artifact set's display name (Initial); the predecessor
     * subject's display name, or the message of its failure (Chained).
     */
    function SubjectName(messageOf: Error -> string): (name: string)
      reads if kind.ChainedNode? then {kind.previous} else {}
      requires ReadyToCalculate()
      ensures kind.InitialNode? ==> name == kind.artifacts.displayName
      ensures kind.ChainedNode? && kind.previous.result.value.Success? ==>
        name == kind.previous.result.value.subject.displayName
      ensures kind.ChainedNode? && kind.previous.result.value.Failure? ==>
        name == messageOf(kind.previous.result.value.failure)
    {
      match kind
      case InitialNode(artifacts) => artifacts.displayName
      case ChainedNode(previous) =>
        previous.result.value.Map((subject: Subject) => subject.displayName).GetOrMapFailure(messageOf)
    }

    /** The step invocation the transform makes, if it gets that far. */
    function InvocationCalls(context: Option<Context>): (calls: seq<Call>)
      reads if kind.ChainedNode? then {kind.previous} else {}
      requires ReadyToCalculate()
    {
      match kind
      case InitialNode(artifacts) =>
        if artifacts.calculatedSubject.Success?
        then [StepInvoked(step, artifacts.calculatedSubject.subject, dependenciesResolver, context)] else []
      case ChainedNode(previous) =>
        if previous.result.value.Success?
        then [StepInvoked(step, previous.result.value.subject, dependenciesResolver, context)] else []
    }

    /** The calls of one computation: describe, set RESULT, then transform. */
    function CalculationCalls(context: Option<Context>, messageOf: Error -> string): (calls: seq<Call>)
      reads if kind.ChainedNode? then {kind.previous} else {}
      requires ReadyToCalculate()
    {
      [OperationStarted(Description(SubjectName(messageOf), step.displayName)),
       OperationResultSet(StepResult)]
      + InvocationCalls(context)
    }

    /** `transform()` of either variant. */
    method Transform(context: Option<Context>, journal: Journal) returns (outcome: Try<Subject>)
      requires ReadyToCalculate()
      modifies journal
      ensures outcome == Outcome(context)
      ensures journal.calls == old(journal.calls) + InvocationCalls(context)
    {
      match kind
      case InitialNode(artifacts) =>
        var materialized := artifacts.calculatedSubject;
        if materialized.Failure? {
          outcome := Failure(MaterializationFailure(materialized.failure, step.displayName));
        } else {
          journal.Record(StepInvoked(step, materialized.subject, dependenciesResolver, context));
          outcome := step.invoke(materialized.subject, dependenciesResolver.id, context);
        }
      case ChainedNode(previous) =>
        var predecessor := previous.result.value;
        if predecessor.Failure? {
          outcome := Failure(predecessor.failure);
        } else {
          journal.Record(StepInvoked(step, predecessor.subject, dependenciesResolver, context));
          outcome := step.invoke(predecessor.subject, dependenciesResolver.id, context);
        }
    }

    /** `calculateValue`: run the build operation, whose `call` sets RESULT and then transforms. */
    method CalculateValue(context: Option<Context>, messageOf: Error -> string, journal: Journal)
      returns (outcome: Try<Subject>)
      requires ReadyToCalculate()
      modifies journal
      ensures outcome == Outcome(context)
      ensures journal.calls == old(journal.calls) + CalculationCalls(context, messageOf)
    {
      journal.Record(OperationStarted(Description(SubjectName(messageOf), step.displayName)));
      journal.Record(OperationResultSet(StepResult));
      outcome := Transform(context, journal);
    }

    /**
     * `getResult().calculateNow(context)`, under the container's assumed contract: the first
     * call computes and captures the outcome, every later call changes nothing.
     */
    method CalculateNow(context: Option<Context>, messageOf: Error -> string, journal: Journal)
      requires Linked() && Valid()
      requires result.None? ==> ReadyToCalculate()
      modifies this`result, this`calculations, journal
      ensures Valid() && result.Some?
      ensures old(result).Some? ==> result == old(result) && journal.calls == old(journal.calls)
      ensures old(result).None? ==>
        && result == Some(Outcome(context))
        && journal.calls == old(journal.calls) + CalculationCalls(context, messageOf)
    {
      if result.None? {
        var outcome := CalculateValue(context, messageOf, journal);
        result := Some(outcome);
        calculations := calculations + 1;
      }
    }

    /** `execute(context)`: compute through the scheduler's context. */
    method Execute(context: Context, messageOf: Error -> string, journal: Journal)
      requires Linked() && Valid()
      requires result.None? ==> ReadyToCalculate()
      modifies this`result, this`calculations, journal
      ensures Valid() && result.Some?
      ensures old(result).Some? ==> result == old(result) && journal.calls == old(journal.calls)
      ensures old(result).None? ==>
        && result == Some(Outcome(Some(context)))
        && journal.calls == old(journal.calls) + CalculationCalls(Some(context), messageOf)
    {
      CalculateNow(Some(context), messageOf, journal);
    }

    /**
     * `executeIfNotAlready()`: isolate the step's parameters, then compute with a null
     * context. When isolation throws, the exception leaves the method (`thrown`) before the
     * slot is touched.
     */
    method ExecuteIfNotAlready(messageOf: Error -> string, journal: Journal) returns (thrown: Option<Error>)
      requires Linked() && Valid()
      requires result.None? ==> ReadyToCalculate()
      modifies this`result, this`calculations, journal
      ensures Valid() && thrown == step.isolation
      ensures thrown.Some? ==> result == old(result) && journal.calls == old(journal.calls) + [ParametersIsolated(step)]
      ensures thrown.None? ==> result.Some?
      ensures thrown.None? && old(result).Some? ==>
        result == old(result) && journal.calls == old(journal.calls) + [ParametersIsolated(step)]
      ensures thrown.None? && old(result).None? ==>
        && result == Some(Outcome(None))
        && journal.calls == old(journal.calls) + [ParametersIsolated(step)] + CalculationCalls(None, messageOf)
    {
      journal.Record(ParametersIsolated(step));
      thrown := step.isolation;
      if thrown.None? {
        CalculateNow(None, messageOf, journal);
      }
    }

    /** `getTransformedSubject()`: reads the slot, computes nothing. */
    function TransformedSubject(): (r: Try<Subject>)
      reads this
      requires result.Some?
      ensures result == Some(r)
    {
      result.value
    }
  }

  /**
   * The failure the initial node's transform raises when `calculateSubject()` raises `e`:
   * a ResolveException propagates as it is, any other RuntimeException is wrapped as
   * ArtifactResolveException("artifacts", <step display name>, "artifact transform", {e}),
   * and a Throwable that is no RuntimeException is not caught.
   */
  function MaterializationFailure(e: Error, stepName: string): (r: Error)
    ensures e.IsRuntimeException() ==> r.IsResolveException()
    ensures r == e <==> e.IsResolveException() || !e.IsRuntimeException()
    ensures r != e ==> r == ArtifactResolveFailure("artifacts", stepName, "artifact transform", [e])
  {
    if e.IsResolveException() || !e.IsRuntimeException() then e
    else ArtifactResolveFailure("artifacts", stepName, "artifact transform", [e])
  }
}
