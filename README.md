# Transformation nodes of the execution graph

This project models `TransformationNode`, the execution-graph vertex that stands for one
application of an artifact-transform step in Gradle's dependency management. A node comes in
two variants. An **Initial** node materialises a root artifact set (`LocalArtifactSet`) and
runs its step on the resulting subject. A **Chained** node runs its step on the captured
output of the node before it.

Each node:

- takes a creation order from a shared counter (`ORDER_COUNTER`), and compares by class
  name first, then by that order;
- reports its dependencies to the scheduler in a fixed order;
- computes its output at most once into a result slot. The slot holds a captured `Try`, so a
  failed transform is data rather than a node-level failure;
- describes every computation to the build-operation executor by a display name and a
  progress name.

Layout:

- `results.dfy` (module `Results`): `Option`; `Error`, the failures classified the way the
  catch clauses distinguish them; `Try` with `Map`, `FlatMap` and `GetOrMapFailure`.
- `java_strings.dfy` (module `JavaStrings`): `String.compareTo`, which orders nodes of
  different classes by class name.
- `build_operations.dfy` (module `BuildOperations`): the descriptor that `description()`
  builds, and the fixed `RESULT` marker.
- `transformation_node.dfy` (module `TransformationNodes`): the collaborators as values, the
  `Journal` of calls into collaborators, the `OrderCounter`, and the `TransformationNode`
  class with its result slot. It also holds the pure functions that specify the node's
  methods: `DependencyNodes`, `ProcessCalls`, `Outcome`, `SubjectName`, `InvocationCalls` and
  `CalculationCalls`.
- `node_properties.dfy` (module `TransformationNodeProperties`): the lemmas about those
  functions, and two client scenarios.

Collaborators whose code is not part of this model are values that carry their observable
answers:

- `TransformationStep.invoke` is what `createInvocation(...).invoke()` returns.
- `LocalArtifactSet.calculatedSubject` is the subject `calculateSubject()` returns, or the
  failure it raises.
- `TransformationStep.isolation` is what `isolateParameters()` throws, if anything.
- `TaskDependencyResolver.resolveDependenciesFor` and
  `ExecutionGraphDependenciesResolver.computeDependencyNodes` are total functions.

The calls whose order the model states are appended to a `Journal`. Those calls are
`addDependencySuccessor`, the hard-successor callback, `isolateParameters`, the step
invocation (with the node's dependencies resolver and the context), starting the build
operation, and setting its result. The methods' `ensures` clauses describe the journal's new
contents with the pure functions above, so the order of calls across different
collaborators can be stated and proved. The other calls into collaborators are not
recorded; "## Left out" lists them.

## Model

| member | source | states |
|---|---|---|
| `Results.Try.Map` | subprojects/dependency-management/src/main/java/org/gradle/api/internal/artifacts/transform/TransformationNode.java:250-252 | a success becomes `Success` of `f` applied to its value, and a failure passes unchanged |
| `Results.Try.FlatMap` | subprojects/dependency-management/src/main/java/org/gradle/api/internal/artifacts/transform/TransformationNode.java:244-245 | a success yields the continuation's own `Try` for its value; a failure yields that same failure, without calling the continuation |
| `Results.Try.GetOrMapFailure` | subprojects/dependency-management/src/main/java/org/gradle/api/internal/artifacts/transform/TransformationNode.java:252 | a success gives its value; a failure gives `f` applied to the failure |
| `Results.MapIsFlatMapOfSuccess` | subprojects/dependency-management/src/main/java/org/gradle/api/internal/artifacts/transform/TransformationNode.java:244-252 | `map` is `flatMap` into a computation that always succeeds |
| `Results.FlatMapSuccessIsIdentity` | subprojects/dependency-management/src/main/java/org/gradle/api/internal/artifacts/transform/TransformationNode.java:244-245 | chaining into `Success` gives back the same `Try` |
| `JavaStrings.CompareTo` | subprojects/dependency-management/src/main/java/org/gradle/api/internal/artifacts/transform/TransformationNode.java:157 | class-name comparison is zero exactly when the two names are equal |
| `JavaStrings.CompareToAntisymmetric` | subprojects/dependency-management/src/main/java/org/gradle/api/internal/artifacts/transform/TransformationNode.java:157 | swapping the names negates the comparison |
| `JavaStrings.CompareToTransitive` | subprojects/dependency-management/src/main/java/org/gradle/api/internal/artifacts/transform/TransformationNode.java:157 | "sorts before" on names is transitive |
| `JavaStrings.CompareToCommonPrefix` | subprojects/dependency-management/src/main/java/org/gradle/api/internal/artifacts/transform/TransformationNode.java:157 | a shared prefix (the package and outer class) does not affect the comparison |
| `BuildOperations.Description` | subprojects/dependency-management/src/main/java/org/gradle/api/internal/artifacts/transform/TransformationNode.java:288-300 | the display name is "Transform ", then exactly the subject name, then " with " and the transformer's name; the progress name is the display name with that prefix swapped for the fixed "Transforming " prefix; both end in " with " and the transformer's name; the category is TRANSFORM |
| `BuildOperations.DisplayNameDeterminesSubject` | subprojects/dependency-management/src/main/java/org/gradle/api/internal/artifacts/transform/TransformationNode.java:293-296 | for one transformer, equal display names mean equal subject names |
| `TransformationNodes.ProcessCalls` | subprojects/dependency-management/src/main/java/org/gradle/api/internal/artifacts/transform/TransformationNode.java:163-168 | processing a dependency set makes two calls per dependency |
| `TransformationNodes.ProcessCallsAppend` | subprojects/dependency-management/src/main/java/org/gradle/api/internal/artifacts/transform/TransformationNode.java:171-174 | processing two batches one after the other is processing their concatenation |
| `TransformationNodes.OrderCounter.constructor` | subprojects/dependency-management/src/main/java/org/gradle/api/internal/artifacts/transform/TransformationNode.java:49 | the counter starts at zero with no node numbered |
| `TransformationNodes.OrderCounter.IncrementAndGet` | subprojects/dependency-management/src/main/java/org/gradle/api/internal/artifacts/transform/TransformationNode.java:51 | returns the counter's value after adding one, and keeps every order the counter issued distinct and within range |
| `TransformationNodes.TransformationNode.Initial` | subprojects/dependency-management/src/main/java/org/gradle/api/internal/artifacts/transform/TransformationNode.java:61-70 | a new Initial node takes the next order, strictly above every order the counter issued, keeps the counter free of ties, and starts with an empty slot and no successors |
| `TransformationNodes.TransformationNode.Chained` | subprojects/dependency-management/src/main/java/org/gradle/api/internal/artifacts/transform/TransformationNode.java:57-59 | the same for a Chained node over an existing predecessor, so the chain is acyclic and numbered in creation order |
| `TransformationNodes.TransformationNode.RethrowNodeFailure` | subprojects/dependency-management/src/main/java/org/gradle/api/internal/artifacts/transform/TransformationNode.java:150-152 | throws nothing |
| `TransformationNodes.TransformationNode.IsPublicNode` | subprojects/dependency-management/src/main/java/org/gradle/api/internal/artifacts/transform/TransformationNode.java:81-83 | a transformation node is public |
| `TransformationNodes.TransformationNode.RequiresMonitoring` | subprojects/dependency-management/src/main/java/org/gradle/api/internal/artifacts/transform/TransformationNode.java:86-88 | it needs no monitoring |
| `TransformationNodes.TransformationNode.Finalizers` | subprojects/dependency-management/src/main/java/org/gradle/api/internal/artifacts/transform/TransformationNode.java:125-127 | it has no finalizers |
| `TransformationNodes.TransformationNode.ProjectToLock` | subprojects/dependency-management/src/main/java/org/gradle/api/internal/artifacts/transform/TransformationNode.java:135-138 | it locks no project |
| `TransformationNodes.TransformationNode.ResourcesToLock` | subprojects/dependency-management/src/main/java/org/gradle/api/internal/artifacts/transform/TransformationNode.java:141-143 | it locks no other resource |
| `TransformationNodes.TransformationNode.NodeFailure` | subprojects/dependency-management/src/main/java/org/gradle/api/internal/artifacts/transform/TransformationNode.java:146-148 | it reports no node failure |
| `TransformationNodes.TransformationNode.ClassName` | subprojects/dependency-management/src/main/java/org/gradle/api/internal/artifacts/transform/TransformationNode.java:157 | each variant has its own class name, and the two names differ |
| `TransformationNodes.TransformationNode.CompareTo` | subprojects/dependency-management/src/main/java/org/gradle/api/internal/artifacts/transform/TransformationNode.java:155-161 | zero exactly for a node of the same variant with the same order; across classes, the class names' comparison; within one class, negative exactly when this node was created first |
| `TransformationNodes.TransformationNode.Chain` | subprojects/dependency-management/src/main/java/org/gradle/api/internal/artifacts/transform/TransformationNode.java:258-266 | the chain ending at a node starts at an Initial node, and each later node is chained to the one before it |
| `TransformationNodes.TransformationNode.InputArtifacts` | subprojects/dependency-management/src/main/java/org/gradle/api/internal/artifacts/transform/TransformationNode.java:214-266 | at any chain length, a node's input artifacts are the set of its chain's initial node |
| `TransformationNodes.TransformationNode.AddDependencySuccessor` | subprojects/dependency-management/src/main/java/org/gradle/api/internal/artifacts/transform/TransformationNode.java:165 | adds the node to the successor set and records the call |
| `TransformationNodes.TransformationNode.ProcessDependencies` | subprojects/dependency-management/src/main/java/org/gradle/api/internal/artifacts/transform/TransformationNode.java:163-168 | every dependency becomes a successor; the calls are add-then-report for each dependency in turn |
| `TransformationNodes.TransformationNode.ResolveCommonDependencies` | subprojects/dependency-management/src/main/java/org/gradle/api/internal/artifacts/transform/TransformationNode.java:170-174 | the step's own dependencies are processed first, then the resolver-computed ones |
| `TransformationNodes.TransformationNode.ResolveDependencies` | subprojects/dependency-management/src/main/java/org/gradle/api/internal/artifacts/transform/TransformationNode.java:224-282 | after the common dependencies come the artifact set's task dependencies (Initial) or the previous node itself (Chained); the successor set grows by exactly these nodes |
| `TransformationNodes.TransformationNode.Outcome` | subprojects/dependency-management/src/main/java/org/gradle/api/internal/artifacts/transform/TransformationNode.java:188-246 | Initial: the step's `Try` for the materialised subject, or a failure that is a ResolveException (or a Throwable that is no RuntimeException), a ResolveException passing unchanged; Chained: the step's `Try` for the predecessor's value, or the predecessor's failure unchanged; the step receives the node's resolver |
| `TransformationNodes.TransformationNode.SubjectName` | subprojects/dependency-management/src/main/java/org/gradle/api/internal/artifacts/transform/TransformationNode.java:201-253 | the set's display name (Initial), or the predecessor subject's display name or its failure's message (Chained) |
| `TransformationNodes.TransformationNode.Transform` | subprojects/dependency-management/src/main/java/org/gradle/api/internal/artifacts/transform/TransformationNode.java:188-246 | returns the node's specified `Outcome` and makes only the step invocation that `InvocationCalls` allows, passing the node's dependencies resolver |
| `TransformationNodes.TransformationNode.CalculateValue` | subprojects/dependency-management/src/main/java/org/gradle/api/internal/artifacts/transform/TransformationNode.java:286-311 | hands over the descriptor, records RESULT, then transforms |
| `TransformationNodes.TransformationNode.CalculateNow` | subprojects/dependency-management/src/main/java/org/gradle/api/internal/artifacts/transform/TransformationNode.java:113-119 | the first call fills the slot with the outcome and runs the computation once; any later call changes nothing and makes no call |
| `TransformationNodes.TransformationNode.Execute` | subprojects/dependency-management/src/main/java/org/gradle/api/internal/artifacts/transform/TransformationNode.java:112-115 | drives the slot with the scheduler's context |
| `TransformationNodes.TransformationNode.ExecuteIfNotAlready` | subprojects/dependency-management/src/main/java/org/gradle/api/internal/artifacts/transform/TransformationNode.java:117-120 | isolates the step's parameters every time; if isolation throws, that exception is returned and the slot is left as it was; otherwise drives the same slot with a null context |
| `TransformationNodes.TransformationNode.TransformedSubject` | subprojects/dependency-management/src/main/java/org/gradle/api/internal/artifacts/transform/TransformationNode.java:108-110 | returns the captured outcome; it reads the slot and cannot compute |
| `TransformationNodeProperties.ChainedClassNameFirst` | subprojects/dependency-management/src/main/java/org/gradle/api/internal/artifacts/transform/TransformationNode.java:156-157 | the Chained class name compares 'C' - 'I' against the Initial class name |
| `TransformationNodeProperties.CompareByKindThenOrder` | subprojects/dependency-management/src/main/java/org/gradle/api/internal/artifacts/transform/TransformationNode.java:155-161 | nodes of one class compare by creation order; a Chained node sorts before any Initial node |
| `TransformationNodeProperties.CompareWithOtherClass` | subprojects/dependency-management/src/main/java/org/gradle/api/internal/artifacts/transform/TransformationNode.java:156-157 | against a node of another class the class names decide, and never tie |
| `TransformationNodeProperties.CompareAntisymmetric` | subprojects/dependency-management/src/main/java/org/gradle/api/internal/artifacts/transform/TransformationNode.java:155-161 | swapping two transformation nodes negates the comparison |
| `TransformationNodeProperties.CompareTransitive` | subprojects/dependency-management/src/main/java/org/gradle/api/internal/artifacts/transform/TransformationNode.java:155-161 | the order among transformation nodes is transitive |
| `TransformationNodeProperties.NoTwoNodesTie` | subprojects/dependency-management/src/main/java/org/gradle/api/internal/artifacts/transform/TransformationNode.java:49-51 | among nodes numbered by one counter, the comparison is zero only for a node with itself |
| `TransformationNodeProperties.ChainInCreationOrder` | subprojects/dependency-management/src/main/java/org/gradle/api/internal/artifacts/transform/TransformationNode.java:51 | along a chain, each node has a larger order than every node before it |
| `TransformationNodeProperties.ReportedAppend` | subprojects/dependency-management/src/main/java/org/gradle/api/internal/artifacts/transform/TransformationNode.java:171-174 | the nodes reported by two batches of calls are those of the first batch, followed by those of the second |
| `TransformationNodeProperties.ReportedProcessCalls` | subprojects/dependency-management/src/main/java/org/gradle/api/internal/artifacts/transform/TransformationNode.java:163-168 | the callback receives exactly the dependencies, in order, with none dropped or merged |
| `TransformationNodeProperties.ProcessCallsInterleave` | subprojects/dependency-management/src/main/java/org/gradle/api/internal/artifacts/transform/TransformationNode.java:164-167 | the k-th dependency is added as a successor at call 2k and passed to the callback at call 2k+1 |
| `TransformationNodeProperties.DependencyNodesParts` | subprojects/dependency-management/src/main/java/org/gradle/api/internal/artifacts/transform/TransformationNode.java:170-282 | the successors are the step's own dependencies, then the resolver-computed ones, then the artifact set's task dependencies (Initial) or exactly the previous node (Chained) |
| `TransformationNodeProperties.DependenciesInOrder` | subprojects/dependency-management/src/main/java/org/gradle/api/internal/artifacts/transform/TransformationNode.java:171-282 | reported order: the step's own dependencies, then the resolver-computed nodes, then the artifact tasks (Initial) or the previous node (Chained) |
| `TransformationNodeProperties.ChainedReportsPreviousLast` | subprojects/dependency-management/src/main/java/org/gradle/api/internal/artifacts/transform/TransformationNode.java:277-282 | a Chained node's last two calls add the previous node as a successor and then report it |
| `TransformationNodeProperties.ChainedFailureShortCircuits` | subprojects/dependency-management/src/main/java/org/gradle/api/internal/artifacts/transform/TransformationNode.java:243-246 | a failed predecessor's failure is the outcome, and the step is not invoked |
| `TransformationNodeProperties.ChainedSuccessInvokesOnce` | subprojects/dependency-management/src/main/java/org/gradle/api/internal/artifacts/transform/TransformationNode.java:243-246 | after a successful predecessor, the step's `Try` is the outcome; the computation's calls are the descriptor, RESULT and exactly one invocation with the predecessor's value |
| `TransformationNodeProperties.InitialMaterializationFailure` | subprojects/dependency-management/src/main/java/org/gradle/api/internal/artifacts/transform/TransformationNode.java:189-196 | a ResolveException propagates unchanged; any other RuntimeException is wrapped as ArtifactResolveException("artifacts", step name, "artifact transform", {e}); the step is not invoked |
| `TransformationNodeProperties.InitialStepOutcomeUnchanged` | subprojects/dependency-management/src/main/java/org/gradle/api/internal/artifacts/transform/TransformationNode.java:198 | once the set is materialised, the step is invoked once with it, and its outcome (a failure too) is the node's, not rewrapped |
| `TransformationNodes.MaterializationFailure` | subprojects/dependency-management/src/main/java/org/gradle/api/internal/artifacts/transform/TransformationNode.java:190-196 | every RuntimeException ends up a ResolveException; ResolveExceptions and non-runtime throwables pass unchanged, anything else is wrapped as ArtifactResolveException("artifacts", step name, "artifact transform", {e}) |
| `TransformationNodeProperties.FailurePropagatesAlongChain` | subprojects/dependency-management/src/main/java/org/gradle/api/internal/artifacts/transform/TransformationNode.java:243-246 | a failure captured at any position in a chain is the captured outcome of every later node that has computed |
| `TransformationNodeProperties.DescribeThenResultThenTransform` | subprojects/dependency-management/src/main/java/org/gradle/api/internal/artifacts/transform/TransformationNode.java:304-308 | a computation hands over the descriptor, then records RESULT, and only after both invokes the step, at most once |
| `TransformationNodeProperties.FailedFirstStep` | subprojects/dependency-management/src/main/java/org/gradle/api/internal/artifacts/transform/TransformationNode.java:117-120 | in a two-node chain whose first step fails with E, both nodes capture E, the second step is never invoked, and running the first node again makes no call |
| `TransformationNodeProperties.SucceedingChain` | subprojects/dependency-management/src/main/java/org/gradle/api/internal/artifacts/transform/TransformationNode.java:112-115 | in a two-node chain X to Y to Z, the outcomes are Y and Z, each step is invoked exactly once, and executing the second node twice computes once |

## Left out

- CalculatedValueContainer internals (locking, blocking concurrent waiters, capturing exceptions) are concurrency machinery in code that is not part of this model. `CalculateNow` states the container's assumed contract: compute once, then return the cached `Try`. The ghost `calculations` counter and `Valid()` record that the computation ran at most once. This is an abstraction, not a proof about the container.
- Reading a slot that has not been computed, and computing a Chained node before its predecessor has a result, are preconditions (`result.Some?`, `ReadyToCalculate`). What the container does in that case is not visible.
- The build-operation backend (`BuildOperationExecutor`, `BuildOperationContext`) and the `ExecuteScheduledTransformationStepBuildOperationDetails` payload are left out as external instrumentation. The model keeps the two names, the category, and the order "hand over descriptor, set RESULT, transform". The executor is assumed to pass exceptions through unchanged.
- `Throwable.getMessage` is a virtual call into exception classes that are not part of this model. `DefaultLenientConfiguration.ArtifactResolveException` is such a class, and its message text is not in the file. The message is therefore the parameter `messageOf`.
- `Try.get()` is assumed to rethrow a failure unchanged, and the container is assumed to capture it again unchanged. The model folds the two into the identity on `Try`.
- TransformationNode.ProcessDependencies: the hard-successor callback `processHardSuccessor.execute` is assumed to return normally, so a batch is always processed to its end; the same holds for the previous-node report in `ResolveDependencies`. A callback that throws part-way is not modelled, because the callback is scheduler code that is not part of this model.
- `AtomicInteger` atomicity, and the `int` overflow of `order - other.order`, are not modelled: integers are unbounded and the counter is sequential. The counter is a value passed to the constructors rather than a static. Chained construction requires the predecessor to come from the same counter, as it does with the single static counter.
- Java `Set` results of the resolvers are sequences in their iteration order, so a resolver may also return duplicates. `addDependencySuccessor`'s registration of the predecessor link on the target belongs to the `Node` base class, which is not part of this model. The model records the call and the successor set.
- `transformListener`, `resolveMutations` and `prepareForExecution` are inert in this file and are not modelled. The same holds for the container's display name (`Describables.of`).
- `getOwningProject`, `toString`, `getTransformationStep`, `getDependenciesResolver` and `getPreviousTransformationNode` are plain accessors. The model reads the corresponding constant fields directly.
- The null context passed to `resolveDependenciesFor` is always null, so the model omits it.
- Calls into collaborators that are not recorded in the `Journal`: `calculateSubject()`, `resolveDependenciesFor`, `computeDependencyNodes`, `getTaskDependencies`, `getDisplayName`, `createInvocation` as a call separate from `invoke`, and the predecessor's `getTransformedSubject`. Their answers are values of the model, so only the order of the recorded calls is stated.
- `createInvocation` receives the dependencies resolver as an object. The model passes the resolver's identity (`ResolverId`) to `invoke`, because a step that took the whole resolver would make the two datatypes contain each other. Two nodes with the same step and different resolvers may therefore get different outcomes; the step invocation in the `Journal` records the whole resolver.
- A Throwable that is not a RuntimeException (`FatalFailure`), raised by `calculateSubject()` or by the step, passes every catch clause of the transform. The model assumes that the container captures it in the slot like any other failure; the container code that decides this is not part of this model.
- Class names are compared as Dafny `char` sequences. Java compares UTF-16 code units. The two agree on the ASCII names involved.
