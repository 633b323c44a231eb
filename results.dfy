/**
 * Captured outcomes. A transformation node never lets a transform failure escape as
 * control flow: every outcome is a `Try`, either the produced value or the failure that
 * was raised while producing it.
 */
module Results {

  datatype Option<T> = None | Some(value: T)

  /**
   * The failures a transformation node can observe, classified the way the catch clauses
   * of the initial node's transform tell them apart:
   * - `ResolveFailure`: a ResolveException raised by a collaborator;
   * - `ArtifactResolveFailure`: the ArtifactResolveException the initial node builds when it
   *   wraps an unexpected failure (it is itself a ResolveException);
   * - `UnexpectedFailure`: any other RuntimeException;
   * - `FatalFailure`: a Throwable that is not a RuntimeException (no catch clause matches it).
   * The strings identify the failure; what `getMessage` returns is not fixed by them.
   */
  datatype Error =
    | ResolveFailure(description: string)
    | ArtifactResolveFailure(kind: string, displayName: string, category: string, causes: seq<Error>)
    | UnexpectedFailure(description: string)
    | FatalFailure(description: string)
  {
    /** `e instanceof ResolveException` */
    predicate IsResolveException() {
      ResolveFailure? || ArtifactResolveFailure?
    }

    /** `e instanceof RuntimeException`: ResolveException is one too. */
    predicate IsRuntimeException() {
      !FatalFailure?
    }
  }

  /** Success with a subject, or the captured failure. */
  datatype Try<T> = Success(subject: T) | Failure(failure: Error) {

    /** Applies `f` to a success value; a failure is kept as it is. */
    function Map<U>(f: T -> U): (r: Try<U>)
      ensures Success? ==> r == Success(f(subject))
      ensures Failure? ==> r == Failure(failure)
    {
      match this
      case Success(s) => Success(f(s))
      case Failure(e) => Failure(e)
    }

    /** Chains a computation that itself yields a `Try`; a failure short-circuits it. */
    function FlatMap<U>(f: T -> Try<U>): (r: Try<U>)
      ensures Success? ==> r == f(subject)
      ensures Failure? ==> r == Failure(failure)
    {
      match this
      case Success(s) => f(s)
      case Failure(e) => Failure(e)
    }

    /** The success value, or `f` applied to the failure. */
    function GetOrMapFailure(f: Error -> T): (r: T)
      ensures Success? ==> r == subject
      ensures Failure? ==> r == f(failure)
    {
      match this
      case Success(s) => s
      case Failure(e) => f(e)
    }
  }

  /** Mapping is chaining into a computation that always succeeds. */
  lemma MapIsFlatMapOfSuccess<T, U>(t: Try<T>, f: T -> U)
    ensures t.Map(f) == t.FlatMap((x: T) => Success(f(x)))
  {
  }

  /** Chaining into `Success` gives the value back unchanged. */
  lemma FlatMapSuccessIsIdentity<T>(t: Try<T>)
    ensures t.FlatMap((x: T) => Success(x)) == t
  {
  }
}
