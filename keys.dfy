/** Addressing and revision primitives shared by every ingredient, plus the
    events and fatal-misuse outcomes the accumulator reports. */
module Keys {

  datatype Option<+T> = None | Some(value: T)

  /** Logical time of a database; it only grows, and only when an input changes. */
  type Revision = nat

  /** Names one storage unit (ingredient) of a database. */
  type IngredientIndex = nat

  /** Names one entry inside a single ingredient. */
  type Id = nat

  /** An entry of an ingredient (`keyIndex` is `Some`), or the whole ingredient
      as a coarse dependency (`keyIndex` is `None`). */
  datatype DependencyIndex = Dependency(ingredientIndex: IngredientIndex, keyIndex: Option<Id>)

  /** One concrete computation invocation: a dependency index that always names an entry. */
  datatype DatabaseKeyIndex = DatabaseKey(ingredientIndex: IngredientIndex, keyIndex: Id)

  /** How a stored value was last produced. */
  datatype QueryOrigin =
    | Assigned(assignedBy: DatabaseKeyIndex)
    | BaseInput
    | Derived(edges: seq<DependencyIndex>)
    | DerivedUntracked(edges: seq<DependencyIndex>)

  /** What to do when a computation re-enters itself. */
  datatype CycleRecoveryStrategy = Panic | Fallback

  /** Diagnostic events that ingredients report to the database. */
  datatype Event = DidDiscardAccumulated(executorKey: DatabaseKeyIndex, accumulator: DependencyIndex)

  /** The contract violations that abort an accumulator operation. */
  datatype Misuse =
    | AccumulateOutsideQuery   // push with no active query
    | DependOnAccumulator      // maybe_changed_after asked of an accumulator
    | OutputKeyPresent         // mark/remove called with a concrete output key
    | ResetAccumulator         // eager reset of an accumulator
    | NotADependentFn          // salsa_struct_deleted sent to an accumulator

  /** An operation either completes with a value or aborts with a fatal misuse. */
  datatype Result<+T> = Ok(value: T) | FatalMisuse(misuse: Misuse)
}
