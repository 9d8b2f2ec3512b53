/** Small datatypes shared by the models. */
module Base {

  datatype Option<+T> = None | Some(value: T)

  /** The verdict on a mutant. */
  datatype Verdict = Killed | Survived | Invalid | Timeout | Unknown | Unsupported | Equivalent

  function Min(a: int, b: int): int { if a < b then a else b }
  function Max(a: int, b: int): int { if a < b then b else a }

  /** A seal: what stands under `Open(k) ==> ...` for all seals is used only where a seal is opened, so
      that other proofs do not unfold it. */
  datatype Seal = Seal

  predicate Open(k: Seal) { true }
}
