// Vocabulary shared by every component: results, errors, identifiers and the
// outcome of one durable append.
module Types {

  // Instants are whole numbers on one injected clock; no component reads a clock.
  type Timestamp = int

  // Identifiers are fresh numbers; 0 plays the nil identifier.
  type SkillId = nat
  type TaskId = nat
  type ActionId = nat
  type ApprovalId = nat

  // A JSON payload as its serialised text.
  type Payload = string

  datatype Option<+T> = None | Some(value: T)

  datatype Result<+T, +E> = Ok(value: T) | Err(error: E)

  // What a call gives its caller: an answer, or nothing because the process died.
  datatype Reply<+T> = Answer(r: Result<T, ActionError>) | Crash

  datatype ActionError =
    | ManifestValidation(message: string)
    | SecretInManifest(message: string)
    | SignatureInvalid(message: string)
    | UnknownSkill(message: string)
    | NotFound(message: string)
    | IllegalTransition(message: string)
    | ApprovalMissing(message: string)
    | ApprovalExpired(message: string)
    | ApprovalReused(message: string)
    | ApprovalPayloadMismatch(message: string)
    | PolicyDenied(message: string)
    | ExecutionFailed(message: string)
    | Proof(message: string)
  {
    // The text stored in the outbox when a dispatch fails.
    function Display(): string {
      match this
      case ManifestValidation(m) => "manifest validation error: " + m
      case SecretInManifest(m) => "secret detected in manifest: " + m
      case SignatureInvalid(m) => "skill signature invalid: " + m
      case UnknownSkill(m) => "unknown skill: " + m
      case NotFound(m) => "not found: " + m
      case IllegalTransition(m) => "illegal transition: " + m
      case ApprovalMissing(m) => "approval missing: " + m
      case ApprovalExpired(m) => "approval expired: " + m
      case ApprovalReused(m) => "approval reused: " + m
      case ApprovalPayloadMismatch(m) => "approval payload mismatch: " + m
      case PolicyDenied(m) => "policy denied: " + m
      case ExecutionFailed(m) => "execution failed: " + m
      case Proof(m) => "proof error: " + m
    }
  }

  // What becomes of one append to a durable log.  A landed row is on disk for
  // good, and no row is ever half written: opening a journal heals a torn last
  // line.  That the snapshot file has no torn line either is an assumption.
  datatype Append =
    | Written   // the row is on disk and the caller is told so
    | Unacked   // the row is on disk, but the caller is told of an I/O error
    | Refused   // the row is not on disk and the caller is told of an I/O error
    | Died      // the process is killed before the row reaches the disk
  {
    predicate Lands() { Written? || Unacked? }
  }

  const IO_ERROR: ActionError := Proof("io")

  // ----- identifiers as text -----

  function DigitChar(d: nat): char
    requires d < 10
  {
    ('0' as int + d) as char
  }

  function Show(n: nat): (s: string)
    ensures |s| >= 1
    ensures n >= 10 ==> |s| >= 2
  {
    if n < 10 then [DigitChar(n)] else Show(n / 10) + [DigitChar(n % 10)]
  }

  lemma {:induction false} ShowInjective(a: nat, b: nat)
    requires Show(a) == Show(b)
    ensures a == b
    decreases a
  {
    assert Show(a)[|Show(a)| - 1] == DigitChar(a % 10);
    assert Show(b)[|Show(b)| - 1] == DigitChar(b % 10);
    if a >= 10 {
      assert Show(a)[..|Show(a)| - 1] == Show(a / 10);
      assert Show(b)[..|Show(b)| - 1] == Show(b / 10);
      ShowInjective(a / 10, b / 10);
    }
  }
}
