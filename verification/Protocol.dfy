// Identifiers, operations and answers of the sandbox protocol.
module Protocol {
  type RequestId = nat
  type TerminalId = nat
  type InputId = nat
  type WorkspaceId = nat

  // The operations that `terminal_mutation` recognises, and the changes of files and directories.
  datatype Kind = Start | Input | AckOutput | Resize | Interrupt | Kill | Terminate | Filesystem

  // Fingerprints are digests of the encoded operation. They are taken to be collision-free,
  // so the operation itself stands for its fingerprint.
  datatype Operation = Operation(kind: Kind, terminal: TerminalId, payload: nat)

  type Fingerprint = Operation

  datatype ErrorCode =
    | Conflict | LimitExceeded | OutcomeUnknown | DeadlineExceeded | Internal | OtherCode(code: nat)

  datatype Response = Success(result: nat) | Failure(code: ErrorCode)
}
