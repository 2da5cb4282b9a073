/** Desired-settings commands and the pure decision on them (contracts/settings.py). */
module Settings {
  import opened Basics

  datatype Settings = Settings(accountId: string, environment: string, symbol: string, version: Positive,
                               kind: RuleKind, threshold: real)

  datatype ConfigCommand = ConfigCommand(commandId: Id, idempotencyKey: string, expectedVersion: nat,
                                         expiresAt: int, settings: Settings)

  /** The canonical digest; collisions of SHA-256 are taken not to occur. */
  datatype Digest = Sha256(of: ConfigCommand)

  datatype Actor = Actor(actorId: string, accountId: string, environment: string, mayWrite: bool)

  predicate InScope(a: Actor, s: Settings) {
    a.accountId == s.accountId && a.environment == s.environment && a.mayWrite
  }

  /** The reason of the decision; "ACCEPTED" is the only accepting one. */
  function Decide(c: ConfigCommand, a: Actor, current: nat, now: int): string {
    if !InScope(a, c.settings) then "CONFIG_UNAUTHORIZED"
    else if now >= c.expiresAt then "COMMAND_EXPIRED"
    else if current != c.expectedVersion then "STALE_CONFIG_VERSION"
    else if c.settings.version <= current then "CONFIG_VERSION_MUST_ADVANCE"
    else "ACCEPTED"
  }
}
