/** Values shared by every part of the model. */
module Types {

  datatype Option<+T> = None | Some(value: T)

  /** A UUID, as its position in the order of canonical UUID texts (which is also PostgreSQL's uuid order). */
  type Id = nat

  /** A calendar day of the family's time zone. */
  type Day = int

  /** A UUID as a client spells it. Spelling 0 is the canonical lower-case text; every other number
      is another spelling of the same UUID (upper-case digits). */
  datatype Ref = Malformed | Uuid(id: Id, spelling: nat)

  datatype Kind = Categories | Products | ProductBatches | ShoppingItems | ReminderSettings | OtherEntity

  datatype Key = Key(kind: Kind, id: Id)

  function BatchKey(id: Id): Key {
    Key(ProductBatches, id)
  }

  datatype Status = Active | UsedUp | Expired | Discarded

  /** Columns of type INTEGER hold at most this value. */
  const MAX_INTEGER := 0x7fff_ffff

  function Max(x: int, y: int): int {
    if x < y then y else x
  }

  function Min(x: int, y: int): int {
    if x < y then x else y
  }

  /** The classes of database failure that the change guard tells apart. */
  datatype SqlState =
    | UniqueViolation      // 23505
    | ForeignKeyViolation  // 23503
    | InvalidData          // 22P02, 22003, 22007, 22008, 22001, 23502, 23514
    | OtherFailure         // every other SQLSTATE, and errors that are not PostgreSQL errors

  datatype Code =
    | ValidationFailed
    | InvalidCursor
    | IdempotencyKeyReuse
    | VersionConflict
    | FamilyScopeViolation
    | UnsupportedEntity
    | InventoryCommandRequired
    | DependencyRequired
    | InvalidReference
    | InvalidProduct
    | InvalidBatch
    | InsufficientStock
    | BatchUnavailable
    | InvalidAuthoritativeResult
    | NotFound
    | InvalidArgument
    | Forbidden
    | ImportIdReused
    | ImportCheckpointStale
    | ImportBlocked
    | ImportUnsupportedFormat
    | ImportLimitExceeded
    | ConflictAlreadyResolved
    | ConflictActionUnsupported

  /** An error is either one of the domain's own or an infrastructure failure. `serverVersion`
      is the detail of that name (0 when the error carries none). */
  datatype Failure =
    | Business(code: Code, serverVersion: int)
    | Raw(state: SqlState)

  datatype Result<+T> = Ok(value: T) | Err(error: Failure)
}
