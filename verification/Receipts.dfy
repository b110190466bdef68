/** Idempotency keys and the receipts filed under them, for every kind of pushed change. */
module Receipts {
  import opened Types
  import opened Texts
  import opened Tables

  /** What the services demand of a key: they measure it in bytes. */
  predicate ValidKey(key: string) {
    16 <= Bytes(key) <= 255
  }

  /** PostgreSQL takes no text with U+0000, not even to look it up. */
  predicate Readable(key: string) {
    '\0' !in key
  }

  /** What the key column of the receipt tables takes: its constraint counts characters. */
  predicate StorableKey(key: string) {
    Readable(key) && 16 <= |key| <= 255
  }

  /** How one change of a push ends; `Aborted` is an error of the whole push request. */
  datatype Reply = Answer(outcome: Outcome) | Replay(original: Outcome, cursor: nat) | Aborted

  predicate KeyReused(reply: Reply) {
    reply.Answer? && reply.outcome.Rejected? && reply.outcome.code == IdempotencyKeyReuse
  }

  /** The outcome that a reply reports, whether fresh or replayed. */
  function Told(reply: Reply): Outcome
    requires !reply.Aborted?
  {
    if reply.Answer? then reply.outcome else reply.original
  }

  function KeyText(pushed: Pushed): string {
    match pushed
    case OfTables(change) => change.key
    case OfHome(command) => command.key
  }

  function KeyOf(device: Id, pushed: Pushed): ReceiptKey {
    ReceiptKey(device, KeyText(pushed))
  }

  type Filing = map<ReceiptKey, Receipt>

  /** GetIdempotency and what it makes of a receipt: replay the stored outcome for the same request, refuse
      any other one under the key. */
  function Lookup(receipts: Filing, device: Id, pushed: Pushed, base: int, cursor: nat): Option<Reply> {
    var k := KeyOf(device, pushed);
    if k !in receipts then None
    else if receipts[k].device != device || receipts[k].pushed != pushed
    then Some(Answer(Rejected(IdempotencyKeyReuse,
                              if base < 0 then 0 else base))) else Some(Replay(receipts[k].outcome, cursor))
  }

  /** Receipts are filed under their device and a storable key, and never hold the key-reuse rejection. */
  predicate Filable(k: ReceiptKey, receipt: Receipt) {
    receipt.device == k.device && StorableKey(k.key) && !KeyReused(Answer(receipt.outcome))
  }

  ghost predicate Filed(receipts: Filing) {
    forall k :: k in receipts ==> Filable(k, receipts[k])
  }

  /** The reply is what the receipt under the change's key says, ever after. */
  predicate InReceipts(receipts: Filing, device: Id, pushed: Pushed, reply: Reply) {
    var k := KeyOf(device, pushed);
    && !reply.Aborted?
    && k in receipts
    && (KeyReused(reply) <==> receipts[k].pushed != pushed)
    && (!KeyReused(reply) ==> receipts[k] == Receipt(device, pushed, Told(reply)))
  }

  /** Receipts that were filed stay as they are. */
  ghost predicate KeepsReceipts(receipts: Filing, later: Filing) {
    forall k :: k in receipts ==> k in later && later[k] == receipts[k]
  }

  lemma LookupIsFiled(receipts: Filing, device: Id, pushed: Pushed, base: int, cursor: nat)
    requires Filed(receipts) && Lookup(receipts, device, pushed, base, cursor).Some?
    ensures InReceipts(receipts, device, pushed, Lookup(receipts, device, pushed, base, cursor).value)
    ensures StorableKey(KeyText(pushed))
  {
    assert Filable(KeyOf(device, pushed), receipts[KeyOf(device, pushed)]);
  }

  /** Presented again, a settled change is replayed with its first outcome, or refused as before. */
  lemma LookupAgain(receipts: Filing, later: Filing, device: Id, pushed: Pushed, reply: Reply, base: int, cursor: nat)
    requires Filed(receipts) && InReceipts(receipts, device, pushed, reply) && KeepsReceipts(receipts, later)
    ensures InReceipts(later, device, pushed, reply)
    ensures var again := Lookup(later, device, pushed, base, cursor);
            again.Some? && if KeyReused(reply) then KeyReused(again.value)
                else again.value == Replay(Told(reply), cursor)
  {
    var k := KeyOf(device, pushed);
    assert later[k] == receipts[k] && Filable(k, receipts[k]);
  }
}
