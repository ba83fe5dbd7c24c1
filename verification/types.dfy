/** Values shared by every layer: tickets, messages, events, actions and the configuration. */
module Types {
  datatype Option<+T> = None | Some(value: T)

  // ---------- Tickets ----------

  datatype Ticket = Ticket(pid: nat, ts: nat)

  /** The total order of requests: by timestamp, ties broken by process id. */
  predicate Before(a: Ticket, b: Ticket) {
    if a.ts != b.ts then a.ts < b.ts else a.pid < b.pid
  }

  // ---------- Messages, events, actions ----------

  datatype Message =
    | Request(requestTicket: Ticket)
    | Reply(senderTicket: Ticket, answered: Ticket)
    | PartyStart(leaderTicket: Ticket, partyId: nat, participants: seq<nat>)

  /** The timestamp a message carries: the one its receiver feeds to its clock. */
  function Stamp(m: Message): nat {
    match m
    case Request(t) => t.ts
    case Reply(s, _) => s.ts
    case PartyStart(s, _, _) => s.ts
  }

  datatype LocalKind = WantParty | ReleaseParty

  datatype Event = Local(kind: LocalKind) | Net(from: nat, msg: Message)

  datatype NotifyKind = EnteredParty | ExitedParty

  datatype Action =
    | Send(to: nat, msg: Message)
    | Broadcast(msg: Message)
    | Notify(kind: NotifyKind)

  // ---------- Configuration ----------

  datatype Species = Hare | Bear

  datatype Config = Config(
    worldSize: nat,
    capacity: nat,
    numHares: nat,
    partyIdOffset: nat,
    bearWeight: nat,
    hareWeight: nat)

  function SpeciesOf(p: nat, c: Config): Species {
    if p < c.numHares then Hare else Bear
  }

  function WeightOf(p: nat, c: Config): nat {
    if p < c.numHares then c.hareWeight else c.bearWeight
  }

  /** What the protocol theorems assume of a configuration; the shipped defaults satisfy it. */
  predicate Supported(c: Config) {
    c.worldSize >= 2 && c.hareWeight == 1 && c.bearWeight >= 2
  }

  const TWO_32 := 0x1_0000_0000
  const TWO_64 := 0x1_0000_0000_0000_0000
}
