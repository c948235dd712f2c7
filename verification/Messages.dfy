// messaging.hpp: what client and server send each other.
module Messages {
  import opened Bytes
  import opened Rules

  datatype Message =
    | Connected(id: u8)
    | Ping
    | Pong
    | InQueue(position: nat)
    | GameStart(numPlayers: u8, columns: u8, rows: u8, first: u8)
    | GameEnd(winner: u8)
    | Ready(id: u8)
      // takeTurn: a request when the column is -1 in eight bits, otherwise a client's move
    | TurnMessage(id: u8, column: u8)
      // turnResult: the outcome of the receiver's own move
    | ResultMessage(result: TurnResult, column: u8)
      // update: an opponent's successful move
    | Update(id: u8, column: u8)
}
