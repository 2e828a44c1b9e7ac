/** The two game-action structs of GameCommand.swift and the `GameActionType` protocol they
    conform to. Both are plain immutable values. */
module GameActions {
  import opened FoundationData

  /** A named trigger: carries only its identifier. */
  datatype GameAction = GameAction(identifier: string)

  /** A named node's position: its identifier and three coordinates. */
  datatype PositionGameAction = PositionGameAction(identifier: string, x: Float32, y: Float32, z: Float32)

  /** A value whose static type is `GameActionType`. The repository has exactly two conforming
      types, so a value of the protocol type is one of them. */
  datatype GameActionType = Generic(generic: GameAction) | Positional(positional: PositionGameAction) {

    /** The protocol's one requirement. */
    function Identifier(): string {
      match this
      case Generic(g) => g.identifier
      case Positional(p) => p.identifier
    }
  }
}
