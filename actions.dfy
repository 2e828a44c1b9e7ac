/** Action.swift: the `Action` enum and its `description`. */
module Actions {
  import opened GameActions

  datatype Action = Game(game: GameAction) | Position(position: PositionGameAction) {

    /** The identifier of the action either case wraps. */
    function Identifier(): string {
      match this
      case Game(g) => g.identifier
      case Position(p) => p.identifier
    }

    /** `description`: a fixed prefix per case followed by the identifier. */
    function Description(): (r: string)
      ensures |Identifier()| < |r| && r[|r| - |Identifier()|..] == Identifier()
    {
      match this
      case Game(g) => "game action " + g.identifier
      case Position(p) => "position action " + p.identifier
    }
  }

  /** The description of every action is its case's prefix followed by its identifier; the
      match above covers exactly the two cases. */
  lemma DescriptionShape(a: Action)
    ensures a.Game? ==> a.Description() == "game action " + a.Identifier()
    ensures a.Position? ==> a.Description() == "position action " + a.Identifier()
  {
  }

  /** A position action's description depends on its identifier only, not on x, y or z. */
  lemma DescriptionIgnoresCoordinates(p: PositionGameAction, q: PositionGameAction)
    requires p.identifier == q.identifier
    ensures Position(p).Description() == Position(q).Description()
  {
  }

  /** A game action and a position action never share a description, whatever their
      identifiers: the prefixes differ in their first character. */
  lemma DescriptionsOfCasesDiffer(g: GameAction, p: PositionGameAction)
    ensures Game(g).Description() != Position(p).Description()
  {
    assert Game(g).Description()[0] == 'g';
    assert Position(p).Description()[0] == 'p';
  }

  /** The description determines the case and the identifier. */
  lemma {:induction false} DescriptionDetermines(a: Action, b: Action)
    requires a.Description() == b.Description()
    ensures a.Game? == b.Game? && a.Identifier() == b.Identifier()
  {
    if a.Game? && b.Position? {
      DescriptionsOfCasesDiffer(a.game, b.position);
    } else if a.Position? && b.Game? {
      DescriptionsOfCasesDiffer(b.game, a.position);
    } else {
      var prefix := if a.Game? then "game action " else "position action ";
      assert a.Description() == prefix + a.Identifier();
      assert b.Description() == prefix + b.Identifier();
      assert a.Identifier() == a.Description()[|prefix|..];
      assert b.Identifier() == b.Description()[|prefix|..];
    }
  }
}
