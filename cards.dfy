/** Cards, zones and the effect interpreter: conditions over zone counts,
    the (stubbed) zone-transfer actions, effect chains and a card's effects. */
module Cards {
  import opened Wrappers

  datatype CardType = Normal | Counter | Combo

  /** The six named card containers: deck (heap), the two hands, the two
      score zones and the discard (abandon) pile. */
  datatype GameZone = H | P1 | P2 | S1 | S2 | A

  /** The key under which a zone's count is stored in a zone-count map. */
  function Key(z: GameZone): string
  {
    match z
    case H => "deck"
    case P1 => "player1"
    case P2 => "player2"
    case S1 => "score1"
    case S2 => "score2"
    case A => "discard"
  }

  /** Distinct zones have distinct keys, so a count map can hold all six. */
  lemma KeyInjective(y: GameZone, z: GameZone)
    ensures Key(y) == Key(z) <==> y == z
  {
  }

  datatype OperatorType = GT | GTE | LT | LTE | EQ | NEQ

  datatype ActionType = Order | Select | Random

  /** An operand of a condition: an integer literal or a zone whose count is looked up. */
  datatype Operand = Lit(n: int) | ZoneRef(zone: GameZone)

  /** The dictionary of zone counts the effects work on. */
  type ZoneCounts = map<string, int>

  datatype IfCondition = IfCondition(operandA: Operand, operator: OperatorType, operandB: Operand)

  datatype ActionEffect = ActionEffect(fromZone: GameZone, toZone: GameZone, num: int, actionType: ActionType)

  /** One step of an effect chain. */
  datatype Step = Cond(cond: IfCondition) | Act(action: ActionEffect)

  datatype CardEffect = CardEffect(effects: seq<Step>)

  datatype Card = Card(id: int, name: string, meaning: string, story: string,
                       cardType: CardType, effectDescription: string,
                       effects: seq<CardEffect>)
  {
    predicate IsNormalCard() { cardType == Normal }
    predicate HasCounterEffect() { cardType == Counter }
    predicate HasComboEffect() { cardType == Combo }
  }

  /** Building a card: an absent effect list becomes the empty list. */
  function NewCard(id: int, name: string, meaning: string, story: string,
                   cardType: CardType, effectDescription: string,
                   effects: Option<seq<CardEffect>>): (c: Card)
    ensures c.id == id && c.cardType == cardType
    ensures effects.None? ==> c.effects == []
    ensures effects.Some? ==> c.effects == effects.value
  {
    Card(id, name, meaning, story, cardType, effectDescription,
         match effects case None => [] case Some(es) => es)
  }

  /** Every card is of exactly one of the three kinds. */
  lemma ExactlyOneKind(c: Card)
    ensures c.IsNormalCard() || c.HasCounterEffect() || c.HasComboEffect()
    ensures !(c.IsNormalCard() && c.HasCounterEffect())
    ensures !(c.IsNormalCard() && c.HasComboEffect())
    ensures !(c.HasCounterEffect() && c.HasComboEffect())
  {
  }

  // ---------------------------------------------------------------------
  // Conditions
  // ---------------------------------------------------------------------

  /** The value of an operand: a literal is itself; a zone is the count under
      its key, or 0 when the map has no such key. */
  function GetValue(operand: Operand, state: ZoneCounts): int
  {
    match operand
    case Lit(n) => n
    case ZoneRef(z) => if Key(z) in state then state[Key(z)] else 0
  }

  function Evaluate(c: IfCondition, state: ZoneCounts): bool
  {
    var a, b := GetValue(c.operandA, state), GetValue(c.operandB, state);
    match c.operator
    case GT => a > b
    case GTE => a >= b
    case LT => a < b
    case LTE => a <= b
    case EQ => a == b
    case NEQ => a != b
  }

  /** The operators come in complementary pairs and converse pairs. */
  lemma OperatorDualities(a: Operand, b: Operand, state: ZoneCounts)
    ensures Evaluate(IfCondition(a, NEQ, b), state) == !Evaluate(IfCondition(a, EQ, b), state)
    ensures Evaluate(IfCondition(a, GTE, b), state) == !Evaluate(IfCondition(a, LT, b), state)
    ensures Evaluate(IfCondition(a, LTE, b), state) == !Evaluate(IfCondition(a, GT, b), state)
    ensures Evaluate(IfCondition(a, GT, b), state) == Evaluate(IfCondition(b, LT, a), state)
    ensures Evaluate(IfCondition(a, GTE, b), state) == Evaluate(IfCondition(b, LTE, a), state)
  {
  }

  // ---------------------------------------------------------------------
  // Actions and chains
  // ---------------------------------------------------------------------

  /** An action is an interface stub: it hands back the map it was given,
      whatever its zones, count and selection mode. */
  function ExecuteAction(a: ActionEffect, state: ZoneCounts): ZoneCounts
  {
    state
  }

  /** The map a chain leaves: steps run in order and the first false
      condition ends the chain. */
  function RunChain(steps: seq<Step>, state: ZoneCounts): ZoneCounts
    decreases |steps|
  {
    if steps == [] then state
    else match steps[0]
      case Cond(c) => if Evaluate(c, state) then RunChain(steps[1..], state) else state
      case Act(a) => RunChain(steps[1..], ExecuteAction(a, state))
  }

  /** How many steps of a chain are processed (a false condition counts as
      processed; nothing after it is). */
  function Processed(steps: seq<Step>, state: ZoneCounts): nat
    decreases |steps|
  {
    if steps == [] then 0
    else match steps[0]
      case Cond(c) => if Evaluate(c, state) then 1 + Processed(steps[1..], state) else 1
      case Act(a) => 1 + Processed(steps[1..], ExecuteAction(a, state))
  }

  /** Whether step `i` of a chain is a condition that is false. The condition
      is evaluated on the chain's input map rather than on the map reached at
      step `i`; the two are equal only because every action is the identity
      stub `ExecuteAction`. */
  predicate FailsAt(steps: seq<Step>, i: int, state: ZoneCounts)
    requires 0 <= i < |steps|
  {
    steps[i].Cond? && !Evaluate(steps[i].cond, state)
  }

  /** Since every action is the identity, a chain returns its input map,
      whatever its conditions evaluate to. */
  lemma {:induction false} RunChainIdentity(steps: seq<Step>, state: ZoneCounts)
    ensures RunChain(steps, state) == state
    decreases |steps|
  {
    if steps != [] {
      match steps[0]
      case Cond(c) =>
        if Evaluate(c, state) {
          RunChainIdentity(steps[1..], state);
        }
      case Act(a) =>
        RunChainIdentity(steps[1..], ExecuteAction(a, state));
    }
  }

  /** Short-circuit: no step after a false condition is processed. */
  lemma {:induction false} ShortCircuit(steps: seq<Step>, state: ZoneCounts, i: int)
    requires 0 <= i < |steps| && FailsAt(steps, i, state)
    ensures Processed(steps, state) <= i + 1
    decreases i
  {
    if i > 0 {
      assert FailsAt(steps[1..], i - 1, state);
      match steps[0]
      case Cond(c) =>
        if Evaluate(c, state) {
          ShortCircuit(steps[1..], state, i - 1);
        }
      case Act(a) =>
        ShortCircuit(steps[1..], ExecuteAction(a, state), i - 1);
    }
  }

  /** A chain is processed to its end, or up to and including a false condition. */
  lemma {:induction false} StopsOnlyAtFalse(steps: seq<Step>, state: ZoneCounts)
    ensures Processed(steps, state) <= |steps|
    ensures Processed(steps, state) == |steps| ||
            (Processed(steps, state) >= 1 && FailsAt(steps, Processed(steps, state) - 1, state))
    decreases |steps|
  {
    if steps != [] {
      var rest := steps[1..];
      match steps[0]
      case Cond(c) =>
        if Evaluate(c, state) {
          StopsOnlyAtFalse(rest, state);
          var p := Processed(rest, state);
          if p < |rest| {
            assert steps[p] == rest[p - 1];
          }
        }
      case Act(a) =>
        // the failing condition is found on ExecuteAction(a, state), which equals state
        StopsOnlyAtFalse(rest, ExecuteAction(a, state));
        var p := Processed(rest, ExecuteAction(a, state));
        if p < |rest| {
          assert steps[p] == rest[p - 1];
        }
    }
  }

  /** Runs one effect chain on (a copy of) the given map, stopping at the
      first false condition. `processed` counts the steps it looked at. */
  method ExecuteChain(effect: CardEffect, state: ZoneCounts) returns (r: ZoneCounts, ghost processed: nat)
    ensures r == RunChain(effect.effects, state)
    ensures processed == Processed(effect.effects, state)
    ensures r == state
  {
    var steps := effect.effects;
    var current := state;
    var i := 0;
    while i < |steps|
      invariant 0 <= i <= |steps|
      invariant RunChain(steps[i..], current) == RunChain(steps, state)
      invariant i + Processed(steps[i..], current) == Processed(steps, state)
    {
      match steps[i] {
        case Cond(c) =>
          if !Evaluate(c, current) {
            i := i + 1;
            break;
          }
        case Act(a) =>
          current := ExecuteAction(a, current);
      }
      assert steps[i..][1..] == steps[i + 1..];
      i := i + 1;
    }
    r := current;
    processed := i;
    RunChainIdentity(steps, state);
  }

  /** The map a card's effects leave: every chain in order, each on the
      previous one's result; a chain's short-circuit stays in that chain. */
  function RunEffects(effects: seq<CardEffect>, state: ZoneCounts): ZoneCounts
    decreases |effects|
  {
    if effects == [] then state
    else RunEffects(effects[1..], RunChain(effects[0].effects, state))
  }

  /** A card's effects return a map equal to their input. */
  lemma {:induction false} RunEffectsIdentity(effects: seq<CardEffect>, state: ZoneCounts)
    ensures RunEffects(effects, state) == state
    decreases |effects|
  {
    if effects != [] {
      RunChainIdentity(effects[0].effects, state);
      RunEffectsIdentity(effects[1..], state);
    }
  }

  /** A card built without effects leaves any map as it was. */
  lemma NoEffectsKeepState(id: int, name: string, meaning: string, story: string,
                           cardType: CardType, effectDescription: string, state: ZoneCounts)
    ensures RunEffects(NewCard(id, name, meaning, story, cardType, effectDescription, None).effects, state) == state
  {
  }

  /** Runs every effect chain of the card, in order, on (a copy of) the map. */
  method ExecuteEffects(card: Card, state: ZoneCounts) returns (r: ZoneCounts)
    ensures r == RunEffects(card.effects, state)
    ensures r == state
  {
    var current := state;
    var i := 0;
    while i < |card.effects|
      invariant 0 <= i <= |card.effects|
      invariant RunEffects(card.effects[i..], current) == RunEffects(card.effects, state)
    {
      assert card.effects[i..][1..] == card.effects[i + 1..];
      ghost var steps;
      current, steps := ExecuteChain(card.effects[i], current);
      i := i + 1;
    }
    r := current;
    RunEffectsIdentity(card.effects, state);
  }
}
