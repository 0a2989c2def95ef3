// Value records of the ReAct merchant (src/game/npc/merchant/react/models.py).
module Models {

  datatype Action = Action(name: string, description: string)

  /** A named intent with example utterances.  The source overrides
      equality and hashing so that only the name matters. */
  datatype FewShotIntent = FewShotIntent(name: string, examples: seq<string>)

  /** The right-hand operand of `==`: another intent, or a value of any
      other Python type (described only by its rendering). */
  datatype Operand = AnIntent(intent: FewShotIntent) | OtherValue(repr: string)

  /** `FewShotIntent.__eq__`. */
  function IntentEquals(self: FewShotIntent, other: Operand): (eq: bool)
    ensures eq ==> other.AnIntent?
    ensures other.AnIntent? ==> (eq <==> other.intent.name == self.name)
  {
    match other
    case AnIntent(o) => self.name == o.name
    case OtherValue(_) => false
  }

  /** `FewShotIntent.__hash__`: the hash of the name, for whatever string
      hash `strHash` the interpreter uses. */
  function IntentHash(self: FewShotIntent, strHash: string -> int): (h: int)
    ensures forall o: FewShotIntent :: IntentEquals(self, AnIntent(o)) ==> h == strHash(o.name)
  {
    strHash(self.name)
  }

  /** Equality ignores the examples and is false against other types. */
  lemma IntentEqualityByName(a: FewShotIntent, b: FewShotIntent, x: string)
    ensures IntentEquals(a, AnIntent(b)) <==> a.name == b.name
    ensures !IntentEquals(a, OtherValue(x))
    ensures IntentEquals(a, AnIntent(FewShotIntent(a.name, b.examples)))
  {
  }

  /** `__eq__` is an equivalence on intents, and `__hash__` agrees with it,
      as Python's set and dict require. */
  lemma IntentEqualityIsEquivalence(a: FewShotIntent, b: FewShotIntent, c: FewShotIntent, h: string -> int)
    ensures IntentEquals(a, AnIntent(a))
    ensures IntentEquals(a, AnIntent(b)) ==> IntentEquals(b, AnIntent(a))
    ensures IntentEquals(a, AnIntent(b)) && IntentEquals(b, AnIntent(c)) ==> IntentEquals(a, AnIntent(c))
    ensures IntentEquals(a, AnIntent(b)) ==> IntentHash(a, h) == IntentHash(b, h)
  {
  }

  datatype State = State(name: string, traitDescription: string, availableActions: seq<Action>)

  datatype StateTransition = StateTransition(source: State, destination: State, conditions: seq<FewShotIntent>)

  datatype NpcConfig = NpcConfig(states: seq<State>, transitions: seq<StateTransition>)
}
