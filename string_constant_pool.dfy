/**
 * The interning table of string constants (bamboo.pta.env.StringConstantPool): every
 * string literal of the analysed program is represented by exactly one constant object.
 */
module StringConstantPool {

  /** A program type, as an index into the program model's type table. */
  type Type = nat

  /** The heap object of one string literal: its type and the literal's text. */
  class StringConstant {
    const stringType: Type
    const value: string

    constructor (stringType: Type, value: string)
      ensures this.stringType == stringType && this.value == value
    {
      this.stringType := stringType;
      this.value := value;
    }
  }

  class Pool {
    /** The type `java.lang.String`, looked up once when the pool is built. */
    const stringType: Type

    /** The table from literal text to its unique constant. */
    var constants: map<string, StringConstant>

    /** Every constant of the table has the pool's string type and is keyed by its own text. */
    ghost predicate Valid()
      reads this
    {
      forall c | c in constants :: constants[c].stringType == stringType && constants[c].value == c
    }

    /** `typeByName` stands for the program manager's `getUniqueTypeByName`. */
    constructor (typeByName: string -> Type)
      ensures Valid()
      ensures stringType == typeByName("java.lang.String")
      ensures constants == map[]
    {
      stringType := typeByName("java.lang.String");
      constants := map[];
    }

    /**
     * `getStringConstant`: `computeIfAbsent` on the table. A known literal gives back its
     * constant and leaves the table alone; an unknown one gets a fresh constant, which is
     * added under its text and nothing else changes.
     */
    method GetStringConstant(c: string) returns (k: StringConstant)
      requires Valid()
      modifies this
      ensures Valid()
      ensures c in constants && k == constants[c]
      ensures k.stringType == stringType && k.value == c
      ensures constants.Keys == old(constants.Keys) + {c}
      ensures forall x | x in old(constants) :: constants[x] == old(constants[x])
      ensures old(c in constants) ==> k == old(constants[c]) && constants == old(constants)
      ensures old(c !in constants) ==> fresh(k) && constants == old(constants)[c := k]
    {
      if c in constants {
        k := constants[c];
      } else {
        k := new StringConstant(stringType, c);
        constants := constants[c := k];
      }
    }
  }

  /**
   * Interning is stable: asking twice for the same literal, with any other lookups in
   * between, gives the same object, and a lookup never disturbs another literal's entry.
   */
  method LookupIsCanonical(pool: Pool, c: string, d: string) returns (first: StringConstant, second: StringConstant)
    requires pool.Valid()
    modifies pool
    ensures pool.Valid()
    ensures first == second && first.value == c
    ensures forall x | x in old(pool.constants) :: x in pool.constants && pool.constants[x] == old(pool.constants[x])
    ensures pool.constants.Keys == old(pool.constants.Keys) + {c, d}
  {
    first := pool.GetStringConstant(c);
    var other := pool.GetStringConstant(d);
    second := pool.GetStringConstant(c);
  }
}
