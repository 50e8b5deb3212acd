/**
 * The `EntityType` enum generated by the Thrift compiler
 * (java/src/streamcorpus/EntityType.java): seventeen canonical entity
 * types, each carrying the integer it was declared with in the Thrift IDL.
 */
module EntityTypes {
  import opened Wrappers

  /** Java's `int`. */
  newtype int32 = x: int | -0x8000_0000 <= x < 0x8000_0000

  datatype EntityType =
    | PER
    | ORG
    | LOC             // physical location
    | MALE_PRONOUN
    | FEMALE_PRONOUN
    | TIME
    | DATE
    | MONEY
    | PERCENT
    | MISC            // uncategorized named entities
    | GPE
    | FAC
    | VEH
    | WEA
    | phone
    | email
    | URL

  /** The constants in declaration order. */
  const Declared: seq<EntityType> :=
    [PER, ORG, LOC, MALE_PRONOUN, FEMALE_PRONOUN, TIME, DATE, MONEY, PERCENT,
     MISC, GPE, FAC, VEH, WEA, phone, email, URL]

  /** `getValue()`: the value a constant was declared with, which is its position in the declaration. */
  function GetValue(e: EntityType): (v: int32)
    ensures 0 <= v < |Declared| as int32
    ensures Declared[v] == e
  {
    match e
    case PER => 0
    case ORG => 1
    case LOC => 2
    case MALE_PRONOUN => 3
    case FEMALE_PRONOUN => 4
    case TIME => 5
    case DATE => 6
    case MONEY => 7
    case PERCENT => 8
    case MISC => 9
    case GPE => 10
    case FAC => 11
    case VEH => 12
    case WEA => 13
    case phone => 14
    case email => 15
    case URL => 16
  }

  /** `findByValue(value)`: the constant declared with `value`, or None (Java's null). */
  function FindByValue(value: int32): (r: Option<EntityType>)
    ensures r.Some? <==> 0 <= value < |Declared| as int32
    ensures r.Some? ==> r.value == Declared[value]
  {
    match value
    case 0 => Some(PER)
    case 1 => Some(ORG)
    case 2 => Some(LOC)
    case 3 => Some(MALE_PRONOUN)
    case 4 => Some(FEMALE_PRONOUN)
    case 5 => Some(TIME)
    case 6 => Some(DATE)
    case 7 => Some(MONEY)
    case 8 => Some(PERCENT)
    case 9 => Some(MISC)
    case 10 => Some(GPE)
    case 11 => Some(FAC)
    case 12 => Some(VEH)
    case 13 => Some(WEA)
    case 14 => Some(phone)
    case 15 => Some(email)
    case 16 => Some(URL)
    case _ => None
  }

  /** The declaration lists every constant exactly once, so position is a faithful value. */
  lemma DeclarationIsComplete(e: EntityType)
    ensures e in Declared
    ensures forall i, j :: 0 <= i < j < |Declared| ==> Declared[i] != Declared[j]
  {
  }

  /** `findByValue` is the exact inverse of `getValue`, in both directions. */
  lemma FindByValueInvertsGetValue(value: int32, e: EntityType)
    ensures FindByValue(value) == Some(e) <==> GetValue(e) == value
  {
  }

  lemma GetValueInjective(a: EntityType, b: EntityType)
    ensures GetValue(a) == GetValue(b) ==> a == b
  {
  }

  lemma FindByValueNullOutsideRange(value: int32)
    requires value < 0 || value > 16
    ensures FindByValue(value) == None
  {
  }
}
