/** `TradingInstruction`: an immutable, validated buy/sell instruction. It is
    built all-or-nothing from a builder whose eight inputs are checked in a fixed
    order; the stored settlement date is the requested one moved to the first
    business day of the currency's weekend policy, and the trade amount is
    price per unit times agreed FX rate times number of units. */
module TradingInstruction {
  import opened Wrappers
  import opened Weekend
  import opened DateUtil

  /** The traded entity (the enum values the tests use). */
  datatype EntityType = Oil | Gold | Currency

  datatype Direction = Buy | Sell

  /** Java's `int`. */
  type Int32 = x: int | -0x8000_0000 <= x < 0x8000_0000

  /** A built instruction. `BigDecimal` amounts are exact reals, dates are
      epoch days, and `settlementDate` is already the adjusted date. */
  datatype Instruction = Instruction(
    entityType: EntityType,
    direction: Direction,
    agreedFxRate: real,
    currency: string,
    instructionDate: LocalDate,
    settlementDate: LocalDate,
    numberOfUnits: Int32,
    pricePerUnit: real)

  /** The builder's captured inputs. Reference-typed inputs may be null
      (`None`); the number of units is a primitive `int` that stays 0 when it
      is never set. */
  datatype Builder = Builder(
    entityType: Option<EntityType>,
    direction: Option<Direction>,
    agreedFxRate: Option<real>,
    currency: Option<string>,
    instructionDate: Option<LocalDate>,
    settlementDate: Option<LocalDate>,
    numberOfUnits: Int32,
    pricePerUnit: Option<real>)

  /** `Builder.newBuilder()`: nothing set yet. */
  function NewBuilder(): Builder {
    Builder(None, None, None, None, None, None, 0, None)
  }

  /** The builder input a failed check is about. */
  datatype Field =
    | EntityTypeField | DirectionField | AgreedFxRateField | CurrencyField
    | InstructionDateField | SettlementDateField | NumberOfUnitsField | PricePerUnitField

  /** `checkNotNull` failures are `MissingField`; `checkState` failures on a
      number that must be greater than zero are `NotPositive`;
      `SettlementDateOutOfRange` is the date adjustment stepping past
      `LocalDate.MAX`. */
  datatype BuildError = MissingField(field: Field) | NotPositive(field: Field) | SettlementDateOutOfRange

  /** The checks construction performs. */
  datatype Check =
    | EntityTypeGiven | DirectionGiven | FxRateGiven | FxRatePositive | CurrencyGiven
    | InstructionDateGiven | SettlementDateGiven | UnitsPositive | PriceGiven | PricePositive

  /** The order in which construction performs its checks. */
  const CheckOrder: seq<Check> := [
    EntityTypeGiven, DirectionGiven, FxRateGiven, FxRatePositive, CurrencyGiven,
    InstructionDateGiven, SettlementDateGiven, UnitsPositive, PriceGiven, PricePositive
  ]

  /** Whether a builder passes one check. */
  predicate Passes(b: Builder, c: Check) {
    match c
    case EntityTypeGiven => b.entityType.Some?
    case DirectionGiven => b.direction.Some?
    case FxRateGiven => b.agreedFxRate.Some?
    case FxRatePositive => b.agreedFxRate.Some? && b.agreedFxRate.value > 0.0
    case CurrencyGiven => b.currency.Some?
    case InstructionDateGiven => b.instructionDate.Some?
    case SettlementDateGiven => b.settlementDate.Some?
    case UnitsPositive => b.numberOfUnits > 0
    case PriceGiven => b.pricePerUnit.Some?
    case PricePositive => b.pricePerUnit.Some? && b.pricePerUnit.value > 0.0
  }

  /** The error a failed check aborts construction with. */
  function Reported(c: Check): BuildError {
    match c
    case EntityTypeGiven => MissingField(EntityTypeField)
    case DirectionGiven => MissingField(DirectionField)
    case FxRateGiven => MissingField(AgreedFxRateField)
    case FxRatePositive => NotPositive(AgreedFxRateField)
    case CurrencyGiven => MissingField(CurrencyField)
    case InstructionDateGiven => MissingField(InstructionDateField)
    case SettlementDateGiven => MissingField(SettlementDateField)
    case UnitsPositive => NotPositive(NumberOfUnitsField)
    case PriceGiven => MissingField(PricePerUnitField)
    case PricePositive => NotPositive(PricePerUnitField)
  }

  /** The first check of `cs` that `b` fails, if any. */
  function FirstFailing(b: Builder, cs: seq<Check>): (r: Option<Check>)
    ensures r.None? <==> forall k :: 0 <= k < |cs| ==> Passes(b, cs[k])
    ensures r.Some? ==>
              exists k :: && 0 <= k < |cs| && cs[k] == r.value && !Passes(b, cs[k])
                          && forall j :: 0 <= j < k ==> Passes(b, cs[j])
  {
    if |cs| == 0 then None
    else if !Passes(b, cs[0]) then Some(cs[0])
    else
      var r := FirstFailing(b, cs[1..]);
      if r.Some? then
        var k :| && 0 <= k < |cs[1..]| && cs[1..][k] == r.value && !Passes(b, cs[1..][k])
                 && forall j :: 0 <= j < k ==> Passes(b, cs[1..][j]);
        assert cs[k + 1] == r.value && !Passes(b, cs[k + 1]);
        assert forall j :: 0 <= j < k + 1 ==> Passes(b, cs[j]) by {
          forall j | 0 <= j < k + 1 ensures Passes(b, cs[j]) {
            if j > 0 {
              assert cs[j] == cs[1..][j - 1];
            }
          }
        }
        r
      else
        assert forall k :: 0 <= k < |cs| ==> Passes(b, cs[k]) by {
          forall k | 0 <= k < |cs| ensures Passes(b, cs[k]) {
            if k > 0 {
              assert cs[k] == cs[1..][k - 1];
            }
          }
        }
        r
  }

  /** The first failing check is determined by position: a check that fails
      after all earlier ones passed is the one reported. */
  lemma FirstFailingAt(b: Builder, cs: seq<Check>, k: int)
    requires 0 <= k < |cs| && !Passes(b, cs[k])
    requires forall c :: c in cs[..k] ==> Passes(b, c)
    ensures FirstFailing(b, cs) == Some(cs[k])
  {
    assert forall j :: 0 <= j < k ==> cs[j] in cs[..k];
    var r := FirstFailing(b, cs);
    var k' :| && 0 <= k' < |cs| && cs[k'] == r.value && !Passes(b, cs[k'])
              && forall j :: 0 <= j < k' ==> Passes(b, cs[j]);
    assert k' == k;
  }

  /** ASCII upper-casing of one character. */
  function UpperAscii(c: char): char {
    if 'a' <= c <= 'z' then (c as int - 32) as char else c
  }

  /** ASCII upper-casing of a string. */
  function ToUpperAscii(s: string): (u: string)
    ensures |u| == |s|
    ensures forall i :: 0 <= i < |s| ==> u[i] == UpperAscii(s[i])
  {
    seq(|s|, i requires 0 <= i < |s| => UpperAscii(s[i]))
  }

  /** `String.equalsIgnoreCase`, restricted to ASCII case folding: equal length
      and every pair of characters equal once upper-cased. */
  predicate EqualsIgnoreCase(a: string, b: string) {
    |a| == |b| && forall i :: 0 <= i < |a| ==> UpperAscii(a[i]) == UpperAscii(b[i])
  }

  /** Two strings are equal ignoring case exactly when their upper-cased forms
      are equal. */
  lemma EqualsIgnoreCaseIffSameUpperCase(a: string, b: string)
    ensures EqualsIgnoreCase(a, b) <==> ToUpperAscii(a) == ToUpperAscii(b)
  {
    if ToUpperAscii(a) == ToUpperAscii(b) {
      forall i | 0 <= i < |a| ensures UpperAscii(a[i]) == UpperAscii(b[i]) {
        assert ToUpperAscii(a)[i] == ToUpperAscii(b)[i];
      }
    }
  }

  /** The weekend policy of a settlement currency: AED and SAR (in any letter
      case) settle around a Friday/Saturday weekend, every other currency
      around a Saturday/Sunday weekend. */
  function PolicyFor(currency: string): (p: Policy)
    ensures p == FriSat <==> ToUpperAscii(currency) == "AED" || ToUpperAscii(currency) == "SAR"
  {
    EqualsIgnoreCaseIffSameUpperCase(currency, "AED");
    EqualsIgnoreCaseIffSameUpperCase(currency, "SAR");
    assert ToUpperAscii("AED") == "AED";
    assert ToUpperAscii("SAR") == "SAR";
    if EqualsIgnoreCase(currency, "AED") || EqualsIgnoreCase(currency, "SAR") then FriSat else SatSun
  }

  /** The invariants every built instruction satisfies. */
  ghost predicate Valid(i: Instruction) {
    && i.agreedFxRate > 0.0
    && i.numberOfUnits > 0
    && i.pricePerUnit > 0.0
    && !IsDayFallingOnWeekend(PolicyFor(i.currency), i.settlementDate)
  }

  /** `i` holds the builder's inputs, with the settlement date moved to the
      first business day on or after the requested one. */
  ghost predicate Captures(b: Builder, i: Instruction) {
    && b.entityType == Some(i.entityType)
    && b.direction == Some(i.direction)
    && b.agreedFxRate == Some(i.agreedFxRate)
    && b.currency == Some(i.currency)
    && b.instructionDate == Some(i.instructionDate)
    && b.settlementDate.Some?
    && IsFirstBusinessDayFrom(PolicyFor(i.currency), b.settlementDate.value, i.settlementDate)
    && b.numberOfUnits == i.numberOfUnits
    && b.pricePerUnit == Some(i.pricePerUnit)
  }

  /** `Builder.build()`: the private constructor's checks, in source order;
      the first that fails aborts construction. Once all pass, the settlement
      date is adjusted, which fails only past `LocalDate.MAX`. */
  function Build(b: Builder): (r: Result<Instruction, BuildError>)
    ensures r.Success? <==>
              && FirstFailing(b, CheckOrder).None?
              && b.currency.Some? && b.settlementDate.Some?
              && NextAllowableDate(b.settlementDate.value, PolicyFor(b.currency.value)) <= LocalDateMax
    ensures r.Failure? && FirstFailing(b, CheckOrder).Some? ==>
              r.error == Reported(FirstFailing(b, CheckOrder).value)
    ensures r.Failure? && FirstFailing(b, CheckOrder).None? ==>
              && r.error == SettlementDateOutOfRange
              && b.currency.Some? && b.settlementDate.Some?
              && b.settlementDate.value == LocalDateMax && PolicyFor(b.currency.value) == FriSat
    ensures r.Success? ==> Valid(r.value) && Captures(b, r.value)
  {
    if b.entityType.None? then
      FirstFailingAt(b, CheckOrder, 0); Failure(MissingField(EntityTypeField))
    else if b.direction.None? then
      FirstFailingAt(b, CheckOrder, 1); Failure(MissingField(DirectionField))
    else if b.agreedFxRate.None? then
      FirstFailingAt(b, CheckOrder, 2); Failure(MissingField(AgreedFxRateField))
    else if b.agreedFxRate.value <= 0.0 then
      FirstFailingAt(b, CheckOrder, 3); Failure(NotPositive(AgreedFxRateField))
    else if b.currency.None? then
      FirstFailingAt(b, CheckOrder, 4); Failure(MissingField(CurrencyField))
    else if b.instructionDate.None? then
      FirstFailingAt(b, CheckOrder, 5); Failure(MissingField(InstructionDateField))
    else if b.settlementDate.None? then
      FirstFailingAt(b, CheckOrder, 6); Failure(MissingField(SettlementDateField))
    else if b.numberOfUnits <= 0 then
      FirstFailingAt(b, CheckOrder, 7); Failure(NotPositive(NumberOfUnitsField))
    else if b.pricePerUnit.None? then
      FirstFailingAt(b, CheckOrder, 8); Failure(MissingField(PricePerUnitField))
    else if b.pricePerUnit.value <= 0.0 then
      FirstFailingAt(b, CheckOrder, 9); Failure(NotPositive(PricePerUnitField))
    else
      var currency := b.currency.value;
      var settlement := NextAllowableDate(b.settlementDate.value, PolicyFor(currency));
      NextAllowableDateInRange(PolicyFor(currency), b.settlementDate.value);
      if settlement > LocalDateMax then Failure(SettlementDateOutOfRange)
      else Success(Instruction(
        b.entityType.value,
        b.direction.value,
        b.agreedFxRate.value,
        currency,
        b.instructionDate.value,
        settlement,
        b.numberOfUnits,
        b.pricePerUnit.value))
  }

  /** A builder loaded with the fields of an instruction. */
  function ToBuilder(i: Instruction): Builder {
    Builder(Some(i.entityType), Some(i.direction), Some(i.agreedFxRate), Some(i.currency),
            Some(i.instructionDate), Some(i.settlementDate), i.numberOfUnits, Some(i.pricePerUnit))
  }

  /** Exactly the valid instructions are buildable: rebuilding a valid
      instruction from its own fields yields it again, and whatever a builder
      produces is valid. */
  lemma {:induction false} RebuildRoundTrip(i: Instruction)
    ensures Valid(i) <==> Build(ToBuilder(i)) == Success(i)
  {
    if Valid(i) {
      BusinessDayUnchanged(PolicyFor(i.currency), i.settlementDate);
    }
  }

  /** Every null input makes construction fail, whatever the other inputs. */
  lemma BuildRejectsMissingInputs(b: Builder)
    ensures b.entityType.None? ==> Build(b) == Failure(MissingField(EntityTypeField))
    ensures (|| b.direction.None? || b.agreedFxRate.None? || b.currency.None?
             || b.instructionDate.None? || b.settlementDate.None? || b.pricePerUnit.None?)
            ==> Build(b).Failure?
  {
  }

  /** A rate, price or unit count that is zero or negative makes construction
      fail; zero units are rejected, not only negative ones. */
  lemma BuildRejectsNonPositive(b: Builder)
    ensures b.agreedFxRate.Some? && b.agreedFxRate.value <= 0.0 ==> Build(b).Failure?
    ensures b.numberOfUnits <= 0 ==> Build(b).Failure?
    ensures b.pricePerUnit.Some? && b.pricePerUnit.value <= 0.0 ==> Build(b).Failure?
  {
  }

  /** `determineTradeAmount`: the USD-equivalent value of the trade,
      exactly price per unit times agreed FX rate times number of units. */
  function TradeAmount(i: Instruction): (amount: real)
    ensures i.agreedFxRate > 0.0 && i.pricePerUnit > 0.0 && i.numberOfUnits > 0 ==> amount > 0.0
  {
    i.pricePerUnit * i.agreedFxRate * (i.numberOfUnits as real)
  }

  /** The amount is exact and linear in the number of units: splitting a trade
      into two trades of `m` and `n` units splits its amount without loss. */
  lemma TradeAmountSplits(i: Instruction, m: Int32, n: Int32)
    requires i.numberOfUnits as int == m as int + n as int
    ensures TradeAmount(i) == TradeAmount(i.(numberOfUnits := m)) + TradeAmount(i.(numberOfUnits := n))
  {
  }

  /** Java `int` arithmetic: reduce to the 32-bit two's-complement range. */
  function Wrap32(x: int): (r: Int32)
    ensures (r - x) % 0x1_0000_0000 == 0
  {
    var m := x % 0x1_0000_0000;
    if m < 0x8000_0000 then m else m - 0x1_0000_0000
  }

  /** `Arrays.hashCode` over field hashes: start from 1, then `31 * h + e` per
      element, in `int` arithmetic. */
  function CombineHashes(hs: seq<Int32>): Int32 {
    if |hs| == 0 then 1 else Wrap32(31 * CombineHashes(hs[..|hs| - 1]) + hs[|hs| - 1])
  }

  function EntityTypeHash(e: EntityType): Int32 {
    match e
    case Oil => 0
    case Gold => 1
    case Currency => 2
  }

  function DirectionHash(d: Direction): Int32 {
    match d
    case Buy => 0
    case Sell => 1
  }

  /** `String.hashCode`'s recurrence `31 * h + c` in `int` arithmetic, here
      over Unicode scalar values; Java runs it over UTF-16 code units, so the
      two differ for strings with characters above U+FFFF. */
  function StringHash(s: string): Int32 {
    if |s| == 0 then 0 else Wrap32(31 * StringHash(s[..|s| - 1]) + s[|s| - 1] as int)
  }

  function DecimalHash(x: real): Int32 {
    Wrap32(x.Floor)
  }

  function DateHash(d: Date): Int32 {
    Wrap32(d)
  }

  /** `hashCode`: `Objects.hashCode` over the eight fields. */
  function HashCode(i: Instruction): Int32 {
    CombineHashes([
      EntityTypeHash(i.entityType), DirectionHash(i.direction), DecimalHash(i.agreedFxRate),
      StringHash(i.currency), DateHash(i.instructionDate), DateHash(i.settlementDate),
      i.numberOfUnits, DecimalHash(i.pricePerUnit)])
  }

  /** `equals`: the eight field comparisons, in source order. Units, entity
      type and direction compare by value; the rest through `Objects.equal`,
      which for non-null fields is their own `equals`. */
  predicate Equals(a: Instruction, b: Instruction) {
    && a.numberOfUnits == b.numberOfUnits
    && a.entityType == b.entityType
    && a.direction == b.direction
    && a.agreedFxRate == b.agreedFxRate
    && a.currency == b.currency
    && a.instructionDate == b.instructionDate
    && a.settlementDate == b.settlementDate
    && a.pricePerUnit == b.pricePerUnit
  }

  /** `equals` is value equality of instructions, and `hashCode` is consistent
      with it: instructions that are `equals` have equal hash codes. */
  lemma StructuralEquality(a: Instruction, b: Instruction)
    ensures Equals(a, b) <==> a == b
    ensures Equals(a, b) ==> HashCode(a) == HashCode(b)
  {
  }

  /** The tests' happy-path builder: 10 units of OIL bought at 48 per unit, FX
      rate 0.50, in GBP, instructed and settling on `today`. */
  function HappyPath(today: LocalDate): Builder {
    Builder(Some(Oil), Some(Buy), Some(0.5), Some("GBP"), Some(today), Some(today), 10, Some(48.0))
  }

  /** The construction outcomes the unit tests expect. */
  lemma BuildTestCases(today: LocalDate)
    ensures Build(HappyPath(today)).Success?
    ensures Build(HappyPath(today).(entityType := None)) == Failure(MissingField(EntityTypeField))
    ensures Build(HappyPath(today).(direction := None)) == Failure(MissingField(DirectionField))
    ensures Build(HappyPath(today).(agreedFxRate := Some(0.0))) == Failure(NotPositive(AgreedFxRateField))
    ensures Build(HappyPath(today).(agreedFxRate := Some(-1.0))) == Failure(NotPositive(AgreedFxRateField))
    ensures Build(HappyPath(today).(instructionDate := None)) == Failure(MissingField(InstructionDateField))
    ensures Build(HappyPath(today).(settlementDate := None)) == Failure(MissingField(SettlementDateField))
    ensures Build(HappyPath(today).(numberOfUnits := -1)) == Failure(NotPositive(NumberOfUnitsField))
    ensures Build(HappyPath(today).(numberOfUnits := 0)) == Failure(NotPositive(NumberOfUnitsField))
    ensures Build(HappyPath(today).(pricePerUnit := None)) == Failure(MissingField(PricePerUnitField))
    ensures Build(HappyPath(today).(pricePerUnit := Some(0.0))) == Failure(NotPositive(PricePerUnitField))
    ensures Build(HappyPath(today).(pricePerUnit := Some(-1.0))) == Failure(NotPositive(PricePerUnitField))
    ensures TradeAmount(Build(HappyPath(today)).value) == 240.0
  {
    assert ToUpperAscii("GBP") == "GBP";
    NextAllowableDateInRange(SatSun, today);
  }

  /** At `LocalDate.MAX`, a Friday, an AED trade cannot be built because its
      settlement date would move past the last representable date; a USD trade
      keeps that Friday. */
  lemma BuildAtLocalDateMax(today: LocalDate)
    ensures Build(HappyPath(today).(settlementDate := Some(LocalDateMax), currency := Some("AED")))
            == Failure(SettlementDateOutOfRange)
    ensures var r := Build(HappyPath(today).(settlementDate := Some(LocalDateMax), currency := Some("USD")));
            r.Success? && r.value.settlementDate == LocalDateMax
  {
    assert ToUpperAscii("AED") == "AED";
    assert ToUpperAscii("USD") == "USD";
    NextAllowableDateInRange(FriSat, LocalDateMax);
    NextAllowableDateInRange(SatSun, LocalDateMax);
    LocalDateMaxIsFriday();
    SatSunShifts(LocalDateMax);
  }

  /** The settlement dates the unit tests expect: USD moves a Saturday or
      Sunday to Monday; SAR and AED move a Friday or Saturday to Sunday. */
  lemma SettlementDateTestCases(today: LocalDate)
    ensures Build(HappyPath(today).(settlementDate := Some(August13th2017), currency := Some("USD"))).value.settlementDate == August14th2017
    ensures Build(HappyPath(today).(settlementDate := Some(August12th2017), currency := Some("USD"))).value.settlementDate == August14th2017
    ensures Build(HappyPath(today).(settlementDate := Some(August11th2017), currency := Some("SAR"))).value.settlementDate == August13th2017
    ensures Build(HappyPath(today).(settlementDate := Some(August12th2017), currency := Some("SAR"))).value.settlementDate == August13th2017
    ensures Build(HappyPath(today).(settlementDate := Some(August11th2017), currency := Some("AED"))).value.settlementDate == August13th2017
    ensures Build(HappyPath(today).(settlementDate := Some(August12th2017), currency := Some("AED"))).value.settlementDate == August13th2017
  {
    TestDateExamples();
    assert ToUpperAscii("USD") == "USD";
    assert ToUpperAscii("SAR") == "SAR";
    assert ToUpperAscii("AED") == "AED";
  }

  /** Currency matching ignores letter case and has no other special cases. */
  lemma PolicyForExamples()
    ensures PolicyFor("AED") == FriSat && PolicyFor("aed") == FriSat && PolicyFor("Aed") == FriSat
    ensures PolicyFor("SAR") == FriSat && PolicyFor("sar") == FriSat
    ensures PolicyFor("USD") == SatSun && PolicyFor("GBP") == SatSun
  {
    assert ToUpperAscii("AED") == "AED";
    assert ToUpperAscii("aed") == "AED";
    assert ToUpperAscii("Aed") == "AED";
    assert ToUpperAscii("SAR") == "SAR";
    assert ToUpperAscii("sar") == "SAR";
    assert ToUpperAscii("USD") == "USD";
    assert ToUpperAscii("GBP") == "GBP";
  }
}
