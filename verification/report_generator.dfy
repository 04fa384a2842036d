/** `ReportGenerator`: reports over a fixed list of trading instructions for
    one settlement date. Incoming trades are sells and outgoing trades are buys;
    each side has a total of trade amounts and a ranking by trade amount. */
module ReportGenerator {
  import opened Wrappers
  import opened DateUtil
  import opened TradingInstruction

  /** A generator holds the instruction list it was built with; queries only
      read it. */
  datatype Generator = Generator(instructions: seq<Instruction>)

  /** The argument `checkNotNull` rejected. */
  datatype ReportError = NullInstructionList | NullSettledDate

  /** `ReportGenerator.of`: a null list is rejected, an empty one accepted. */
  function Of(instructions: Option<seq<Instruction>>): (r: Result<Generator, ReportError>)
    ensures r.Failure? <==> instructions.None?
    ensures r.Failure? ==> r.error == NullInstructionList
    ensures r.Success? ==> r.value.instructions == instructions.value
  {
    if instructions.None? then Failure(NullInstructionList) else Success(Generator(instructions.value))
  }

  /** The report's selection: trades in direction `dir` settling on `date`. */
  predicate Matches(i: Instruction, date: Date, dir: Direction) {
    i.direction == dir && i.settlementDate == date
  }

  /** The first `filter` stage: same direction. */
  function ByDirection(dir: Direction): Instruction -> bool {
    (i: Instruction) => i.direction == dir
  }

  /** The second `filter` stage: settlement date equal to the query date. */
  function SettledOn(date: Date): Instruction -> bool {
    (i: Instruction) => i.settlementDate == date
  }

  /** `Stream.filter`: keeps, in order, the elements `keep` accepts, each as
      often as it occurs. */
  function Filter(s: seq<Instruction>, keep: Instruction -> bool): (r: seq<Instruction>)
    ensures |r| <= |s|
    ensures forall x :: x in r ==> keep(x)
    ensures forall x :: multiset(r)[x] == if keep(x) then multiset(s)[x] else 0
  {
    if |s| == 0 then []
    else
      assert s == [s[0]] + s[1..];
      if keep(s[0]) then [s[0]] + Filter(s[1..], keep) else Filter(s[1..], keep)
  }

  /** `Stream.map(determineTradeAmount)`. */
  function Amounts(s: seq<Instruction>): (r: seq<real>)
    ensures |r| == |s|
    ensures forall k :: 0 <= k < |s| ==> r[k] == TradeAmount(s[k])
  {
    if |s| == 0 then [] else [TradeAmount(s[0])] + Amounts(s[1..])
  }

  /** Left fold with `BigDecimal::add`, starting from `acc`. */
  function FoldAdd(acc: real, xs: seq<real>): real
    decreases |xs|
  {
    if |xs| == 0 then acc else FoldAdd(acc + xs[0], xs[1..])
  }

  /** `Stream.reduce(BigDecimal::add)`: empty for an empty stream, otherwise
      the left fold starting from the first element. */
  function ReduceAdd(xs: seq<real>): Option<real> {
    if |xs| == 0 then None else Some(FoldAdd(xs[0], xs[1..]))
  }

  /** The sum of the trade amounts of a list. */
  function SumAmounts(s: seq<Instruction>): real {
    if |s| == 0 then 0.0 else TradeAmount(s[0]) + SumAmounts(s[1..])
  }

  /** Reference definition of a report total: the trade amounts of exactly the
      matching instructions, added up. */
  function MatchingTotal(s: seq<Instruction>, date: Date, dir: Direction): real {
    if |s| == 0 then 0.0
    else (if Matches(s[0], date, dir) then TradeAmount(s[0]) else 0.0) + MatchingTotal(s[1..], date, dir)
  }

  /** Folding trade amounts onto `acc` adds their sum to it. */
  lemma {:induction false} FoldAddAmounts(acc: real, s: seq<Instruction>)
    ensures FoldAdd(acc, Amounts(s)) == acc + SumAmounts(s)
    decreases |s|
  {
    if |s| > 0 {
      assert Amounts(s)[1..] == Amounts(s[1..]);
      FoldAddAmounts(acc + TradeAmount(s[0]), s[1..]);
    }
  }

  /** `reduce(add).orElse(ZERO)` over the trade amounts is their sum. */
  lemma ReduceAddOrZero(s: seq<Instruction>)
    ensures ReduceAdd(Amounts(s)).GetOr(0.0) == SumAmounts(s)
  {
    if |s| > 0 {
      assert Amounts(s)[1..] == Amounts(s[1..]);
      FoldAddAmounts(TradeAmount(s[0]), s[1..]);
    }
  }

  /** Filtering by direction and then by date, and summing, gives the total
      of the matching instructions. */
  lemma {:induction false} FilteredSumIsMatchingTotal(s: seq<Instruction>, date: Date, dir: Direction)
    ensures SumAmounts(Filter(Filter(s, ByDirection(dir)), SettledOn(date))) == MatchingTotal(s, date, dir)
  {
    if |s| > 0 {
      FilteredSumIsMatchingTotal(s[1..], date, dir);
      var f1 := Filter(s, ByDirection(dir));
      if ByDirection(dir)(s[0]) {
        assert f1 == [s[0]] + Filter(s[1..], ByDirection(dir));
        assert f1[1..] == Filter(s[1..], ByDirection(dir));
      }
    }
  }

  /** `calculateTotal`: a null date is rejected; otherwise the sum of the trade
      amounts of the instructions in direction `dir` settling on the date, zero
      when none does. */
  function CalculateTotal(g: Generator, settledDate: Option<LocalDate>, dir: Direction): (r: Result<real, ReportError>)
    ensures r.Failure? <==> settledDate.None?
    ensures r.Failure? ==> r.error == NullSettledDate
    ensures r.Success? ==> r.value == MatchingTotal(g.instructions, settledDate.value, dir)
  {
    if settledDate.None? then Failure(NullSettledDate)
    else
      var matching := Filter(Filter(g.instructions, ByDirection(dir)), SettledOn(settledDate.value));
      ReduceAddOrZero(matching);
      FilteredSumIsMatchingTotal(g.instructions, settledDate.value, dir);
      Success(ReduceAdd(Amounts(matching)).GetOr(0.0))
  }

  /** `calculateTotalOfIncomingTransactions`: the total for sells. */
  function CalculateTotalOfIncomingTransactions(g: Generator, settledDate: Option<LocalDate>): (r: Result<real, ReportError>)
    ensures r == CalculateTotal(g, settledDate, Sell)
    ensures r.Success? ==> r.value == MatchingTotal(g.instructions, settledDate.value, Sell)
  {
    CalculateTotal(g, settledDate, Sell)
  }

  /** `calculateTotalOfOutgoingTransactions`: the total for buys. */
  function CalculateTotalOfOutgoingTransactions(g: Generator, settledDate: Option<LocalDate>): (r: Result<real, ReportError>)
    ensures r == CalculateTotal(g, settledDate, Buy)
    ensures r.Success? ==> r.value == MatchingTotal(g.instructions, settledDate.value, Buy)
  {
    CalculateTotal(g, settledDate, Buy)
  }

  /** Ascending order of trade amount. */
  ghost predicate SortedByAmount(s: seq<Instruction>) {
    forall i, j :: 0 <= i < j < |s| ==> TradeAmount(s[i]) <= TradeAmount(s[j])
  }

  /** Inserts `x` into a sorted list, ahead of the first element whose amount
      is not smaller, so equal amounts keep their encounter order. */
  function Insert(x: Instruction, s: seq<Instruction>): (r: seq<Instruction>)
    requires SortedByAmount(s)
    ensures SortedByAmount(r)
    ensures multiset(r) == multiset(s) + multiset{x}
  {
    if |s| == 0 then [x]
    else if TradeAmount(x) <= TradeAmount(s[0]) then [x] + s
    else
      assert s == [s[0]] + s[1..];
      var rest := Insert(x, s[1..]);
      forall y | y in rest
        ensures TradeAmount(s[0]) <= TradeAmount(y)
      {
        assert y in multiset(rest);
        if y != x {
          assert y in multiset(s[1..]);
          var k :| 0 <= k < |s[1..]| && s[1..][k] == y;
          assert s[k + 1] == y;
        }
      }
      PrependSorted(s[0], rest);
      [s[0]] + rest
  }

  /** An element no larger than any element of a sorted list can go in front. */
  lemma PrependSorted(y: Instruction, t: seq<Instruction>)
    requires SortedByAmount(t)
    requires forall z :: z in t ==> TradeAmount(y) <= TradeAmount(z)
    ensures SortedByAmount([y] + t)
  {
    var r := [y] + t;
    forall i, j | 0 <= i < j < |r|
      ensures TradeAmount(r[i]) <= TradeAmount(r[j])
    {
      assert r[j] == t[j - 1];
      if i > 0 {
        assert r[i] == t[i - 1];
      } else {
        assert t[j - 1] in t;
      }
    }
  }

  /** The ordering `sorted` applies: a permutation of the input in ascending
      order of trade amount. */
  function SortByAmount(s: seq<Instruction>): (r: seq<Instruction>)
    ensures SortedByAmount(r)
    ensures multiset(r) == multiset(s)
  {
    if |s| == 0 then []
    else
      assert s == [s[0]] + s[1..];
      Insert(s[0], SortByAmount(s[1..]))
  }

  /** `sort`: a null date is rejected; otherwise exactly the instructions in
      direction `dir` settling on the date, as often as they occur, in
      ascending order of trade amount. */
  function Sort(g: Generator, settledDate: Option<LocalDate>, dir: Direction): (r: Result<seq<Instruction>, ReportError>)
    ensures r.Failure? <==> settledDate.None?
    ensures r.Failure? ==> r.error == NullSettledDate
    ensures r.Success? ==> SortedByAmount(r.value)
    ensures r.Success? ==>
              forall x :: multiset(r.value)[x] ==
                          if Matches(x, settledDate.value, dir) then multiset(g.instructions)[x] else 0
    ensures r.Success? ==> forall x :: x in r.value ==> Matches(x, settledDate.value, dir)
  {
    if settledDate.None? then Failure(NullSettledDate)
    else
      var matching := Filter(Filter(g.instructions, ByDirection(dir)), SettledOn(settledDate.value));
      var sorted := SortByAmount(matching);
      assert forall x :: x in sorted ==> Matches(x, settledDate.value, dir) by {
        forall x | x in sorted ensures Matches(x, settledDate.value, dir) {
          assert x in multiset(sorted);
          assert x in matching;
          assert x in Filter(g.instructions, ByDirection(dir));
        }
      }
      Success(sorted)
  }

  /** `sortIncomingTradingByAmount`: the ranking of sells. */
  function SortIncomingTradingByAmount(g: Generator, settledDate: Option<LocalDate>): (r: Result<seq<Instruction>, ReportError>)
    ensures r == Sort(g, settledDate, Sell)
    ensures r.Success? ==> forall x :: x in r.value ==> x.direction == Sell && x.settlementDate == settledDate.value
  {
    Sort(g, settledDate, Sell)
  }

  /** `sortOutgoingTradingByAmount`: the ranking of buys. */
  function SortOutgoingTradingByAmount(g: Generator, settledDate: Option<LocalDate>): (r: Result<seq<Instruction>, ReportError>)
    ensures r == Sort(g, settledDate, Buy)
    ensures r.Success? ==> forall x :: x in r.value ==> x.direction == Buy && x.settlementDate == settledDate.value
  {
    Sort(g, settledDate, Buy)
  }

  /** Removing the element at `k` takes its amount off the sum. */
  lemma {:induction false} SumAmountsRemove(s: seq<Instruction>, k: int)
    requires 0 <= k < |s|
    ensures SumAmounts(s) == TradeAmount(s[k]) + SumAmounts(s[..k] + s[k + 1..])
  {
    if k > 0 {
      SumAmountsRemove(s[1..], k - 1);
      assert s[..k] + s[k + 1..] == [s[0]] + (s[1..][..k - 1] + s[1..][k..]);
    } else {
      assert s[..k] + s[k + 1..] == s[1..];
    }
  }

  /** The sum of trade amounts does not depend on the order of the list. */
  lemma {:induction false} SumAmountsPermutation(a: seq<Instruction>, b: seq<Instruction>)
    requires multiset(a) == multiset(b)
    ensures SumAmounts(a) == SumAmounts(b)
    decreases |a|
  {
    if |a| == 0 {
      assert |b| == |multiset(b)| == 0;
    } else {
      var x := a[0];
      assert x in multiset(b);
      var k :| 0 <= k < |b| && b[k] == x;
      var rest := b[..k] + b[k + 1..];
      assert b == b[..k] + [x] + b[k + 1..];
      assert a == [x] + a[1..];
      assert multiset(a) == multiset{x} + multiset(a[1..]);
      assert multiset(b) == multiset(b[..k]) + multiset{x} + multiset(b[k + 1..]);
      assert multiset(rest) == multiset(b[..k]) + multiset(b[k + 1..]);
      assert multiset(a[1..]) == multiset(a) - multiset{x};
      assert multiset(rest) == multiset(b) - multiset{x};
      SumAmountsPermutation(a[1..], rest);
      SumAmountsRemove(b, k);
    }
  }

  /** The ranking and the total of one side agree: the amounts of the sorted
      report add up to the total for the same date and direction. */
  lemma SortedSumEqualsTotal(g: Generator, date: LocalDate, dir: Direction)
    ensures SumAmounts(Sort(g, Some(date), dir).value) == CalculateTotal(g, Some(date), dir).value
  {
    var sorted := Sort(g, Some(date), dir).value;
    var matching := Filter(Filter(g.instructions, ByDirection(dir)), SettledOn(date));
    assert multiset(sorted) == multiset(matching);
    SumAmountsPermutation(sorted, matching);
    FilteredSumIsMatchingTotal(g.instructions, date, dir);
  }

  /** The total is zero when no instruction matches, in particular for an
      empty list or a date nothing settles on. */
  lemma {:induction false} NoMatchTotalsZero(s: seq<Instruction>, date: Date, dir: Direction)
    requires forall x :: x in s ==> !Matches(x, date, dir)
    ensures MatchingTotal(s, date, dir) == 0.0
  {
    if |s| > 0 {
      assert s[0] in s;
      NoMatchTotalsZero(s[1..], date, dir);
    }
  }

  /** Over built instructions, whose amounts are positive, the total is
      positive exactly when some instruction matches, and zero otherwise. */
  lemma {:induction false} TotalPositiveIffSomeMatch(s: seq<Instruction>, date: Date, dir: Direction)
    requires forall x :: x in s ==> Valid(x)
    ensures MatchingTotal(s, date, dir) >= 0.0
    ensures MatchingTotal(s, date, dir) > 0.0 <==> exists x :: x in s && Matches(x, date, dir)
  {
    if |s| > 0 {
      assert s[0] in s;
      assert forall x :: x in s[1..] ==> x in s;
      TotalPositiveIffSomeMatch(s[1..], date, dir);
      if exists x :: x in s && Matches(x, date, dir) {
        var x :| x in s && Matches(x, date, dir);
        assert x == s[0] || x in s[1..];
      }
    }
  }

  /** The report tests' zero cases: an empty generator, and a query date on
      which nothing settles. */
  lemma ZeroTotalCases(g: Generator, date: LocalDate)
    requires forall x :: x in g.instructions ==> x.settlementDate != date
    ensures CalculateTotalOfIncomingTransactions(Generator([]), Some(date)) == Success(0.0)
    ensures CalculateTotalOfOutgoingTransactions(Generator([]), Some(date)) == Success(0.0)
    ensures CalculateTotalOfIncomingTransactions(g, Some(date)) == Success(0.0)
    ensures CalculateTotalOfOutgoingTransactions(g, Some(date)) == Success(0.0)
    ensures Of(None) == Failure(NullInstructionList)
  {
    NoMatchTotalsZero(g.instructions, date, Sell);
    NoMatchTotalsZero(g.instructions, date, Buy);
  }
}
