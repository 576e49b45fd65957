/**
 * The instrument table and the three lookups the webhook makes in it
 * (`get_nearest_expiry_for_underlying`, `find_option_row`, `quantity_for_instrument_row`,
 * app/main.py). The table is the list of CSV rows, already read; each cell the code
 * interprets is given here in the form the code sees after its own conversions.
 */
module Instruments {
  import opened Wrappers
  import opened Text

  /** A calendar day, as a day number; the engine only compares days. */
  type Date = int

  /** STRIKE_PRICE as `int(float(cell))` sees it: no cell at all (Python `None`), a cell that
      raises on conversion (empty or not a number), or the truncated integer. */
  datatype StrikeCell = NoStrikeCell | UnparseableStrike | StrikeValue(value: int)

  /** A lot-size cell as `if row.get(k): int(row[k])` sees it: absent or empty (falsy),
      present but not an integer (raises, and is skipped), or an integer. */
  datatype LotCell = BlankLot | NonIntegerLot | IntegerLot(value: int)

  /** One CSV row. `optionType` is `""` when OPTION_TYPE is absent (the code reads it with
      `or ""`); `expiry` is SM_EXPIRY_DATE after date parsing, `None` when absent or in no
      accepted format; `lotCells` maps column names to lot-size cells. */
  datatype Row = Row(
    underlyingSymbol: Option<string>,
    optionType: string,
    strike: StrikeCell,
    expiry: Option<Date>,
    securityId: string,
    lotCells: map<string, LotCell>)

  /** Calling `.upper()` on a missing UNDERLYING_SYMBOL raises AttributeError. */
  datatype CatalogFault = UnderlyingSymbolMissing

  predicate AllUnderlyingsPresent(rows: seq<Row>) {
    forall i :: 0 <= i < |rows| ==> rows[i].underlyingSymbol.Some?
  }

  /** The name searched for occurs, ignoring case, inside the row's UNDERLYING_SYMBOL. */
  predicate UnderlyingMatches(row: Row, underlying: string)
    requires row.underlyingSymbol.Some?
  {
    Contains(Upper(row.underlyingSymbol.value), Upper(underlying))
  }

  // ---------------------------------------------------------------------------------------
  // get_nearest_expiry_for_underlying

  /** A row whose expiry takes part in the nearest-expiry search. */
  predicate ExpiryCandidate(row: Row, underlying: string, today: Date) {
    row.underlyingSymbol.Some? && UnderlyingMatches(row, underlying)
    && row.expiry.Some? && row.expiry.value >= today
  }

  /** The set the source accumulates: every candidate expiry among `rows`. */
  ghost function CandidateExpiries(rows: seq<Row>, underlying: string, today: Date): set<Date>
    decreases |rows|
  {
    if rows == [] then {}
    else
      var last := rows[|rows| - 1];
      CandidateExpiries(rows[..|rows| - 1], underlying, today)
        + (if ExpiryCandidate(last, underlying, today) then {last.expiry.value} else {})
  }

  /** The least candidate expiry, or `None` when there is none (`EarliestExpiryIsLeast`). */
  function EarliestExpiry(rows: seq<Row>, underlying: string, today: Date): Option<Date>
    decreases |rows|
  {
    if rows == [] then None
    else
      var last := rows[|rows| - 1];
      var before := EarliestExpiry(rows[..|rows| - 1], underlying, today);
      if !ExpiryCandidate(last, underlying, today) then before
      else if before.Some? && before.value <= last.expiry.value then before
      else Some(last.expiry.value)
  }

  /** There is an earliest expiry exactly when some row is a candidate; it is from today on,
      it is the expiry of a candidate row, and no candidate row expires earlier. */
  lemma {:induction false} EarliestExpiryIsLeast(rows: seq<Row>, underlying: string, today: Date)
    ensures var r := EarliestExpiry(rows, underlying, today);
      && (r.None? <==> forall i :: 0 <= i < |rows| ==> !ExpiryCandidate(rows[i], underlying, today))
      && (r.Some? ==> r.value >= today)
      && (r.Some? ==> exists i :: 0 <= i < |rows| && ExpiryCandidate(rows[i], underlying, today)
                                  && rows[i].expiry.value == r.value)
      && (r.Some? ==> forall i :: 0 <= i < |rows| && ExpiryCandidate(rows[i], underlying, today)
                                  ==> r.value <= rows[i].expiry.value)
    decreases |rows|
  {
    if rows != [] {
      var init := rows[..|rows| - 1];
      EarliestExpiryIsLeast(init, underlying, today);
      assert forall i :: 0 <= i < |init| ==> init[i] == rows[i];
    }
  }

  /** `get_nearest_expiry_for_underlying`: it fails when any row lacks UNDERLYING_SYMBOL
      (every row is visited), and otherwise yields the earliest candidate expiry. */
  function NearestExpiry(rows: seq<Row>, underlying: string, today: Date): Result<Option<Date>, CatalogFault> {
    if AllUnderlyingsPresent(rows) then Success(EarliestExpiry(rows, underlying, today))
    else Failure(UnderlyingSymbolMissing)
  }

  lemma {:induction false} CandidateExpiriesMembers(rows: seq<Row>, underlying: string, today: Date)
    ensures forall e :: e in CandidateExpiries(rows, underlying, today) ==>
      exists i :: 0 <= i < |rows| && ExpiryCandidate(rows[i], underlying, today) && rows[i].expiry.value == e
    ensures forall i :: 0 <= i < |rows| && ExpiryCandidate(rows[i], underlying, today) ==>
      rows[i].expiry.value in CandidateExpiries(rows, underlying, today)
    decreases |rows|
  {
    if rows != [] {
      var init := rows[..|rows| - 1];
      CandidateExpiriesMembers(init, underlying, today);
      assert forall i :: 0 <= i < |init| ==> init[i] == rows[i];
    }
  }

  lemma HasMember(s: set<Date>)
    requires s != {}
    ensures exists e :: e in s
  {
    if forall e :: e !in s {
      EmptyWithoutMembers(s);
    }
  }

  lemma EmptyWithoutMembers(s: set<Date>)
    requires forall e :: e !in s
    ensures s == {}
  {
    assert forall e :: e in s <==> e in {};
  }

  /** Python's `min` over a non-empty set of days. */
  method Least(s: set<Date>) returns (m: Date)
    requires s != {}
    ensures m in s && forall e :: e in s ==> m <= e
  {
    HasMember(s);
    m :| m in s;
    var rest := s - {m};
    while rest != {}
      invariant m in s && rest <= s
      invariant forall e :: e in s && e !in rest ==> m <= e
      decreases rest
    {
      HasMember(rest);
      var e :| e in rest;
      if e < m {
        m := e;
      }
      rest := rest - {e};
    }
  }

  /** `get_nearest_expiry_for_underlying`, as the loop the source runs: collect the set of
      candidate expiries, then take its minimum. */
  method FindNearestExpiry(rows: seq<Row>, underlying: string, today: Date)
    returns (r: Result<Option<Date>, CatalogFault>)
    ensures r == NearestExpiry(rows, underlying, today)
  {
    var expiries: set<Date> := {};
    var i := 0;
    while i < |rows|
      invariant 0 <= i <= |rows|
      invariant AllUnderlyingsPresent(rows[..i])
      invariant expiries == CandidateExpiries(rows[..i], underlying, today)
    {
      var row := rows[i];
      assert rows[..i + 1][..i] == rows[..i] && rows[..i + 1][i] == row;
      if row.underlyingSymbol.None? {
        assert !AllUnderlyingsPresent(rows) by { assert rows[i].underlyingSymbol.None?; }
        return Failure(UnderlyingSymbolMissing);
      }
      var ts := Upper(row.underlyingSymbol.value);
      if Contains(ts, Upper(underlying)) {
        var exp := row.expiry;
        if exp.Some? && exp.value >= today {
          expiries := expiries + {exp.value};
        }
      }
      assert expiries == CandidateExpiries(rows[..i + 1], underlying, today);
      i := i + 1;
    }
    assert rows[..i] == rows;
    if expiries == {} {
      EarliestOfNoCandidates(rows, underlying, today);
      return Success(None);
    }
    var least := Least(expiries);
    LeastIsEarliest(rows, underlying, today, least);
    return Success(Some(least));
  }

  lemma EarliestOfNoCandidates(rows: seq<Row>, underlying: string, today: Date)
    requires CandidateExpiries(rows, underlying, today) == {}
    ensures EarliestExpiry(rows, underlying, today) == None
  {
    CandidateExpiriesMembers(rows, underlying, today);
    EarliestExpiryIsLeast(rows, underlying, today);
  }

  /** The minimum of the accumulated set is the earliest candidate expiry. */
  lemma LeastIsEarliest(rows: seq<Row>, underlying: string, today: Date, least: Date)
    requires least in CandidateExpiries(rows, underlying, today)
    requires forall e :: e in CandidateExpiries(rows, underlying, today) ==> least <= e
    ensures EarliestExpiry(rows, underlying, today) == Some(least)
  {
    CandidateExpiriesMembers(rows, underlying, today);
    EarliestExpiryIsLeast(rows, underlying, today);
    var i :| 0 <= i < |rows| && ExpiryCandidate(rows[i], underlying, today) && rows[i].expiry.value == least;
    var v := EarliestExpiry(rows, underlying, today);
    var j :| 0 <= j < |rows| && ExpiryCandidate(rows[j], underlying, today) && rows[j].expiry.value == v.value;
    assert v.value <= least;
    assert least <= v.value;
  }

  // ---------------------------------------------------------------------------------------
  // find_option_row

  /** The strike filter: rows are dropped only when both strikes are known and differ. */
  predicate StrikeAgrees(wanted: Option<int>, cell: StrikeCell) {
    !(wanted.Some? && cell.StrikeValue? && cell.value != wanted.value)
  }

  /** The expiry filter: rows are dropped only when both expiries are known and differ. */
  predicate ExpiryAgrees(wanted: Option<Date>, got: Option<Date>) {
    !(wanted.Some? && got.Some? && got.value != wanted.value)
  }

  /** The four filters of `find_option_row`. The option type passes when it occurs inside the
      row's UNDERLYING_SYMBOL or equals its OPTION_TYPE, both ignoring case. */
  predicate PassesFilters(row: Row, underlying: string, expiry: Option<Date>, strike: Option<int>, optionType: string)
    requires row.underlyingSymbol.Some?
  {
    var ts := Upper(row.underlyingSymbol.value);
    Contains(ts, Upper(underlying))
    && (Contains(ts, Upper(optionType)) || Upper(row.optionType) == Upper(optionType))
    && StrikeAgrees(strike, row.strike)
    && ExpiryAgrees(expiry, row.expiry)
  }

  /** `find_option_row`: scanning in order, the first row that passes the filters, `None`
      after the last row, or the fault raised by a row without UNDERLYING_SYMBOL met first
      (`FirstOptionRowIsSound`, `FirstOptionRowIsFirstMatch`). */
  function FirstOptionRow(rows: seq<Row>, underlying: string, expiry: Option<Date>, strike: Option<int>, optionType: string)
    : Result<Option<Row>, CatalogFault>
  {
    if rows == [] then Success(None)
    else if rows[0].underlyingSymbol.None? then Failure(UnderlyingSymbolMissing)
    else if PassesFilters(rows[0], underlying, expiry, strike, optionType) then Success(Some(rows[0]))
    else FirstOptionRow(rows[1..], underlying, expiry, strike, optionType)
  }

  /** A row found is one of the table's and passes every filter; `None` means every row has
      an UNDERLYING_SYMBOL and fails a filter; a failure means some row has none. */
  lemma {:induction false} FirstOptionRowIsSound(rows: seq<Row>, underlying: string, expiry: Option<Date>,
                                                 strike: Option<int>, optionType: string)
    ensures var r := FirstOptionRow(rows, underlying, expiry, strike, optionType);
      && (r.Success? && r.value.Some? ==>
            r.value.value in rows && r.value.value.underlyingSymbol.Some?
            && PassesFilters(r.value.value, underlying, expiry, strike, optionType))
      && (r == Success(None) ==> forall i :: 0 <= i < |rows| ==>
            (rows[i].underlyingSymbol.Some? && !PassesFilters(rows[i], underlying, expiry, strike, optionType)))
      && (r.Failure? ==> exists i :: 0 <= i < |rows| && rows[i].underlyingSymbol.None?)
  {
    if rows != [] && rows[0].underlyingSymbol.Some? && !PassesFilters(rows[0], underlying, expiry, strike, optionType) {
      FirstOptionRowIsSound(rows[1..], underlying, expiry, strike, optionType);
      assert forall i :: 1 <= i < |rows| ==> rows[i] == rows[1..][i - 1];
    }
  }

  /** The result is decided by the first row that either lacks UNDERLYING_SYMBOL or passes
      the filters: given that every row before index `k` has a symbol and fails, row `k`
      decides, and running off the end gives `None`. */
  lemma {:induction false} FirstOptionRowIsFirstMatch(rows: seq<Row>, underlying: string, expiry: Option<Date>,
                                                      strike: Option<int>, optionType: string, k: nat)
    requires k <= |rows|
    requires forall j :: 0 <= j < k ==>
      rows[j].underlyingSymbol.Some? && !PassesFilters(rows[j], underlying, expiry, strike, optionType)
    ensures k == |rows| ==> FirstOptionRow(rows, underlying, expiry, strike, optionType) == Success(None)
    ensures k < |rows| && rows[k].underlyingSymbol.None? ==>
      FirstOptionRow(rows, underlying, expiry, strike, optionType) == Failure(UnderlyingSymbolMissing)
    ensures k < |rows| && rows[k].underlyingSymbol.Some? && PassesFilters(rows[k], underlying, expiry, strike, optionType) ==>
      FirstOptionRow(rows, underlying, expiry, strike, optionType) == Success(Some(rows[k]))
  {
    if k > 0 {
      assert rows[0].underlyingSymbol.Some? && !PassesFilters(rows[0], underlying, expiry, strike, optionType);
      assert forall j :: 0 <= j < k - 1 ==> rows[1..][j] == rows[j + 1];
      FirstOptionRowIsFirstMatch(rows[1..], underlying, expiry, strike, optionType, k - 1);
    }
  }

  /** `find_option_row`, as the source's scan with early return. */
  method FindOptionRow(rows: seq<Row>, underlying: string, expiry: Option<Date>, strike: Option<int>, optionType: string)
    returns (r: Result<Option<Row>, CatalogFault>)
    ensures r == FirstOptionRow(rows, underlying, expiry, strike, optionType)
  {
    var i := 0;
    while i < |rows|
      invariant 0 <= i <= |rows|
      invariant FirstOptionRow(rows[i..], underlying, expiry, strike, optionType)
             == FirstOptionRow(rows, underlying, expiry, strike, optionType)
    {
      var row := rows[i];
      assert rows[i..][0] == row;
      if row.underlyingSymbol.None? {
        return Failure(UnderlyingSymbolMissing);
      }
      var ts := Upper(row.underlyingSymbol.value);
      var rejected := false;
      if !Contains(ts, Upper(underlying)) {
        rejected := true;
      } else if !Contains(ts, Upper(optionType)) && Upper(row.optionType) != Upper(optionType) {
        rejected := true;
      } else if strike.Some? && row.strike.StrikeValue? && row.strike.value != strike.value {
        rejected := true;
      } else if expiry.Some? && row.expiry.Some? && row.expiry.value != expiry.value {
        rejected := true;
      }
      assert rejected == !PassesFilters(row, underlying, expiry, strike, optionType);
      if !rejected {
        return Success(Some(row));
      }
      SkipRejectedRow(rows, underlying, expiry, strike, optionType, i);
      i := i + 1;
    }
    assert rows[i..] == [];
    return Success(None);
  }

  lemma SkipRejectedRow(rows: seq<Row>, underlying: string, expiry: Option<Date>, strike: Option<int>, optionType: string, i: nat)
    requires i < |rows| && rows[i].underlyingSymbol.Some?
    requires !PassesFilters(rows[i], underlying, expiry, strike, optionType)
    ensures FirstOptionRow(rows[i..], underlying, expiry, strike, optionType)
         == FirstOptionRow(rows[i + 1..], underlying, expiry, strike, optionType)
  {
    assert rows[i..][0] == rows[i] && rows[i..][1..] == rows[i + 1..];
  }

  // ---------------------------------------------------------------------------------------
  // quantity_for_instrument_row

  /** The lot-size columns, in the order they are tried. */
  const LotSizeKeys: seq<string> := ["lot_size", "lotSize", "LOT_SIZE", "LotSize", "lot"]

  function LotCellOf(row: Row, key: string): LotCell {
    if key in row.lotCells then row.lotCells[key] else BlankLot
  }

  /** The first of `keys` holding an integer lot size, times `lots`; `lots` if none does. */
  function QuantityFromKeys(row: Row, keys: seq<string>, lots: int): int {
    if keys == [] then lots
    else match LotCellOf(row, keys[0])
      case IntegerLot(n) => n * lots
      case _ => QuantityFromKeys(row, keys[1..], lots)
  }

  /** `quantity_for_instrument_row(row, lots)`. */
  function QuantityFor(row: Row, lots: int): int {
    QuantityFromKeys(row, LotSizeKeys, lots)
  }

  /** Given that none of the first `k` keys holds an integer, key `k` decides the quantity;
      when none of the keys does, the quantity is `lots` itself. */
  lemma {:induction false} QuantityFromFirstIntegerKey(row: Row, keys: seq<string>, lots: int, k: nat)
    requires k <= |keys|
    requires forall j :: 0 <= j < k ==> !LotCellOf(row, keys[j]).IntegerLot?
    ensures k == |keys| ==> QuantityFromKeys(row, keys, lots) == lots
    ensures k < |keys| && LotCellOf(row, keys[k]).IntegerLot? ==>
      QuantityFromKeys(row, keys, lots) == LotCellOf(row, keys[k]).value * lots
  {
    if k > 0 {
      assert forall j :: 0 <= j < k - 1 ==> keys[1..][j] == keys[j + 1];
      QuantityFromFirstIntegerKey(row, keys[1..], lots, k - 1);
    }
  }

  /** `quantity_for_instrument_row`, as the source's loop over the key names. */
  method QuantityForRow(row: Row, lots: int) returns (q: int)
    ensures q == QuantityFor(row, lots)
  {
    var keys := LotSizeKeys;
    var i := 0;
    while i < |keys|
      invariant 0 <= i <= |keys|
      invariant QuantityFromKeys(row, keys[i..], lots) == QuantityFor(row, lots)
    {
      var cell := LotCellOf(row, keys[i]);
      if cell.IntegerLot? {
        return cell.value * lots;
      }
      assert keys[i..][1..] == keys[i + 1..];
      i := i + 1;
    }
    return lots;
  }
}
