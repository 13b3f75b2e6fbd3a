/** The exchange-independent parts of the position manager (OrderManager.py):
    reading the instrument contract at construction, the minimum-size check and
    the trailing-stop ratchet. Prices are exact reals; the exchange calls that
    fetch the contract are replaced by their result, passed in. */
module OrderManagement {
  import opened Wrappers

  // ---------------------------------------------------------------------------
  // Construction
  // ---------------------------------------------------------------------------

  /** Why `__init__` raises. */
  datatype InitError =
    | ContractUnavailable      // ValueError: the lookup gave None or an empty record
    | MissingKey(key: string)  // KeyError on one of the three contract fields

  /** The three numbers `__init__` keeps from the contract. */
  datatype ContractInfo = ContractInfo(volumePlace: int, pricePlace: int, minTradeNum: real)

  /** Python's `int()` on a float: truncation toward zero. */
  function Trunc(x: real): (n: int)
    ensures x >= 0.0 ==> 0 <= n && n as real <= x < n as real + 1.0
    ensures x < 0.0 ==> n <= 0 && n as real - 1.0 < x <= n as real
  {
    if x >= 0.0 then x.Floor else -((-x).Floor)
  }

  /** Lines 14-19 of `__init__`: reject a missing or empty contract, then read
      `volumePlace`, `pricePlace` and `minTradeNum` in that order. */
  function ReadContract(contract: Option<map<string, real>>): (r: Result<ContractInfo, InitError>)
    ensures r == Failure(ContractUnavailable) <==> contract.None? || |contract.value| == 0
    ensures r.Success? <==>
              contract.Some? && |contract.value| > 0 &&
              "volumePlace" in contract.value && "pricePlace" in contract.value &&
              "minTradeNum" in contract.value
    ensures r.Failure? && r.error.MissingKey? ==> contract.Some? && r.error.key !in contract.value
    ensures r.Success? ==>
              var c := contract.value;
              r.value.minTradeNum == c["minTradeNum"] &&
              Trunc(c["volumePlace"]) == r.value.volumePlace && Trunc(c["pricePlace"]) == r.value.pricePlace
  {
    if contract.None? || |contract.value| == 0 then Failure(ContractUnavailable)
    else
      var c := contract.value;
      if "volumePlace" !in c then Failure(MissingKey("volumePlace"))
      else if "pricePlace" !in c then Failure(MissingKey("pricePlace"))
      else if "minTradeNum" !in c then Failure(MissingKey("minTradeNum"))
      else Success(ContractInfo(Trunc(c["volumePlace"]), Trunc(c["pricePlace"]), c["minTradeNum"]))
  }

  // ---------------------------------------------------------------------------
  // Trailing stop
  // ---------------------------------------------------------------------------

  /** The top of the book `trail_stop` reads. */
  datatype Quote = Quote(bid: real, ask: real)

  /** The entries of a position record that `trail_stop` reads; `side` may be
      absent from the record. */
  datatype PositionView = PositionView(holdSide: string, side: Option<string>, openPriceAvg: real, sl: real)

  /** The long branch moves the stop (lines 120-125). */
  predicate LongMoves(p: PositionView, q: Quote, trigger: real, trail: real) {
    q.bid - p.openPriceAvg > trigger * p.openPriceAvg && q.bid - trail * p.openPriceAvg > p.sl
  }

  /** The short branch moves the stop (lines 128-133). */
  predicate ShortMoves(p: PositionView, q: Quote, trigger: real, trail: real) {
    p.openPriceAvg - q.ask > trigger * p.openPriceAvg && q.ask + trail * p.openPriceAvg < p.sl
  }

  /** Which branch of `trail_stop` a record takes: the long branch on
      `holdSide`, otherwise the short branch on `side` (a KeyError when the
      record has no `side`), otherwise neither. */
  datatype Branch = LongBranch | ShortBranch | NoBranch | MissingSide

  function BranchOf(p: PositionView): (b: Branch)
    ensures b == LongBranch <==> p.holdSide == "long"
    ensures b == ShortBranch <==> p.holdSide != "long" && p.side == Some("short")
    ensures b == MissingSide <==> p.holdSide != "long" && p.side.None?
  {
    if p.holdSide == "long" then LongBranch
    else if p.side.None? then MissingSide
    else if p.side.value == "short" then ShortBranch
    else NoBranch
  }

  /** The stop `trail_stop` leaves in the record, or the KeyError it raises when
      the position is not long and has no `side` entry. A long stop only rises,
      a short stop only falls, and each moves to the trailing distance from the
      quote exactly when the trigger is passed and the move is an improvement. */
  function TrailedStop(p: PositionView, q: Quote, trigger: real, trail: real): (r: Result<real, string>)
    ensures r.Failure? <==> BranchOf(p) == MissingSide
    ensures r.Failure? ==> r.error == "side"
    ensures BranchOf(p) == LongBranch ==>
              r.Success? && r.value >= p.sl &&
              (r.value != p.sl <==> LongMoves(p, q, trigger, trail)) &&
              (r.value != p.sl ==> r.value == q.bid - trail * p.openPriceAvg)
    ensures BranchOf(p) == ShortBranch ==>
              r.Success? && r.value <= p.sl &&
              (r.value != p.sl <==> ShortMoves(p, q, trigger, trail)) &&
              (r.value != p.sl ==> r.value == q.ask + trail * p.openPriceAvg)
    ensures BranchOf(p) == NoBranch ==> r == Success(p.sl)
  {
    match BranchOf(p)
    case LongBranch =>
      Success(if LongMoves(p, q, trigger, trail) then q.bid - trail * p.openPriceAvg else p.sl)
    case ShortBranch =>
      Success(if ShortMoves(p, q, trigger, trail) then q.ask + trail * p.openPriceAvg else p.sl)
    case MissingSide =>
      Failure("side")
    case NoBranch =>
      Success(p.sl)
  }

  /** A second call with the same quote changes nothing: the candidate it
      computes equals the stop already set, which is not strictly better. */
  lemma TrailStopIdempotent(p: PositionView, q: Quote, trigger: real, trail: real)
    requires TrailedStop(p, q, trigger, trail).Success?
    ensures var s := TrailedStop(p, q, trigger, trail).value;
            TrailedStop(p.(sl := s), q, trigger, trail) == Success(s)
  {}

  /** `trail_stop` called once per quote, in order, stopping at a KeyError. */
  function TrailOver(p: PositionView, quotes: seq<Quote>, trigger: real, trail: real): (r: Result<PositionView, string>)
    ensures r.Success? ==> r.value == p.(sl := r.value.sl)
    decreases |quotes|
  {
    if quotes == [] then Success(p)
    else match TrailedStop(p, quotes[0], trigger, trail)
      case Failure(e) => Failure(e)
      case Success(s) => TrailOver(p.(sl := s), quotes[1..], trigger, trail)
  }

  // The ratchet over a run of quotes. For a fixed position the entry price,
  // and so the two distances `trigger * entry` and `trail * entry`, do not
  // change; the run is stated with those distances as plain numbers.

  /** One long update with trigger distance `tg` and trailing distance `td`. */
  function LongStop(sl: real, q: Quote, entry: real, tg: real, td: real): real {
    if q.bid - entry > tg && q.bid - td > sl then q.bid - td else sl
  }

  /** One short update with trigger distance `tg` and trailing distance `td`. */
  function ShortStop(sl: real, q: Quote, entry: real, tg: real, td: real): real {
    if entry - q.ask > tg && q.ask + td < sl then q.ask + td else sl
  }

  function LongRatchet(sl: real, quotes: seq<Quote>, entry: real, tg: real, td: real): real
    decreases |quotes|
  {
    if quotes == [] then sl else LongRatchet(LongStop(sl, quotes[0], entry, tg, td), quotes[1..], entry, tg, td)
  }

  function ShortRatchet(sl: real, quotes: seq<Quote>, entry: real, tg: real, td: real): real
    decreases |quotes|
  {
    if quotes == [] then sl else ShortRatchet(ShortStop(sl, quotes[0], entry, tg, td), quotes[1..], entry, tg, td)
  }

  /** Repeated `trail_stop` on a long record never fails and is the long
      ratchet with distances `trigger * entry` and `trail * entry`. */
  lemma {:induction false} TrailOverLong(p: PositionView, quotes: seq<Quote>, trigger: real, trail: real, tg: real, td: real)
    requires BranchOf(p) == LongBranch
    requires tg == trigger * p.openPriceAvg && td == trail * p.openPriceAvg
    ensures TrailOver(p, quotes, trigger, trail) == Success(p.(sl := LongRatchet(p.sl, quotes, p.openPriceAvg, tg, td)))
    decreases |quotes|
  {
    if quotes != [] {
      var s0 := TrailedStop(p, quotes[0], trigger, trail).value;
      assert s0 == LongStop(p.sl, quotes[0], p.openPriceAvg, tg, td);
      var p1 := p.(sl := s0);
      TrailOverLong(p1, quotes[1..], trigger, trail, tg, td);
      assert TrailOver(p, quotes, trigger, trail) == TrailOver(p1, quotes[1..], trigger, trail);
    } else {
      assert p.(sl := p.sl) == p;
    }
  }

  /** Repeated `trail_stop` on a short record never fails and is the short
      ratchet with distances `trigger * entry` and `trail * entry`. */
  lemma {:induction false} TrailOverShort(p: PositionView, quotes: seq<Quote>, trigger: real, trail: real, tg: real, td: real)
    requires BranchOf(p) == ShortBranch
    requires tg == trigger * p.openPriceAvg && td == trail * p.openPriceAvg
    ensures TrailOver(p, quotes, trigger, trail) == Success(p.(sl := ShortRatchet(p.sl, quotes, p.openPriceAvg, tg, td)))
    decreases |quotes|
  {
    if quotes != [] {
      var s0 := TrailedStop(p, quotes[0], trigger, trail).value;
      assert s0 == ShortStop(p.sl, quotes[0], p.openPriceAvg, tg, td);
      var p1 := p.(sl := s0);
      TrailOverShort(p1, quotes[1..], trigger, trail, tg, td);
      assert TrailOver(p, quotes, trigger, trail) == TrailOver(p1, quotes[1..], trigger, trail);
    } else {
      assert p.(sl := p.sl) == p;
    }
  }

  /** Over any run of quotes a long stop ends at the highest of its starting
      value and the candidates `bid - td` of the quotes that passed the
      trigger (`bid - entry > tg`). */
  lemma {:induction false} LongRatchetIsMaximum(sl: real, quotes: seq<Quote>, entry: real, tg: real, td: real)
    ensures var s := LongRatchet(sl, quotes, entry, tg, td);
            s >= sl &&
            (forall i :: 0 <= i < |quotes| && quotes[i].bid - entry > tg ==> s >= quotes[i].bid - td) &&
            (s == sl || exists i :: 0 <= i < |quotes| && quotes[i].bid - entry > tg && s == quotes[i].bid - td)
    decreases |quotes|
  {
    if quotes != [] {
      var s0 := LongStop(sl, quotes[0], entry, tg, td);
      var rest := quotes[1..];
      LongRatchetIsMaximum(s0, rest, entry, tg, td);
      var s := LongRatchet(sl, quotes, entry, tg, td);
      forall i | 0 <= i < |quotes| && quotes[i].bid - entry > tg
        ensures s >= quotes[i].bid - td
      {
        if i > 0 {
          assert rest[i - 1] == quotes[i];
        }
      }
      if s != sl && s != s0 {
        var j :| 0 <= j < |rest| && rest[j].bid - entry > tg && s == rest[j].bid - td;
        assert quotes[j + 1] == rest[j];
      }
    }
  }

  /** Symmetrically, a short stop ends at the lowest of its starting value and
      the candidates `ask + td` of the quotes that passed the trigger
      (`entry - ask > tg`). */
  lemma {:induction false} ShortRatchetIsMinimum(sl: real, quotes: seq<Quote>, entry: real, tg: real, td: real)
    ensures var s := ShortRatchet(sl, quotes, entry, tg, td);
            s <= sl &&
            (forall i :: 0 <= i < |quotes| && entry - quotes[i].ask > tg ==> s <= quotes[i].ask + td) &&
            (s == sl || exists i :: 0 <= i < |quotes| && entry - quotes[i].ask > tg && s == quotes[i].ask + td)
    decreases |quotes|
  {
    if quotes != [] {
      var s0 := ShortStop(sl, quotes[0], entry, tg, td);
      var rest := quotes[1..];
      ShortRatchetIsMinimum(s0, rest, entry, tg, td);
      var s := ShortRatchet(sl, quotes, entry, tg, td);
      forall i | 0 <= i < |quotes| && entry - quotes[i].ask > tg
        ensures s <= quotes[i].ask + td
      {
        if i > 0 {
          assert rest[i - 1] == quotes[i];
        }
      }
      if s != sl && s != s0 {
        var j :| 0 <= j < |rest| && entry - rest[j].ask > tg && s == rest[j].ask + td;
        assert quotes[j + 1] == rest[j];
      }
    }
  }

  /** A position record that `trail_stop` updates in place. */
  class Position {
    var holdSide: string
    var side: Option<string>
    var openPriceAvg: real
    var sl: real

    function View(): PositionView
      reads this
    {
      PositionView(holdSide, side, openPriceAvg, sl)
    }

    constructor (holdSide: string, side: Option<string>, openPriceAvg: real, sl: real)
      ensures View() == PositionView(holdSide, side, openPriceAvg, sl)
    {
      this.holdSide := holdSide;
      this.side := side;
      this.openPriceAvg := openPriceAvg;
      this.sl := sl;
    }
  }

  // ---------------------------------------------------------------------------
  // The manager
  // ---------------------------------------------------------------------------

  class OrderManager {
    const symbol: string
    const risk: real
    const volumePlace: int
    const pricePlace: int
    const minTradeNum: real

    constructor (symbol: string, risk: real, info: ContractInfo)
      ensures this.symbol == symbol && this.risk == risk
      ensures volumePlace == info.volumePlace && pricePlace == info.pricePlace
      ensures minTradeNum == info.minTradeNum
    {
      this.symbol := symbol;
      this.risk := risk;
      volumePlace := info.volumePlace;
      pricePlace := info.pricePlace;
      minTradeNum := info.minTradeNum;
    }

    /** `__init__`, given what the contract lookup returned; a ValueError or
        KeyError is a Failure and no manager. */
    static method Create(symbol: string, risk: real, contract: Option<map<string, real>>)
      returns (r: Result<OrderManager, InitError>)
      ensures r.Failure? <==> ReadContract(contract).Failure?
      ensures r.Failure? ==> r.error == ReadContract(contract).error
      ensures r.Success? ==>
                fresh(r.value) && r.value.symbol == symbol && r.value.risk == risk &&
                ContractInfo(r.value.volumePlace, r.value.pricePlace, r.value.minTradeNum) ==
                  ReadContract(contract).value
      ensures r.Success? ==>
                forall a :: r.value.IsValidOrder(a) <==> a >= contract.value["minTradeNum"]
    {
      var info := ReadContract(contract);
      if info.Failure? {
        return Failure(info.error);
      }
      var m := new OrderManager(symbol, risk, info.value);
      return Success(m);
    }

    /** The line-107 `is_valid_order`: an amount is tradeable when it reaches the
        instrument's minimum. */
    predicate IsValidOrder(amount: real) {
      amount >= minTradeNum
    }

    /** `trail_stop`: update `pos.sl` in place and return the same record, or
        raise KeyError (nothing changed) when a non-long record has no `side`. */
    method TrailStop(pos: Position, price: Quote, trigger: real, trail: real) returns (r: Result<Position, string>)
      modifies pos`sl
      ensures TrailedStop(old(pos.View()), price, trigger, trail).Failure? ==>
                r == Failure(TrailedStop(old(pos.View()), price, trigger, trail).error) &&
                pos.sl == old(pos.sl)
      ensures TrailedStop(old(pos.View()), price, trigger, trail).Success? ==>
                r == Success(pos) &&
                pos.View() == old(pos.View()).(sl := TrailedStop(old(pos.View()), price, trigger, trail).value)
    {
      var sl := pos.sl;
      var entry := pos.openPriceAvg;
      if pos.holdSide == "long" {
        var bid := price.bid;
        if bid - entry > trigger * entry {
          var newSl := bid - trail * entry;
          if newSl > sl {
            pos.sl := newSl;
          }
        }
      } else if pos.side.None? {
        return Failure("side");
      } else if pos.side.value == "short" {
        var ask := price.ask;
        if entry - ask > trigger * entry {
          var newSl := ask + trail * entry;
          if newSl < sl {
            pos.sl := newSl;
          }
        }
      }
      return Success(pos);
    }
  }
}
