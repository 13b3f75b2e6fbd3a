/** The order dispatcher (OrdMan.py): a process-wide single instance that
    sizes orders through the risk manager, queues them, and a worker that takes
    them off the queue one at a time and hands each to the executor for its
    type. The worker thread, the lock and the blocking `get` are replaced by
    one sequential loop iteration; the log keeps the messages that matter. */
module OrderDispatch {
  import opened Wrappers
  import opened OrderExecFactory

  /** The record `place_order` puts on the queue. */
  datatype Order = Order(symbol: string, orderType: string, side: string, price: real, size: real)

  /** The error and info messages the dispatcher logs. */
  datatype LogEntry =
    | OrderRejected(reason: string)          // the risk manager raised
    | OrderExecuted(response: Response)      // the executor returned
    | UnsupportedOrderType(orderType: string)
    | OrderFailed(reason: string)            // the executor raised

  /** `RiskManager(api).calculate_position_size`: a size, or the exception it raises. */
  datatype RiskManager = RiskManager(positionSize: (string, real) -> Result<real, string>)

  /** The dispatcher's state: the queue, the log, the calls made on the
      exchange gateway (oldest first) and the shutdown flag. */
  datatype Dispatcher = Dispatcher(queue: seq<Order>, log: seq<LogEntry>, sent: seq<ExchangeCall>, shutdown: bool)

  /** `place_order`: queue the sized order, or log the rejection and leave the
      queue as it was. */
  function PlaceOrderStep(d: Dispatcher, risk: RiskManager, symbol: string, orderType: string,
                          side: string, price: real, riskPct: real): (d': Dispatcher)
    ensures d'.sent == d.sent && d'.shutdown == d.shutdown
    ensures risk.positionSize(symbol, riskPct).Failure? ==>
              d'.queue == d.queue && d'.log == d.log + [OrderRejected(risk.positionSize(symbol, riskPct).error)]
    ensures risk.positionSize(symbol, riskPct).Success? ==>
              d'.log == d.log && |d'.queue| == |d.queue| + 1 && d'.queue[..|d.queue|] == d.queue &&
              d'.queue[|d.queue|] == Order(symbol, orderType, side, price, risk.positionSize(symbol, riskPct).value)
  {
    match risk.positionSize(symbol, riskPct)
    case Failure(e) => d.(log := d.log + [OrderRejected(e)])
    case Success(size) => d.(queue := d.queue + [Order(symbol, orderType, side, price, size)])
  }

  /** What handling order `o` adds to the gateway calls. */
  function CallsFor(api: Gateway, o: Order): seq<ExchangeCall> {
    match GetExecutor(o.orderType, api)
    case None => []
    case Some(e) => [Request(e, o.symbol, o.side, o.price, o.size)]
  }

  /** What handling order `o` adds to the log. */
  function LogFor(api: Gateway, o: Order): LogEntry {
    match GetExecutor(o.orderType, api)
    case None => UnsupportedOrderType(o.orderType)
    case Some(e) =>
      match Execute(e, o.symbol, o.side, o.price, o.size)
      case Success(response) => OrderExecuted(response)
      case Failure(err) => OrderFailed(err)
  }

  /** One iteration of `_process_orders`. Once the flag is set the loop does
      not run; an empty queue times out and changes nothing; otherwise the head
      order is taken off, handed to its executor or reported unsupported, and
      never put back, whatever the outcome. */
  function WorkerStep(api: Gateway, d: Dispatcher): (d': Dispatcher)
    ensures d'.shutdown == d.shutdown
    ensures d.shutdown || d.queue == [] ==> d' == d
    ensures !d.shutdown && d.queue != [] ==>
              d'.queue == d.queue[1..] &&
              d'.log == d.log + [LogFor(api, d.queue[0])] &&
              d'.sent == d.sent + CallsFor(api, d.queue[0])
    ensures !d.shutdown && d.queue != [] && GetExecutor(d.queue[0].orderType, api).None? ==>
              d'.sent == d.sent && d'.log == d.log + [UnsupportedOrderType(d.queue[0].orderType)]
  {
    if d.shutdown || d.queue == [] then d
    else
      var o := d.queue[0];
      match GetExecutor(o.orderType, api)
      case None =>
        d.(queue := d.queue[1..], log := d.log + [UnsupportedOrderType(o.orderType)])
      case Some(e) =>
        var d1 := d.(queue := d.queue[1..], sent := d.sent + [Request(e, o.symbol, o.side, o.price, o.size)]);
        match Execute(e, o.symbol, o.side, o.price, o.size)
        case Success(response) => d1.(log := d.log + [OrderExecuted(response)])
        case Failure(err) => d1.(log := d.log + [OrderFailed(err)])
  }

  /** `n` iterations of the worker loop. */
  function WorkerSteps(api: Gateway, d: Dispatcher, n: nat): Dispatcher
    decreases n
  {
    if n == 0 then d else WorkerSteps(api, WorkerStep(api, d), n - 1)
  }

  /** The gateway calls of a run of orders, in order. */
  function CallsForAll(api: Gateway, orders: seq<Order>): seq<ExchangeCall>
    decreases |orders|
  {
    if orders == [] then [] else CallsFor(api, orders[0]) + CallsForAll(api, orders[1..])
  }

  /** The log entries of a run of orders, in order. */
  function LogForAll(api: Gateway, orders: seq<Order>): (r: seq<LogEntry>)
    ensures |r| == |orders|
    decreases |orders|
  {
    if orders == [] then [] else [LogFor(api, orders[0])] + LogForAll(api, orders[1..])
  }

  /** FIFO: `n` iterations on a running dispatcher with at least `n` queued
      orders handle exactly the first `n`, in queue order, and leave the rest
      queued. */
  lemma {:induction false} WorkerIsFifo(api: Gateway, d: Dispatcher, n: nat)
    requires !d.shutdown && n <= |d.queue|
    ensures var d' := WorkerSteps(api, d, n);
            d'.queue == d.queue[n..] &&
            d'.log == d.log + LogForAll(api, d.queue[..n]) &&
            d'.sent == d.sent + CallsForAll(api, d.queue[..n]) &&
            !d'.shutdown
    decreases n
  {
    if n > 0 {
      var d1 := WorkerStep(api, d);
      WorkerIsFifo(api, d1, n - 1);
      var o, rest := d.queue[0], d.queue[1..];
      assert d.queue[..n] == [o] + rest[..n - 1];
      assert d.queue[..n][1..] == rest[..n - 1];
      assert rest[n - 1..] == d.queue[n..];
    }
  }

  /** Once the flag is set, no number of iterations changes anything. */
  lemma {:induction false} ShutdownStopsWorker(api: Gateway, d: Dispatcher, n: nat)
    requires d.shutdown
    ensures WorkerSteps(api, d, n) == d
    decreases n
  {
    if n > 0 {
      ShutdownStopsWorker(api, WorkerStep(api, d), n - 1);
    }
  }

  /** With an empty queue the worker only waits: no iteration changes anything. */
  lemma {:induction false} IdleWorkerWaits(api: Gateway, d: Dispatcher, n: nat)
    requires d.queue == []
    ensures WorkerSteps(api, d, n) == d
    decreases n
  {
    if n > 0 {
      IdleWorkerWaits(api, WorkerStep(api, d), n - 1);
    }
  }

  /** The dispatcher object. */
  class OrderManager {
    const api: Gateway
    const riskManager: RiskManager
    var orderQueue: seq<Order>
    var log: seq<LogEntry>
    /** The calls this dispatcher has made on `api`. */
    var sent: seq<ExchangeCall>
    var shutdownFlag: bool

    function State(): Dispatcher
      reads this
    {
      Dispatcher(orderQueue, log, sent, shutdownFlag)
    }

    /** The body of `__new__` that runs for the first construction. */
    constructor (api: Gateway, riskManager: RiskManager)
      ensures this.api == api && this.riskManager == riskManager
      ensures State() == Dispatcher([], [], [], false)
    {
      this.api := api;
      this.riskManager := riskManager;
      orderQueue := [];
      log := [];
      sent := [];
      shutdownFlag := false;
    }

    method PlaceOrder(symbol: string, orderType: string, side: string, price: real, riskPct: real)
      modifies this`orderQueue, this`log
      ensures State() == PlaceOrderStep(old(State()), riskManager, symbol, orderType, side, price, riskPct)
    {
      var size := riskManager.positionSize(symbol, riskPct);
      if size.Failure? {
        log := log + [OrderRejected(size.error)];
      } else {
        orderQueue := orderQueue + [Order(symbol, orderType, side, price, size.value)];
      }
    }

    /** One pass of the `_process_orders` loop; `false` when the loop condition
        stops it because the flag is set. */
    method ProcessOrder() returns (ran: bool)
      modifies this`orderQueue, this`log, this`sent
      ensures ran == !old(shutdownFlag)
      ensures State() == WorkerStep(api, old(State()))
    {
      if shutdownFlag {
        return false;
      }
      ran := true;
      if orderQueue == [] {
        return;
      }
      var order := orderQueue[0];
      orderQueue := orderQueue[1..];
      var executor := GetExecutor(order.orderType, api);
      if executor.Some? {
        var e := executor.value;
        sent := sent + [Request(e, order.symbol, order.side, order.price, order.size)];
        var response := Execute(e, order.symbol, order.side, order.price, order.size);
        if response.Success? {
          log := log + [OrderExecuted(response.value)];
        } else {
          log := log + [OrderFailed(response.error)];
        }
      } else {
        log := log + [UnsupportedOrderType(order.orderType)];
      }
    }

    /** The worker loop, cut off after `iterations` passes or when the flag
        is found set. */
    method ProcessOrders(iterations: nat)
      modifies this`orderQueue, this`log, this`sent
      ensures State() == WorkerSteps(api, old(State()), iterations)
    {
      var i := 0;
      while i < iterations && !shutdownFlag
        invariant 0 <= i <= iterations
        invariant shutdownFlag == old(shutdownFlag)
        invariant WorkerSteps(api, old(State()), iterations) == WorkerSteps(api, State(), iterations - i)
      {
        var _ := ProcessOrder();
        i := i + 1;
      }
      if shutdownFlag {
        ShutdownStopsWorker(api, State(), iterations - i);
      }
    }

    /** `shutdown`: set the flag (joining the worker thread is not modelled). */
    method Shutdown()
      modifies this`shutdownFlag
      ensures shutdownFlag
    {
      shutdownFlag := true;
    }
  }

  /** The class object's `_instance` slot. */
  class OrderManagerClass {
    var instance: OrderManager?

    constructor ()
      ensures instance == null
    {
      instance := null;
    }

    /** `OrderManager(api)`: the first call builds the instance with its risk
        manager and an empty queue; every later call returns that same instance
        and ignores its arguments. */
    method New(api: Gateway, riskManager: RiskManager) returns (m: OrderManager)
      modifies this
      ensures old(instance) != null ==> m == old(instance) && instance == old(instance)
      ensures old(instance) == null ==>
                fresh(m) && instance == m && m.api == api && m.riskManager == riskManager &&
                m.State() == Dispatcher([], [], [], false)
    {
      if instance == null {
        instance := new OrderManager(api, riskManager);
      }
      m := instance;
    }
  }
}
