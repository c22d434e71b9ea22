/** Values shared by the engines, the brokers and the data layer (bot/types.py).
    Prices, quantities and fees are exact reals; timestamps are integer milliseconds. */
module Types {

  datatype Option<+T> = None | Some(value: T)

  datatype Result<+T, +E> = Ok(value: T) | Err(error: E)

  type Symbol = string

  datatype Bar = Bar(timestamp: int, open: real, high: real, low: real, close: real, volume: real)

  /** The bar with the sign of every price changed. */
  function MirrorBar(b: Bar): Bar { Bar(b.timestamp, -b.open, -b.low, -b.high, -b.close, b.volume) }

  function TimeOf(): Bar -> int { (b: Bar) => b.timestamp }

  /** Times never go back. */
  ghost predicate InTimeOrder(bars: seq<Bar>) {
    forall i, j :: 0 <= i < j < |bars| ==> bars[i].timestamp <= bars[j].timestamp
  }

  datatype Side = Buy | Sell {
    function Opposite(): Side { if Buy? then Sell else Buy }
    /** An amount as bought or, with its sign changed, as sold. */
    function Of(amount: real): real { if Buy? then amount else -amount }
  }

  datatype SignalType = Long | Short | Flat

  datatype Signal = Signal(symbol: Symbol, kind: SignalType, entry: real, stopLoss: real, takeProfit: real)

  /** The exit prices of an order are 0.0 when it carries none. */
  datatype Order = Order(symbol: Symbol, side: Side, qty: real, stopLoss: real, takeProfit: real)

  /** The quantity is signed: positive is long, negative is short. */
  datatype Position = Position(qty: real, avgPrice: real)

  datatype Role = Entry | Exit | PartialExit

  /** A fill together with the role the broker tagged it with. */
  datatype Fill = Fill(symbol: Symbol, side: Side, qty: real, price: real, timestamp: int, fee: real, role: Role)

  datatype Account = Account(cash: real, equity: real, positionCount: nat)

  const MS_PER_DAY: int := 86_400_000

  /** The UTC calendar day of a timestamp. */
  function DayOf(timestamp: int): int { timestamp / MS_PER_DAY }

  function Abs(x: real): real { if x < 0.0 then -x else x }
  function Max(x: real, y: real): real { if x < y then y else x }
  function Min(x: real, y: real): real { if y < x then y else x }
}
