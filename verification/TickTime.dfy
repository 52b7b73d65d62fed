// 32-bit tick arithmetic against unbounded time.
module TickTime {
  const TICK_RANGE := 0x1_0000_0000
  const PORT_MAX_DELAY := 0xFFFF_FFFF

  type Tick = t: int | 0 <= t < TICK_RANGE

  // What a 32-bit counter shows at unbounded time t, and how often it has wrapped by then.
  function Wrap(t: nat): Tick { t % TICK_RANGE }
  function Epoch(t: nat): nat { t / TICK_RANGE }

  // Unsigned 32-bit addition and subtraction.
  function TickAdd(a: Tick, b: Tick): Tick { (a + b) % TICK_RANGE }
  function TickSub(a: Tick, b: Tick): Tick { (a - b) % TICK_RANGE }
}
